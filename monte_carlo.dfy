/** The animated Monte Carlo estimation of pi: the module state that the
    animation callback `update` advances one batch per frame, and the two
    button handlers `toggle_pause` and `reset` that act on it. */
module MonteCarlo {
  import opened Estimate
  import opened Partition

  /** Points added per frame (`update_frequency`). */
  const UpdateFrequency: nat := 50

  /** One draw of `np.random.uniform(-1, 1)` for x and one for y: both lie
      in the half-open interval [-1, 1). */
  type Sample = p: (real, real) | -1.0 <= p.0 < 1.0 && -1.0 <= p.1 < 1.0 witness (0.0, 0.0)

  datatype Option<T> = None | Some(value: T)

  /** The module's globals as one value. */
  datatype RunState = RunState(
    pointsX: seq<real>,
    pointsY: seq<real>,
    colors: seq<bool>,
    errorX: seq<int>,
    errorY: seq<real>,
    pointsInside: nat,
    totalPoints: nat,
    target: nat,
    finished: bool,
    paused: bool)

  /** What one redraw hands to the plots: the inside and outside points, the
      error curve, and the statistics (None when no statistics text is set).
      The statistics hold the values the text shows, plus the hit percentage
      that `update` computes but never displays. */
  datatype Stats = Stats(
    totalPoints: nat,
    target: nat,
    pointsInside: nat,
    piEstimate: real,
    hitPercent: real,
    errorPercent: real,
    complete: bool)

  datatype Frame = Frame(
    insideX: seq<real>,
    insideY: seq<real>,
    outsideX: seq<real>,
    outsideY: seq<real>,
    errorX: seq<int>,
    errorY: seq<real>,
    stats: Option<Stats>)

  function Min(a: int, b: int): (r: int) {
    if a < b then a else b
  }

  /** The point counts 1, 2, ..., n that label the error curve. */
  function Indices(n: nat): (r: seq<int>)
    ensures |r| == n
    ensures forall k :: 0 <= k < n ==> r[k] == k + 1
  {
    if n == 0 then [] else Indices(n - 1) + [n]
  }

  /** The x coordinates, y coordinates and inside flags of a run of samples. */
  function Xs(ps: seq<Sample>): (r: seq<real>)
  {
    seq(|ps|, k requires 0 <= k < |ps| => ps[k].0)
  }

  function Ys(ps: seq<Sample>): (r: seq<real>)
  {
    seq(|ps|, k requires 0 <= k < |ps| => ps[k].1)
  }

  function Flags(ps: seq<Sample>): (r: seq<bool>)
  {
    seq(|ps|, k requires 0 <= k < |ps| => Inside(ps[k].0, ps[k].1))
  }

  /** The error curve of a run whose inside flags are `c`: entry k is the
      error of the estimate after the first k + 1 points. */
  function ErrorCurve(c: seq<bool>): (r: seq<real>)
    ensures |r| == |c|
  {
    if c == [] then []
    else ErrorCurve(c[..|c| - 1]) + [ErrorPercent(CountTrue(c), |c|)]
  }

  /** Entry k of the error curve is the error of the estimate formed from
      the first k + 1 flags. */
  lemma {:induction false} ErrorCurveAt(c: seq<bool>, k: nat)
    requires k < |c|
    ensures ErrorCurve(c)[k] == ErrorPercent(CountTrue(c[..k + 1]), k + 1)
  {
    var n := |c|;
    if k == n - 1 {
      assert c[..k + 1] == c;
    } else {
      ErrorCurveAt(c[..n - 1], k);
      assert c[..n - 1][..k + 1] == c[..k + 1];
    }
  }

  /** The lists agree with the counters: one coordinate pair and one flag
      per point, each point in the sampling square and flagged by the inside
      test; the inside counter counts the true flags; the error labels are
      1..n and the error values follow the running estimate. */
  ghost predicate Consistent(s: RunState)
  {
    && |s.pointsX| == s.totalPoints
    && |s.pointsY| == s.totalPoints
    && |s.colors| == s.totalPoints
    && (forall k :: 0 <= k < s.totalPoints ==>
          && -1.0 <= s.pointsX[k] < 1.0 && -1.0 <= s.pointsY[k] < 1.0
          && s.colors[k] == Inside(s.pointsX[k], s.pointsY[k]))
    && s.pointsInside == CountTrue(s.colors)
    && s.errorX == Indices(s.totalPoints)
    && s.errorY == ErrorCurve(s.colors)
  }

  /** The invariant of a run: consistent lists, a positive target that is
      never overshot, and `finished` exactly when the target is reached. */
  ghost predicate Inv(s: RunState)
  {
    && Consistent(s)
    && 0 < s.target
    && s.totalPoints <= s.target
    && (s.finished <==> s.totalPoints == s.target)
  }

  /** The state that `reset` installs (and that the script starts in), for a
      target obtained from `get_point_count`, which only returns a positive
      count. */
  function Fresh(target: nat): (r: RunState)
    requires 0 < target
    ensures Inv(r)
  {
    RunState([], [], [], [], [], 0, 0, target, false, false)
  }

  /** One iteration of the batch loop: append the point, classify it, bump
      the counters and record the error after it. */
  function AddPoint(s: RunState, p: Sample): (r: RunState)
  {
    var inside := Inside(p.0, p.1);
    var count := if inside then s.pointsInside + 1 else s.pointsInside;
    var total := s.totalPoints + 1;
    s.(pointsX := s.pointsX + [p.0], pointsY := s.pointsY + [p.1],
       colors := s.colors + [inside],
       pointsInside := count, totalPoints := total,
       errorX := s.errorX + [total], errorY := s.errorY + [ErrorPercent(count, total)])
  }

  /** The batch loop run over the samples `ps`, in order. */
  function AddPoints(s: RunState, ps: seq<Sample>): (r: RunState)
  {
    if ps == [] then s else AddPoint(AddPoints(s, ps[..|ps| - 1]), ps[|ps| - 1])
  }

  /** `min(update_frequency, total_points_to_generate - total_points)`, as the
      iteration count of `range`, which runs no iteration for a negative bound. */
  function PointsToAdd(s: RunState): (r: nat)
  {
    var k := Min(UpdateFrequency, s.target - s.totalPoints);
    if k < 0 then 0 else k
  }

  /** The state after one call of `update`, given a batch's worth of samples. */
  function Tick(s: RunState, samples: seq<Sample>): (r: RunState)
    requires UpdateFrequency <= |samples|
  {
    if s.paused || s.finished then s
    else
      var added := AddPoints(s, samples[..PointsToAdd(s)]);
      if added.totalPoints >= added.target then added.(finished := true) else added
  }

  /** What `update` draws after a batch: the points split by their flags, the
      error curve, and (once there is a point) the statistics. */
  function Render(s: RunState): (r: Frame)
    requires |s.pointsX| == |s.colors| && |s.pointsY| == |s.colors|
  {
    var insideIndices := IndicesWhere(s.colors, true);
    var outsideIndices := IndicesWhere(s.colors, false);
    var stats :=
      if s.totalPoints > 0 then
        Some(Stats(s.totalPoints, s.target, s.pointsInside,
                   PiEstimate(s.pointsInside, s.totalPoints),
                   HitPercent(s.pointsInside, s.totalPoints),
                   ErrorPercent(s.pointsInside, s.totalPoints),
                   s.finished))
      else None;
    Frame(Pick(s.pointsX, insideIndices), Pick(s.pointsY, insideIndices),
          Pick(s.pointsX, outsideIndices), Pick(s.pointsY, outsideIndices),
          s.errorX, s.errorY, stats)
  }

  /** Adding one point keeps the lists consistent with the counters. */
  lemma AddPointConsistent(s: RunState, p: Sample)
    requires Consistent(s)
    ensures Consistent(AddPoint(s, p))
  {
  }

  /** Running the batch loop over `ps` appends exactly the coordinates and
      inside flags of `ps`, raises the total by `|ps|` and the inside counter
      by the number of samples inside the circle, only extends the error
      lists, and leaves the target and both flags alone. */
  lemma {:induction false} AddPointsEffect(s: RunState, ps: seq<Sample>)
    ensures var r := AddPoints(s, ps);
      && r.pointsX == s.pointsX + Xs(ps)
      && r.pointsY == s.pointsY + Ys(ps)
      && r.colors == s.colors + Flags(ps)
      && r.totalPoints == s.totalPoints + |ps|
      && r.pointsInside == s.pointsInside + CountTrue(Flags(ps))
      && s.errorX <= r.errorX && s.errorY <= r.errorY
      && r.target == s.target && r.finished == s.finished && r.paused == s.paused
  {
    if ps != [] {
      var n := |ps|;
      var front, last := ps[..n - 1], ps[n - 1];
      AddPointsEffect(s, front);
      var mid := AddPoints(s, front);
      assert Xs(ps) == Xs(front) + [last.0];
      assert Ys(ps) == Ys(front) + [last.1];
      assert Flags(ps) == Flags(front) + [Inside(last.0, last.1)];
      assert Flags(ps)[..n - 1] == Flags(front);
      assert mid.errorX <= mid.errorX + [mid.totalPoints + 1];
      assert mid.errorY <= AddPoint(mid, last).errorY;
    }
  }

  /** Running the batch loop keeps the lists consistent with the counters. */
  lemma {:induction false} AddPointsConsistent(s: RunState, ps: seq<Sample>)
    requires Consistent(s)
    ensures Consistent(AddPoints(s, ps))
  {
    if ps != [] {
      AddPointsConsistent(s, ps[..|ps| - 1]);
      AddPointConsistent(AddPoints(s, ps[..|ps| - 1]), ps[|ps| - 1]);
    }
  }

  /** A paused or finished run is left exactly as it was by a frame. */
  lemma TickIdle(s: RunState, samples: seq<Sample>)
    requires UpdateFrequency <= |samples|
    requires s.paused || s.finished
    ensures Tick(s, samples) == s
  {
  }

  /** A frame of a running (neither paused nor finished) run adds exactly
      `min(50, target - total)` points, at least one, namely the first ones of
      the batch; it sets `finished` exactly when the target is reached and
      keeps the invariant. */
  lemma TickAdvances(s: RunState, samples: seq<Sample>)
    requires Inv(s) && UpdateFrequency <= |samples|
    requires !s.paused && !s.finished
    ensures var r := Tick(s, samples);
      var n := Min(UpdateFrequency, s.target - s.totalPoints);
      && 1 <= n
      && Inv(r)
      && r.totalPoints == s.totalPoints + n
      && r.pointsX == s.pointsX + Xs(samples[..n])
      && r.pointsY == s.pointsY + Ys(samples[..n])
      && r.colors == s.colors + Flags(samples[..n])
      && r.pointsInside == s.pointsInside + CountTrue(Flags(samples[..n]))
      && (r.finished <==> r.totalPoints >= r.target)
      && r.paused == s.paused && r.target == s.target
  {
    AddPointsEffect(s, samples[..PointsToAdd(s)]);
    AddPointsConsistent(s, samples[..PointsToAdd(s)]);
  }

  /** Every frame keeps the invariant; the buffers only grow and the inside
      counter never decreases. */
  lemma TickPreservesInv(s: RunState, samples: seq<Sample>)
    requires Inv(s) && UpdateFrequency <= |samples|
    ensures var r := Tick(s, samples);
      && Inv(r)
      && s.pointsX <= r.pointsX && s.pointsY <= r.pointsY && s.colors <= r.colors
      && s.errorX <= r.errorX && s.errorY <= r.errorY
      && s.pointsInside <= r.pointsInside
      && r.target == s.target && r.paused == s.paused
  {
    if !s.paused && !s.finished {
      TickAdvances(s, samples);
      AddPointsEffect(s, samples[..PointsToAdd(s)]);
    }
  }

  /** From a reset to 100 points, two frames finish the run with 100 points
      and error labels 1..100, keeping the invariant and holding 100 error values. */
  lemma HundredPointsInTwoFrames(a: seq<Sample>, b: seq<Sample>)
    requires |a| == UpdateFrequency && |b| == UpdateFrequency
    ensures var r := Tick(Tick(Fresh(100), a), b);
      && r.totalPoints == 100 && r.finished
      && Inv(r)
      && r.errorX == Indices(100)
      && |r.errorY| == 100
  {
    var s0 := Fresh(100);
    TickAdvances(s0, a);
    var s1 := Tick(s0, a);
    TickAdvances(s1, b);
  }

  /** A frame whose state already meets or passes its target, which the
      invariant excludes, adds no point and only marks the run finished. Such
      a frame never assigns the loop-local error, so once there is a point
      the statistics text reads it unbound and `update` raises, after it has
      set `finished`. */
  lemma TickOvershotTarget(s: RunState, samples: seq<Sample>)
    requires UpdateFrequency <= |samples|
    requires !s.paused && !s.finished && 0 < s.target <= s.totalPoints
    ensures PointsToAdd(s) == 0 && !Inv(s)
    ensures Tick(s, samples) == s.(finished := true)
  {
    assert samples[..PointsToAdd(s)] == [];
  }

  /** What a redraw shows of a run that keeps the invariant: the inside and
      outside points are the order-preserving selections of the points by
      their flags, as many as the inside and outside counts, together holding
      every point; the statistics appear once there is a point and report an
      estimate within [0, 4], the error after the last point (the end of the
      error curve), and the undisplayed hit percentage within [0, 100]. */
  lemma RenderSpec(s: RunState)
    requires Inv(s)
    ensures var f := Render(s);
      && f.insideX == Filter(s.pointsX, s.colors, true)
      && f.insideY == Filter(s.pointsY, s.colors, true)
      && f.outsideX == Filter(s.pointsX, s.colors, false)
      && f.outsideY == Filter(s.pointsY, s.colors, false)
      && |f.insideX| == s.pointsInside
      && |f.insideX| + |f.outsideX| == s.totalPoints
      && multiset(f.insideX) + multiset(f.outsideX) == multiset(s.pointsX)
      && multiset(f.insideY) + multiset(f.outsideY) == multiset(s.pointsY)
      && f.errorX == Indices(s.totalPoints)
      && (f.stats.Some? <==> s.totalPoints > 0)
      && (f.stats.Some? ==>
            && 0.0 <= f.stats.value.piEstimate <= 4.0
            && 0.0 <= f.stats.value.hitPercent <= 100.0
            && f.stats.value.errorPercent == s.errorY[|s.errorY| - 1]
            && f.stats.value.complete == (s.totalPoints == s.target))
  {
    PickIndicesIsFilter(s.pointsX, s.colors, true);
    PickIndicesIsFilter(s.pointsY, s.colors, true);
    PickIndicesIsFilter(s.pointsX, s.colors, false);
    PickIndicesIsFilter(s.pointsY, s.colors, false);
    FilterLengths(s.pointsX, s.colors);
    FilterPartition(s.pointsX, s.colors);
    FilterPartition(s.pointsY, s.colors);
    if s.totalPoints > 0 {
      ErrorCurveAt(s.colors, |s.colors| - 1);
      assert s.colors[..|s.colors|] == s.colors;
    }
  }

  /** The animation's module state. */
  class Animation {
    var pointsInside: nat
    var totalPoints: nat
    var totalPointsToGenerate: nat
    var pointsX: seq<real>
    var pointsY: seq<real>
    var colors: seq<bool>
    var errorX: seq<int>
    var errorY: seq<real>
    var finished: bool
    var paused: bool

    ghost function State(): RunState
      reads this
    {
      RunState(pointsX, pointsY, colors, errorX, errorY,
               pointsInside, totalPoints, totalPointsToGenerate, finished, paused)
    }

    ghost predicate Valid()
      reads this
    {
      Inv(State())
    }

    /** The script's start-up: the target is the count the user entered. */
    constructor (count: nat)
      requires 0 < count
      ensures Valid() && State() == Fresh(count)
    {
      totalPointsToGenerate := count;
      pointsInside, totalPoints := 0, 0;
      pointsX, pointsY, colors := [], [], [];
      errorX, errorY := [], [];
      finished, paused := false, false;
    }

    /** The pause button: flips `paused` and nothing else. */
    method TogglePause()
      requires Valid()
      modifies this
      ensures Valid()
      ensures State() == old(State()).(paused := !old(paused))
    {
      paused := !paused;
    }

    /** The reset button: wipes every list and counter, clears both flags and
      installs the new positive target the user entered. */
    method Reset(count: nat)
      requires 0 < count
      modifies this
      ensures Valid() && State() == Fresh(count)
    {
      pointsInside := 0;
      totalPoints := 0;
      pointsX := [];
      pointsY := [];
      colors := [];
      errorX := [];
      errorY := [];
      finished := false;
      paused := false;
      totalPointsToGenerate := count;
    }

    /** The animation callback. A paused or finished run is returned untouched
      and nothing is redrawn. Otherwise one batch of points is drawn from
      `samples`, `finished` is set once the target is reached, and the frame
      to display is returned. */
    method Update(samples: seq<Sample>) returns (redraw: Option<Frame>)
      requires Valid() && UpdateFrequency <= |samples|
      modifies this
      ensures Valid()
      ensures State() == Tick(old(State()), samples)
      ensures old(paused || finished) ==> redraw == None && State() == old(State())
      ensures !old(paused || finished) ==> redraw == Some(Render(State()))
    {
      if paused || finished {
        return None;
      }
      ghost var s0 := State();
      var pointsToAdd := Min(UpdateFrequency, totalPointsToGenerate - totalPoints);
      assert pointsToAdd == PointsToAdd(s0);
      var errorPercent := AddBatch(samples[..pointsToAdd]);
      TickAdvances(s0, samples);
      if totalPoints >= totalPointsToGenerate {
        finished := true;
      }
      assert State() == Tick(s0, samples);
      var frame := Draw(errorPercent);
      redraw := Some(frame);
    }

    /** The batch loop of `update`: one point per sample, in order. The last
      error computed is returned; there is one as soon as the batch is not
      empty. */
    method AddBatch(batch: seq<Sample>) returns (errorPercent: Option<real>)
      modifies this
      ensures State() == AddPoints(old(State()), batch)
      ensures |batch| > 0 ==> errorPercent == Some(ErrorPercent(pointsInside, totalPoints))
    {
      ghost var s0 := State();
      errorPercent := None;
      var i := 0;
      while i < |batch|
        invariant 0 <= i <= |batch|
        invariant State() == AddPoints(s0, batch[..i])
        invariant i > 0 ==> errorPercent == Some(ErrorPercent(pointsInside, totalPoints))
      {
        var e := AddSample(batch[i]);
        errorPercent := Some(e);
        assert batch[..i + 1][..i] == batch[..i];
        i := i + 1;
      }
      assert batch[..i] == batch;
    }

    /** One iteration of the batch loop: the point is appended, classified
      as inside or outside the circle and counted, and the error after it is
      recorded and returned. */
    method AddSample(p: Sample) returns (errorPercent: real)
      modifies this
      ensures State() == AddPoint(old(State()), p)
      ensures errorPercent == ErrorPercent(pointsInside, totalPoints)
    {
      var (x, y) := p;
      pointsX := pointsX + [x];
      pointsY := pointsY + [y];
      if Inside(x, y) {
        pointsInside := pointsInside + 1;
        colors := colors + [true];
      } else {
        colors := colors + [false];
      }
      totalPoints := totalPoints + 1;
      if totalPoints > 0 {
        errorPercent := ErrorPercent(pointsInside, totalPoints);
        errorX := errorX + [totalPoints];
        errorY := errorY + [errorPercent];
      }
    }

    /** The redraw at the end of `update`: the points split by their flags,
      the error curve, and the statistics, whose error is `errorPercent`, the
      one the batch loop computed last. */
    method Draw(errorPercent: Option<real>) returns (frame: Frame)
      requires Valid()
      requires totalPoints > 0 ==> errorPercent == Some(ErrorPercent(pointsInside, totalPoints))
      ensures frame == Render(State())
    {
      var insideIndices := IndicesWhere(colors, true);
      var outsideIndices := IndicesWhere(colors, false);
      var insideX := Pick(pointsX, insideIndices);
      var insideY := Pick(pointsY, insideIndices);
      var outsideX := Pick(pointsX, outsideIndices);
      var outsideY := Pick(pointsY, outsideIndices);

      var stats: Option<Stats> := None;
      if totalPoints > 0 {
        var piEstimate := PiEstimate(pointsInside, totalPoints);
        var hitPercent := HitPercent(pointsInside, totalPoints);
        stats := Some(Stats(totalPoints, totalPointsToGenerate, pointsInside,
                            piEstimate, hitPercent, errorPercent.value, finished));
      }
      frame := Frame(insideX, insideY, outsideX, outsideY, errorX, errorY, stats);
    }
  }
}
