# Monte Carlo estimation of pi: the animation's state machine

The script `monteCarlo.py` estimates pi by drawing random points in the
square [-1, 1) × [-1, 1) and counting how many fall in the unit circle. An
animation timer calls `update` once per frame. While the run is neither
paused nor finished, each frame adds up to 50 points, classifies each as
inside or outside the circle, updates the counters and the error curve, and
marks the run finished once the requested number of points is reached. It
then redraws the inside and outside points, the error curve and a statistics
text. A pause button flips the `paused` flag. A reset button wipes the run
and asks for a new positive point count.

This project models that state machine in Dafny:

- `estimate.dfy` (module `Estimate`): the inside test `x*x + y*y <= 1`, the
  estimate `4 * inside / total`, the hit percentage and the relative error
  against `np.pi`. All of them use exact reals.
- `partition.dfy` (module `Partition`): counting the inside flags and the
  list comprehensions that split the points into inside and outside points.
  These are proved equal to an order-preserving filter that together covers
  every point.
- `monte_carlo.dfy` (module `MonteCarlo`):
  - the globals as the class `Animation`, with its methods `Update`,
    `TogglePause` and `Reset`;
  - beside it, the pure specification: `RunState`, one loop iteration
    `AddPoint`, the batch loop `AddPoints`, one frame `Tick` and the redraw
    `Render`;
  - the run invariant `Inv` and the lemmas about all of these.

  `Update` is proved to leave the object in the state `Tick` gives.

The random source is a parameter. `Update` takes a sequence of samples, each
a pair of reals in [-1, 1), as `np.random.uniform(-1, 1)` returns. It uses
the first `min(50, target - total)` of them, in order.

The loop-local `error_percent` that the statistics text reads at
monteCarlo.py:188 is modelled as an `Option<real>` that starts as `None`. The
batch loop `AddBatch` assigns it. `Draw` reads it with `.value`, which Dafny
accepts only when it is provably set.

The proof runs as follows:
- a frame that gets past the pause/finish guard starts from a state where the
  total is below the target;
- so it adds at least one point;
- so the variable is always bound.

One might expect that line to read a stale or unbound value when a batch adds
no points. Provided no frame runs while `reset` waits for input, the code
never reaches that case: a finished run returns at line 134 before the loop.
Such a frame would see the wiped lists together with the old target. If the
new count is then at most the number of points that frame drew, the next frame
starts at or above its target and adds no point. `TickOvershotTarget` states
that case: no point is added and the run is only marked finished. In the
source that frame then sets `finished` at line 165 and, since there are
points, reads the never-assigned local `error_percent` at line 188 and raises
`UnboundLocalError`. The invariant `Inv` excludes such a state.

## Model

| member | source | states |
|---|---|---|
| `Estimate.PiEstimate` | monteCarlo.py:183 | The estimate `4 * inside / total` is never negative and is at most 4 when inside <= total. It equals 4 exactly when every point is inside and 0 exactly when none is. |
| `Estimate.HitPercent` | monteCarlo.py:184 | The hit percentage is never negative and is at most 100 when inside <= total. It is always 25 times the estimate of pi. |
| `Estimate.ErrorPercent` | monteCarlo.py:157-158 | The relative error against `np.pi` is never negative. It is zero exactly when the estimate equals `np.pi`. |
| `Partition.CountTrue` | monteCarlo.py:147-151 | The number of inside flags never exceeds the number of points. |
| `Partition.IndicesWhere` | monteCarlo.py:168-169 | Every index the comprehension selects is a valid position whose flag has the selected value. |
| `Partition.IndicesWhereSpec` | monteCarlo.py:168-169 | The selected indices are strictly increasing, so the order of the points is kept. Every position with the selected flag is selected. |
| `Partition.IndicesWhereCount` | monteCarlo.py:168-169 | There are as many inside indices as inside flags. The inside and outside index lists together are as long as the flag list. |
| `Partition.PickIndicesIsFilter` | monteCarlo.py:171-175 | `[points_x[i] for i in inside_indices]` (and the same for y and for the outside points) equals the order-preserving filter of the points by their flag. |
| `Partition.FilterLengths` | monteCarlo.py:168-175 | The inside selection has as many elements as there are true flags, and the outside selection has the rest. |
| `Partition.FilterPartition` | monteCarlo.py:168-175 | Together, the inside and outside selections hold every point exactly once, as multisets. |
| `MonteCarlo.Indices` | monteCarlo.py:153-160 | The error-curve labels after n points are exactly 1, 2, ..., n. |
| `MonteCarlo.ErrorCurveAt` | monteCarlo.py:155-161 | Entry k of the error curve is the error of the estimate after the first k + 1 points. |
| `MonteCarlo.Fresh` | monteCarlo.py:96-116 | The state that reset installs, with a positive target, satisfies the run invariant. |
| `MonteCarlo.AddPointConsistent` | monteCarlo.py:140-161 | One loop iteration keeps the lists agreeing with the counters: equal lengths, each flag the inside test of its point, the inside counter equal to the number of true flags, labels 1..n, and the error curve. |
| `MonteCarlo.AddPointsEffect` | monteCarlo.py:140-153 | The batch loop appends exactly the samples' coordinates and inside flags. It raises the total by the batch length and the inside counter by the number of samples inside the circle. It only extends the error lists and leaves the target and both flags unchanged. |
| `MonteCarlo.AddPointsConsistent` | monteCarlo.py:140-161 | The whole batch loop keeps the lists agreeing with the counters. |
| `MonteCarlo.TickIdle` | monteCarlo.py:134-135 | A frame of a paused or finished run changes nothing. |
| `MonteCarlo.TickAdvances` | monteCarlo.py:138-165 | A frame of a running run adds exactly `min(50, target - total)` points, and that number is at least 1. They are the first samples of the batch, each flagged inside iff `x*x + y*y <= 1`. The inside counter grows by the number of those inside. `finished` is set iff total >= target. The invariant holds afterwards. |
| `MonteCarlo.TickPreservesInv` | monteCarlo.py:131-165 | Every frame keeps the invariant: consistent lists, 0 < target, total <= target, and finished iff total == target. All five buffers only grow, and the inside counter never decreases. |
| `MonteCarlo.HundredPointsInTwoFrames` | monteCarlo.py:138-165 | After a reset to 100 points, two frames finish the run with 100 points, error labels 1..100 and 100 error values. The invariant holds. |
| `MonteCarlo.TickOvershotTarget` | monteCarlo.py:138-165 | A frame that starts at or above its target (a state `Inv` excludes) adds no point and only sets `finished`. |
| `MonteCarlo.RenderSpec` | monteCarlo.py:167-191 | In a redraw of a valid run: the inside and outside points are the order-preserving selections by flag; their counts are the inside and outside counts; and together they hold every point. The statistics appear iff there is a point, with an estimate in [0, 4], the error equal to the last entry of the error curve, and the completion flag iff total == target. They also carry the hit percentage that line 184 computes but never displays, which lies in [0, 100]. |
| `MonteCarlo.Animation.constructor` | monteCarlo.py:57-69 | The script starts from the fresh state for the positive count entered, and the invariant holds. |
| `MonteCarlo.Animation.TogglePause` | monteCarlo.py:91-94 | Flips `paused` and changes nothing else. The invariant is kept. |
| `MonteCarlo.Animation.Reset` | monteCarlo.py:96-119 | Every list is emptied, both counters are set to 0, `finished` and `paused` are cleared, and the new positive target is installed. The invariant holds. |
| `MonteCarlo.Animation.Update` | monteCarlo.py:131-195 | The new state is `Tick` of the old one, so a paused or finished run is unchanged and nothing is redrawn. Otherwise the returned frame is `Render` of the new state. The invariant is kept. |
| `MonteCarlo.Animation.AddBatch` | monteCarlo.py:140-161 | The loop leaves the state that `AddPoints` specifies. For a non-empty batch, the loop-local error is set and equals the error after the last point. |
| `MonteCarlo.Animation.AddSample` | monteCarlo.py:141-161 | One iteration appends and classifies the point and increments the counters. It appends the label and the error, and returns that error. The guard at line 156 always holds after the increment at line 153. |
| `MonteCarlo.Animation.Draw` | monteCarlo.py:167-193 | The frame built from the comprehensions and the statistics is `Render` of the current state. The statistics' error is the loop-local value, which is provably set whenever there is a point. |

## Left out

- All matplotlib work is left out, because it is presentation: the figure, axes and patches (lines 1-43, 71-89), `init` (124-129), the `set_data`/`set_text` calls, `draw_idle`, the button widgets and the pause button's label text (94, 107). The model returns what would be drawn as a `Frame` value instead.
- `FuncAnimation` (198-203) leaves the timer scheduling out. Each frame is one call of `Update`, and the `frame` argument, which the callback ignores, is dropped.
- The `input()` loop of `get_point_count` (45-54) is I/O and is left out. Only its guarantee that the count is positive is kept, as the precondition of `Reset` and of the constructor.
- `np.random.uniform` is a foreign random source and is left out. The samples are a parameter of `Update`, which requires at least one batch's worth (50) of them.
- Floating point is left out: coordinates, the estimate and the errors are exact reals. `np.pi` is the real constant 3.141592653589793, the decimal it prints as. Rounding and the f-string formatting of the statistics (185-191) are not modelled, and `Stats` carries the values that the text shows, plus the hit percentage that line 184 computes and never displays.
- The `1.1` axis scaling (72, 117) is display only and is left out.
- MonteCarlo.Animation.Reset: reset is modelled as one atomic step. In the source it is three stages: it wipes the state (98-106) while the old target stays installed, waits in `input()` (116), and only then installs the new target. Animation frames that the GUI event loop may run while the prompt waits are not modelled. Such frames can produce a state whose total exceeds the new target (see `TickOvershotTarget`).
- The static end-of-run variant of the estimator is not part of this model.
