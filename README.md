# Trapezoidal-Rule in Dafny

A model of `main.py` from Trapezoidal-Rule, a small Tk program that
integrates a function with an adaptive trapezoid rule and draws the
trapezoids it uses. The model has two parts.

- **The adaptive integrator.** `integrate_adaptive_midpoint` splits
  `[xmin, xmax]` into `intervals` equal base slices. `slice_area` then
  refines each base slice. It compares one coarse trapezoid (`large`) with
  the two trapezoids over the halves (`both`). It accepts `both` when
  `|(both - large) / large| < max_error`, and otherwise recurses on the two
  halves. The App's drawing twin, `draw_trapezoids` and
  `draw_one_trapezoid`, repeats the refinement. It draws one polygon per
  accepted slice and counts the slices in `num_intervals`.
- **The world-to-device mapper** `DrawingCanvas`. `set_scales` derives the
  device box and the scales from the canvas size. `w_to_d` is the affine
  map. The `wdraw_*` helpers map world coordinates and emit one Tk
  primitive each. `wdraw_axes` walks the tick positions and `wdraw_function`
  walks the sample positions.

Modules:

- `PyReal` (pyreal.dfy): Python's `abs` and `int()` over exact reals. `int()`
  truncates toward zero.
- `Integrator` (integrator.dfy): `slice_area` as the function `SliceArea`.
  `Refine` lists the slices the refinement accepts and says how it ended.
  `integrate_adaptive_midpoint` is the method `Integrate`, proved against
  the function `Integral`. The file also holds the lemmas that relate them.
- `Drawing` (drawing.dfy): the Tk canvas as the class `TkCanvas`, an
  append-only list of the primitives created on it. `DrawingCanvas` is a
  class whose fields `set_scales` assigns. The tick and sample loops are
  methods proved against the functions `TickPositions`, `TickMarks` and
  `Samples`.
- `TrapezoidApp` (app.dfy): the drawing half of `App`. This is
  `draw_graph`, `draw_trapezoids` and `draw_one_trapezoid`. They are proved
  to draw, in order, exactly the polygons of the slices that `Refine`
  accepts, and to count exactly those slices.

Modelling choices:

- Floats are exact reals.
- The integrand is an abstract `f: real -> real`.
- Python's `ZeroDivisionError` is the fault `DivisionByZero`.
- The recursion of `slice_area` has no bound in the source. Here every
  refinement carries a `fuel` bound and stops with `DepthExceeded` when the
  fuel runs out. `SliceAreaFuelMonotone` shows that any other result does
  not depend on the bound.
- A fault propagates as in Python. The drawing methods return the slices
  they drew before it.

On the App's world range `[-1, 7]` with spacing 1, the tick loop starts
at `1 * int((-1 - 1) / 1) = -2` (main.py:59), so it also draws a tick at -2,
outside the range. `TicksOfAppWorld` states the whole list.

## Model

| member | source | states |
|---|---|---|
| PyReal.TruncBounds | main.py:59 | `int()` truncates toward zero: the result lies within one unit of its argument, on the side of zero |
| Integrator.Large | main.py:153 | the coarse estimate `large` is 0 on an empty slice, so the slice then raises; in the left-rectangle form of main.py:333 it is `(x2 - x1) * f(x1)` |
| Integrator.Both | main.py:154-156 | `first + second` is the two-panel trapezoid rule `(x2 - x1) * (f(x1) + 2*f(xm) + f(x2)) / 4` with xm the midpoint |
| Integrator.SliceArea | main.py:145-166 | `slice_area` returns a value only when the `large` of the whole slice is nonzero; what it returns is stated by SliceAreaIsSumOfLeaves |
| Integrator.Refine | main.py:145-166 | every slice the refinement accepts has a nonzero `large` and passes `abs((both - large) / large) < max_error` |
| Integrator.SliceAreaIsSumOfLeaves | main.py:145-166 | `slice_area` returns exactly the sum of `both` over the accepted slices, and raises exactly when the refinement stops, with the same error |
| Integrator.RefineTiles | main.py:149-166 | on a forward interval, the slices of a completed refinement tile `[x1, x2]`: the first starts at x1, the last ends at x2, each ends where the next starts, and each runs forward |
| Integrator.SliceAreaFuelMonotone | main.py:145-166 | a result that is not the depth fault stays the same under every larger depth bound |
| Integrator.RefineFuelMonotone | main.py:145-166 | a refinement that does not stop on the depth bound accepts the same slices and ends the same way under every larger bound |
| Integrator.RefineNonEmpty | main.py:162-166 | a completed refinement accepts at least one slice |
| Integrator.RelativeBound | main.py:159-162 | the acceptance test bounds `abs(both - large)` by `max_error * abs(large)` |
| Integrator.AcceptedSlice | main.py:153-163 | every accepted slice has `abs(both - large) < max_error * abs(large)` |
| Integrator.AcceptedErrorBound | main.py:153-166 | summed over the accepted slices, the estimate differs from the sum of the single trapezoids by less than `max_error` times their total magnitude |
| Integrator.AffineBothIsLarge | main.py:153-156 | for an affine integrand `a + b*x`, `first + second == large` exactly |
| Integrator.AffineAcceptedAtOnce | main.py:153-163 | for an affine integrand with `large != 0` and `max_error > 0`, `slice_area` returns `large` at the first level, accepting only the whole slice |
| Integrator.LeftRectangleDiverges | main.py:333 | for f(x) = 1 + x on [0, 1] with `max_error` 0.01, `slice_area` accepts the whole slice, while the coarse estimate `y1 + y1` of `draw_one_trapezoid` never yields that slice |
| Integrator.SumFromIsSumOfLeaves | main.py:135-140 | summing `slice_area` over base slices i..n-1, stopping at the first fault, is the sum of `both` over the slices their refinements accept |
| Integrator.Integral | main.py:128-142 | `intervals == 0` raises ZeroDivisionError at `dx = (xmax - xmin) / intervals`; a negative count runs no base slice and returns 0; otherwise the sum `SumFrom` over the base slices |
| Integrator.IntegralIsSumOfLeaves | main.py:128-142 | `integrate_adaptive_midpoint` returns the sum of `both` over all accepted slices of all base slices, and raises exactly when one of their refinements stops (`intervals == 0` raises at once) |
| Integrator.RefineFromTiles | main.py:134-140 | with dx > 0, the slices accepted from base slice i to base slice n-1 tile `[xmin + i*dx, xmin + n*dx]` when every refinement completes |
| Integrator.LastSliceEndsAtXmax | main.py:130-140 | in exact arithmetic the last base slice ends at xmax |
| Integrator.SliceRunTiles | main.py:128-140 | when every refinement completes, the accepted slices tile `[xmin, xmax]` exactly |
| Integrator.Integrate | main.py:128-142 | the loop that adds `slice_area` per base slice while advancing `x += dx` returns what `Integral` specifies, including the fault of the first slice that raises |
| Drawing.AffineProportional | main.py:41-42 | when the scale stretches the world range onto the device range, a mapped coordinate divides the device range in the same ratio as the world coordinate divides the world range |
| Drawing.ScaleMapsEnds | main.py:32-33 | with the scale of `set_scales`, the world bounds map exactly onto the device bounds |
| Drawing.ScaleOrientation | main.py:29-33 | a forward device range gives a positive scale that keeps order; a reversed (flipped) one gives a negative scale that reverses order |
| Drawing.OnePixel | main.py:36-37 | moving by `1 / scale` in world units moves the mapped coordinate by exactly one pixel |
| Drawing.StepsBelowExact | main.py:61-68 | the loop `while x < limit: x += step` visits exactly StepsBelow positions: each visited one is below the limit and the next is not |
| Drawing.BelowLimitIndex | main.py:61 | the k-th position is below the limit exactly when the loop visits it |
| Drawing.VisibleMembers | main.py:62 | the ticks kept are exactly the visited positions with `abs(x) > 0.01` |
| Drawing.TickLoopBounds | main.py:59-68 | the positions of the tick loop step by the spacing from the start; all but the last are below the limit, and the last is not |
| Drawing.TickStartBelow | main.py:59 | for a positive spacing, the first tick `spacing * int((wmin - spacing) / spacing)` lies strictly below wmin |
| Drawing.TickStartAbove | main.py:59 | the first tick lies less than two spacings below wmin, so at most the two multiples just under wmin are drawn below the range |
| Drawing.TickPositions | main.py:59-79 | when the first tick is at or past wmax, no tick is drawn; TickPositionsSound and TickPositionsComplete together say exactly which multiples are drawn |
| Drawing.ProgressionSound | main.py:59-68 | every position the tick loop visits lies between its start and the limit and is an integer multiple of the spacing |
| Drawing.TickPositionsSound | main.py:59-79 | every tick drawn lies between the first tick and wmax, is farther than 0.01 from the origin, and is a multiple of the spacing |
| Drawing.TickPositionsComplete | main.py:59-79 | every multiple of the spacing in `[TickStart, wmax)` farther than 0.01 from the origin is drawn, including those below wmin; with TickPositionsSound, a multiple is drawn if and only if it lies in that range and is visible |
| Drawing.TicksOfAppWorld | main.py:59-68 | on the App's range `[-1, 7]` with spacing 1, the ticks are exactly -2, -1, 1, 2, 3, 4, 5, 6 |
| Drawing.SampleWithin | main.py:104-107 | each position `wdraw_function` samples lies in `[wxmin, wxmax]` |
| Drawing.SampleBeyond | main.py:104-107 | the position after the last sample lies past wxmax |
| Drawing.SampleCount | main.py:103-107 | a range with `wxmin <= wxmax` gets at least one sample, wxmin itself |
| Drawing.Samples | main.py:104-107 | the points list holds two entries per sample |
| Drawing.SampleCountExact | main.py:103-107 | the loop `while x <= wxmax` samples exactly SampleCount positions, all in range, and the next one is out of range |
| Drawing.SamplesShape | main.py:105-106 | the points list holds exactly two entries per sample, the pair (x, f(x)) |
| Drawing.SamplesExact | main.py:102-107 | `wdraw_function` takes SampleCount samples, each in `[wxmin, wxmax]`, and pair k of its list is `(x_k, f(x_k))` with `x_k = wxmin + k*step_x` |
| Drawing.DeviceCoords | main.py:83-85 | the mapped list has the length of the world list, and its pair k is `w_to_d` of world pair k |
| Drawing.TickMarksAppend | main.py:62-67 | one more visible tick adds its mark and label after the marks drawn so far |
| Drawing.MarksUpToVisible | main.py:61-68 | visiting the positions one by one and skipping those near 0 draws exactly the marks of the visible ticks, in order |
| Drawing.TkCanvas.DeleteAll | main.py:46 | `delete(tk.ALL)` leaves the canvas empty |
| Drawing.TkCanvas.Create | main.py:52 | a `create_*` call appends exactly its item after those already on the canvas |
| Drawing.DrawingCanvas.constructor | main.py:9-18 | the constructor stores its arguments and leaves the state a successful `set_scales` leaves |
| Drawing.DrawingCanvas.SetScales | main.py:20-37 | sets the device box from the canvas size and margin (the y bounds swapped when flipped), then each scale and pixel size; it stops at the first division by zero and names it, and the scales are set exactly when none occurs |
| Drawing.DrawingCanvas.Clear | main.py:45-46 | the canvas is empty afterwards |
| Drawing.DrawingCanvas.WToD | main.py:39-43 | `w_to_d` maps each axis by `dmin + (w - wmin) * scale`; WToDProportional and MapsCorners state what that means |
| Drawing.DrawingCanvas.WToDProportional | main.py:39-43 | once the scales are set, the device point divides the device box in the same ratio as the world point divides the world box |
| Drawing.DrawingCanvas.MapsCorners | main.py:20-43 | `w_to_d(wxmin, wymin) == (dxmin, dymin)` and `w_to_d(wxmax, wymax) == (dxmax, dymax)` |
| Drawing.DrawingCanvas.YOrientation | main.py:26-33 | with a forward world y range and room for the margins, a flipped canvas has `yscale < 0` and draws a larger world y at a smaller device y; an unflipped one the opposite |
| Drawing.DrawingCanvas.PixelSize | main.py:35-43 | moving by `xpix` or `ypix` in world units moves the device point by exactly one pixel |
| Drawing.DrawingCanvas.DevicePoints | main.py:83-85 | the pairwise loop builds the mapped list of an even-length input, and reports an odd length, where the loop raises IndexError |
| Drawing.DrawingCanvas.WDrawLine | main.py:48-52 | exactly one line is appended, between the two mapped points, with the given colour and arrow |
| Drawing.DrawingCanvas.DrawTickMark | main.py:62-67 | the loop body at x: a tick farther than 0.01 from the origin appends its mark across the axis and, when asked, its label; a nearer one appends nothing |
| Drawing.DrawingCanvas.DrawTicks | main.py:60-68 | one tick loop appends the marks of exactly the visible positions below the limit, in order |
| Drawing.DrawingCanvas.WDrawTicks | main.py:59-68 | the tick loop along one axis appends the marks of exactly `TickPositions`, in order |
| Drawing.DrawingCanvas.WDrawAxes | main.py:54-79 | appends the two axis lines, then the marks at `TickPositions` along x, then along y, and nothing else |
| Drawing.DrawingCanvas.WDrawPolyline | main.py:81-86 | an even-length list appends exactly one line through the mapped points; an odd-length one appends nothing |
| Drawing.DrawingCanvas.WDrawPolygon | main.py:88-93 | an even-length list appends exactly one polygon through the mapped points; an odd-length one appends nothing |
| Drawing.DrawingCanvas.WDrawOval | main.py:115-119 | appends exactly one oval in the box of the two mapped corners |
| Drawing.DrawingCanvas.WDrawRectangle | main.py:121-125 | appends exactly one rectangle between the two mapped corners |
| Drawing.DrawingCanvas.WDrawFunction | main.py:100-108 | appends exactly one line through the mapped samples `(x, f(x))` for `x = wxmin, wxmin + step_x, ...` while `x <= wxmax` |
| TrapezoidApp.PolygonsAppend | main.py:350-351 | drawing two runs of slices one after the other draws their polygons one after the other |
| TrapezoidApp.TraceAppend | main.py:350-351 | the canvas after two runs of slices holds the polygons of the joined run |
| TrapezoidApp.PolygonPerSlice | main.py:342-347 | there is one polygon per accepted slice, and polygon i is the trapezoid `[x1, 0, x1, f(x1), x2, f(x2), x2, 0]` of slice i mapped by `w_to_d` |
| TrapezoidApp.RunAfter | main.py:318-323 | the refinement of base slice i adds its slices to those accepted so far, and ends the run if it stops |
| TrapezoidApp.App.PixelPositive | main.py:36 | on a canvas wider than one pixel, the App's `xpix` is positive, so the sampling loop of `draw_graph` ends |
| TrapezoidApp.App.constructor | main.py:235-239 | the App's world box is `[-1, 7] x [-1, 7]` on a canvas with no margin and y flipped, and the scales are set |
| TrapezoidApp.App.DrawSlice | main.py:344-345 | an accepted slice appends exactly its trapezoid polygon |
| TrapezoidApp.App.DrawOneTrapezoid | main.py:325-351 | draws and counts exactly the slices `Refine` accepts on `[x1, x2]`, in order, one polygon each, and ends as `Refine` ends |
| TrapezoidApp.App.DrawHalves | main.py:349-351 | the left half, then, unless it raised, the right half: the slices of both refinements joined |
| TrapezoidApp.App.DrawTrapezoids | main.py:311-323 | resets the count, then draws and counts exactly the slices that the refinement of every base slice accepts (`SliceRun`), stopping at the first fault; `intervals == 0` raises before drawing |
| TrapezoidApp.App.DrawBaseSlices | main.py:317-323 | the loop over base slices draws and counts exactly the slices of `RefineFrom`, stopping at the first fault |
| TrapezoidApp.App.DrawBaseSlice | main.py:319-320 | one pass of the loop: the slices of base slice i are added to the run so far |
| TrapezoidApp.App.DrawGraph | main.py:289-309 | the canvas holds exactly the polygons of the slices the refinement with the given coarse estimate accepts (`LeftRectangle` as written, `Trapezoid` corrected), and then the axes and the integrand; after a fault it holds the polygons drawn so far and nothing more; the count is the number of slices; with `Trapezoid` the slices' `both` values sum to the integral |
| TrapezoidApp.App.DrawDecorations | main.py:304-309 | appends the axes with unit ticks and the integrand sampled once per pixel over `[wxmin, wxmax]` |

## Left out

- The Tk user interface: the window, labels, entries, buttons, key bindings
  and `mainloop` (main.py:169-249). They are UI plumbing with no logic.
- `App.integrate` (main.py:250-279). It parses entry text with `float()`
  and `int()`, formats the numbers as text, and computes the percent error
  against the true area. That is text I/O over `Integral`, which is modelled.
- `App.f` and `App.anti_derivative_f` (main.py:281-287). They use
  `math.sin` and `math.cos`, which are transcendental floating-point
  functions. The integrand is an abstract parameter instead.
- IEEE-754 rounding. Floats are exact reals, so the drift of `x += dx`,
  `x += xtic_spacing` and `x += step_x` is not modelled. The loops visit
  `start + k*step` exactly.
- `canvas.update()`, `winfo_width` and `winfo_height`. The canvas size is a
  constructor input of `TkCanvas`. The `create_*` calls become entries of its
  trace, and Tk's own behaviour on them (such as rejecting an empty
  coordinate list) is not modelled.
- `wdraw_circle` (main.py:110-113). It reads the undefined names `dx` and
  `dy`, so every call raises NameError. Nothing else can be modelled of it.
- `wdraw_rotated_text` (main.py:95-98). It is a pass-through to Tk. The
  tick labels keep the tick's value; the text `str(x)` is not modelled.
- Integrator.SliceArea: the recursion is bounded by `fuel`. A run deeper
  than the bound gives `DepthExceeded` instead of Python's RecursionError.
  The same holds for Integrator.Refine and
  TrapezoidApp.App.DrawOneTrapezoid.
- Drawing.DrawingCanvas.constructor: requires nonzero world extents and a
  canvas size with a nonzero device extent. The source raises
  ZeroDivisionError inside `__init__` in those cases and no object exists;
  `SetScales` models those faults itself.
- Drawing.DrawingCanvas.WDrawAxes: requires positive tick spacings. A zero
  spacing raises ZeroDivisionError. A negative spacing never ends the loop
  once the first tick is below wmax. The calls with a negative spacing whose
  first tick is already at or past wmax draw only the axis lines; they are
  not modelled.
- Drawing.DrawingCanvas.WDrawFunction: requires `step_x > 0` or
  `wxmin > wxmax`. Otherwise the loop never ends.
- TrapezoidApp.App.constructor: requires a canvas that is not exactly one
  pixel wide or high. With no margin, only such a canvas gives a zero scale,
  and `set_scales` then raises in `1 / scale`. A canvas of width 0 gives a
  negative x scale. One of height 0 gives a positive y scale, so y is no
  longer flipped.
- TrapezoidApp.App.DrawGraph: requires a canvas wider than one pixel, so
  that `xpix` is positive and the sampling loop ends. It also takes the
  parsed numbers as parameters instead of reading the entries.

## Findings

| source | as written | input that shows it | evidently intended | confidence | as-written member | corrected member |
|---|---|---|---|---|---|---|
| main.py:333 | `draw_one_trapezoid` computes `large = (x2 - x1) * (y1 + y1) / 2`, a left rectangle, while `slice_area` uses `y1 + y2` (main.py:153) | f(x) = 1 + x on [0, 1] with `max_error` 0.01: `slice_area` accepts the whole slice, since `both == large == 1.5`, while `draw_one_trapezoid` gets `large == 1` and splits it | `large = (x2 - x1) * (y1 + y2) / 2`, so that the drawing shows the slices the integral sums | not executed | Integrator.LeftRectangleDiverges | TrapezoidApp.App.DrawGraph |
