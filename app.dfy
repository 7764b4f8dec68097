/**
 * main.py's App, the part that draws: `draw_trapezoids` splits [xmin, xmax]
 * into equal base slices and `draw_one_trapezoid` refines each one the way
 * `slice_area` does, drawing one polygon per accepted slice and counting
 * them in `num_intervals`; `draw_graph` clears the canvas and draws the
 * trapezoids, the axes and the integrand.
 *
 * The Tk window, its entries and the text they hold are not modelled: the
 * methods take the parsed numbers as parameters.
 */
module TrapezoidApp {
  import opened PyReal
  import opened Integrator
  import opened Drawing

  /** The world coordinates `[x1, 0, x1, y1, x2, y2, x2, 0]` of the polygon drawn for a slice. */
  function TrapezoidCoords(f: real -> real, s: Slice): (w: seq<real>)
    ensures |w| == 8
  {
    [s.x1, 0.0, s.x1, f(s.x1), s.x2, f(s.x2), s.x2, 0.0]
  }

  /** The polygons drawn for a list of accepted slices, one per slice, in order. */
  function Polygons(t: Transform, f: real -> real, ls: seq<Slice>, fill: string, outline: string): seq<Primitive> {
    if ls == [] then []
    else [Polygon(DeviceCoords(t, TrapezoidCoords(f, ls[0])), fill, outline)] + Polygons(t, f, ls[1..], fill, outline)
  }

  /** Drawing two runs of slices one after the other draws their polygons one after the other. */
  lemma {:induction false} PolygonsAppend(t: Transform, f: real -> real, a: seq<Slice>, b: seq<Slice>, fill: string, outline: string)
    ensures Polygons(t, f, a + b, fill, outline) == Polygons(t, f, a, fill, outline) + Polygons(t, f, b, fill, outline)
  {
    if a != [] {
      assert (a + b)[1..] == a[1..] + b;
      PolygonsAppend(t, f, a[1..], b, fill, outline);
    } else {
      assert a + b == b;
    }
  }

  /** What is on the canvas after drawing two runs of slices one after the other. */
  lemma TraceAppend(before: seq<Primitive>, t: Transform, f: real -> real, a: seq<Slice>, b: seq<Slice>, fill: string, outline: string)
    ensures before + Polygons(t, f, a, fill, outline) + Polygons(t, f, b, fill, outline) == before + Polygons(t, f, a + b, fill, outline)
  {
    PolygonsAppend(t, f, a, b, fill, outline);
  }

  /**
   * One base slice further: what the refinement of base slice i adds to the
   * slices accepted so far, and where the run stops if it stops there.
   */
  lemma RunAfter(total: Run, done: seq<Slice>, rule: Coarse, f: real -> real, xmin: real, dx: real, i: nat, n: nat, maxError: real, fuel: nat,
                 x: real, ls: seq<Slice>, s: Status)
    requires i < n && x == Nth(xmin, dx, i)
    requires total == Join(done, RefineFrom(rule, f, xmin, dx, i, n, maxError, fuel))
    requires Refine(rule, f, x, x + dx, maxError, fuel) == Run(ls, s)
    ensures s.Stopped? ==> total == Run(done + ls, s)
    ensures !s.Stopped? ==> total == Join(done + ls, RefineFrom(rule, f, xmin, dx, i + 1, n, maxError, fuel))
  {
    var rest := RefineFrom(rule, f, xmin, dx, i + 1, n, maxError, fuel);
    assert done + (ls + rest.leaves) == done + ls + rest.leaves;
  }

  /** Appending four pieces one after the other appends their concatenation. */
  lemma AppendFour<T>(before: seq<T>, a: seq<T>, b: seq<T>, c: seq<T>, d: seq<T>)
    ensures before + a + b + c + d == before + (a + b + c + d)
  {
  }

  /**
   * There is exactly one polygon per slice, and the i-th is the trapezoid
   * under f over the i-th slice, its four corners mapped by w_to_d.
   */
  lemma {:induction false} PolygonPerSlice(t: Transform, f: real -> real, ls: seq<Slice>, fill: string, outline: string)
    ensures |Polygons(t, f, ls, fill, outline)| == |ls|
    ensures forall i :: 0 <= i < |ls| ==> Polygons(t, f, ls, fill, outline)[i] == Polygon(DeviceCoords(t, TrapezoidCoords(f, ls[i])), fill, outline)
  {
    if ls != [] {
      PolygonPerSlice(t, f, ls[1..], fill, outline);
    }
  }

  class App {
    const wxmin: real
    const wymin: real
    const wxmax: real
    const wymax: real
    const drawing: DrawingCanvas
    var numIntervals: int

    /** What `__init__` sets up: the world box [-1, 7] x [-1, 7] on the canvas, no margin, y pointing up. */
    ghost predicate Valid()
      reads this, drawing
    {
      && wxmin == -1.0 && wymin == -1.0 && wxmax == 7.0 && wymax == 7.0
      && SharesWorld()
      && drawing.dmargin == 0.0 && drawing.yIsFlipped
      && drawing.Scaled()
    }

    /** The drawing canvas maps the app's own world box. */
    ghost predicate SharesWorld()
      reads this, drawing
    {
      drawing.wxmin == wxmin && drawing.wymin == wymin && drawing.wxmax == wxmax && drawing.wymax == wymax
    }

    /**
     * On a canvas wider than one pixel, one pixel is a positive step in world
     * units, so the sampling loop of wdraw_function moves right.
     */
    lemma PixelPositive()
      requires Valid() && drawing.canvas.width > 1
      ensures drawing.xpix > 0.0
    {
      var w := drawing.canvas.width as real - 1.0;
      assert w > 0.0;
      assert drawing.xscale == w / 8.0;
    }

    /**
     * The drawing part of `__init__`. A canvas one pixel wide or high makes a
     * scale zero, and set_scales then raises in `1 / scale`.
     */
    constructor (canvas: TkCanvas)
      requires canvas.width != 1 && canvas.height != 1
      ensures drawing.canvas == canvas
      ensures Valid()
    {
      wxmin := -1.0;
      wymin := -1.0;
      wxmax := 7.0;
      wymax := 7.0;
      drawing := new DrawingCanvas(canvas, -1.0, -1.0, 7.0, 7.0, 0.0, true);
    }

    /** The polygon `wdraw_polygon` draws for an accepted slice. */
    method DrawSlice(f: real -> real, x1: real, x2: real, fill: string, outline: string)
      modifies drawing.canvas
      ensures drawing.canvas.items == old(drawing.canvas.items) + Polygons(drawing.Map(), f, [Slice(x1, x2)], fill, outline)
    {
      var y1 := f(x1);
      var y2 := f(x2);
      assert TrapezoidCoords(f, Slice(x1, x2)) == [x1, 0.0, x1, y1, x2, y2, x2, 0.0];
      var drawn := drawing.WDrawPolygon([x1, 0.0, x1, y1, x2, y2, x2, 0.0], fill, outline);
    }

    /**
     * draw_one_trapezoid: the coarse estimate of the slice is compared with the
     * two midpoint trapezoids; an accepted slice draws its polygon and counts
     * one interval, any other slice is split at its midpoint. It draws and
     * counts exactly the slices the refinement accepts, in order, and ends as
     * the refinement does.
     */
    method DrawOneTrapezoid(rule: Coarse, f: real -> real, x1: real, x2: real, maxError: real, fill: string, outline: string, fuel: nat)
      returns (status: Status, ghost leaves: seq<Slice>)
      modifies this, drawing.canvas
      ensures Refine(rule, f, x1, x2, maxError, fuel) == Run(leaves, status)
      ensures numIntervals == old(numIntervals) + |leaves|
      ensures drawing.canvas.items == old(drawing.canvas.items) + Polygons(drawing.Map(), f, leaves, fill, outline)
      decreases fuel, 1
    {
      if fuel == 0 {
        status, leaves := Stopped(DepthExceeded), [];
      } else {
        var y1 := f(x1);
        var y2 := f(x2);
        var xm := (x1 + x2) / 2.0;
        var ym := f(xm);
        var large := if rule == Trapezoid then (x2 - x1) * (y1 + y2) / 2.0 else (x2 - x1) * (y1 + y1) / 2.0;
        var first := (xm - x1) * (ym + y1) / 2.0;
        var second := (x2 - xm) * (y2 + ym) / 2.0;
        var both := first + second;
        assert large == Large(rule, f, x1, x2) && both == Both(f, x1, x2);
        if large == 0.0 {
          status, leaves := Stopped(DivisionByZero), [];
        } else if Abs((both - large) / large) < maxError {
          assert Refine(rule, f, x1, x2, maxError, fuel) == Run([Slice(x1, x2)], Completed);
          DrawSlice(f, x1, x2, fill, outline);
          numIntervals := numIntervals + 1;
          status, leaves := Completed, [Slice(x1, x2)];
        } else {
          assert !Accepts(rule, f, x1, x2, maxError);
          status, leaves := DrawHalves(rule, f, x1, x2, maxError, fill, outline, fuel);
        }
      }
    }

    /**
     * The split of draw_one_trapezoid: the left half, then, unless that
     * raised, the right half.
     */
    method DrawHalves(rule: Coarse, f: real -> real, x1: real, x2: real, maxError: real, fill: string, outline: string, fuel: nat)
      returns (status: Status, ghost leaves: seq<Slice>)
      requires fuel > 0
      modifies this, drawing.canvas
      ensures var left := Refine(rule, f, x1, Mid(x1, x2), maxError, fuel - 1);
        Run(leaves, status) == if left.status.Stopped? then left else Join(left.leaves, Refine(rule, f, Mid(x1, x2), x2, maxError, fuel - 1))
      ensures numIntervals == old(numIntervals) + |leaves|
      ensures drawing.canvas.items == old(drawing.canvas.items) + Polygons(drawing.Map(), f, leaves, fill, outline)
      decreases fuel, 0
    {
      var xm := Mid(x1, x2);
      ghost var t := drawing.Map();
      ghost var before := drawing.canvas.items;
      ghost var left, right;
      status, left := DrawOneTrapezoid(rule, f, x1, xm, maxError, fill, outline, fuel - 1);
      if status.Stopped? {
        leaves := left;
      } else {
        status, right := DrawOneTrapezoid(rule, f, xm, x2, maxError, fill, outline, fuel - 1);
        leaves := left + right;
        TraceAppend(before, t, f, left, right, fill, outline);
      }
    }

    /**
     * draw_trapezoids: resets the count, then draws the base slices
     * `[xmin + i*dx, xmin + (i+1)*dx]` one after the other, the way
     * integrate_adaptive_midpoint sums them. It draws and counts exactly the
     * slices of the refinement of all base slices, and stops at the first
     * slice that raises; `intervals == 0` raises before anything is drawn.
     */
    method DrawTrapezoids(rule: Coarse, f: real -> real, xmin: real, xmax: real, intervals: int, maxError: real, fill: string, outline: string, fuel: nat)
      returns (status: Status, ghost leaves: seq<Slice>)
      modifies this, drawing.canvas
      ensures SliceRun(rule, f, xmin, xmax, intervals, maxError, fuel) == Run(leaves, status)
      ensures numIntervals == |leaves|
      ensures drawing.canvas.items == old(drawing.canvas.items) + Polygons(drawing.Map(), f, leaves, fill, outline)
    {
      numIntervals := 0;
      if intervals == 0 {
        leaves := [];
        assert drawing.canvas.items + Polygons(drawing.Map(), f, leaves, fill, outline) == drawing.canvas.items;
        status := Stopped(DivisionByZero);
      } else {
        var dx := (xmax - xmin) / intervals as real;
        status, leaves := DrawBaseSlices(rule, f, xmin, dx, BaseSlices(intervals), maxError, fill, outline, fuel);
      }
    }

    /**
     * The loop of draw_trapezoids over the base slices of width `dx`, with
     * `x += dx` advancing the left end: each base slice is refined and drawn,
     * and the first one that raises ends the loop.
     */
    method DrawBaseSlices(rule: Coarse, f: real -> real, xmin: real, dx: real, n: nat, maxError: real, fill: string, outline: string, fuel: nat)
      returns (status: Status, ghost leaves: seq<Slice>)
      modifies this, drawing.canvas
      ensures RefineFrom(rule, f, xmin, dx, 0, n, maxError, fuel) == Run(leaves, status)
      ensures numIntervals == old(numIntervals) + |leaves|
      ensures drawing.canvas.items == old(drawing.canvas.items) + Polygons(drawing.Map(), f, leaves, fill, outline)
    {
      ghost var t := drawing.Map();
      ghost var before := drawing.canvas.items;
      ghost var total := RefineFrom(rule, f, xmin, dx, 0, n, maxError, fuel);
      leaves := [];
      assert total == Join(leaves, total);
      var x := xmin;
      for i := 0 to n
        invariant x == Nth(xmin, dx, i)
        invariant total == Join(leaves, RefineFrom(rule, f, xmin, dx, i, n, maxError, fuel))
        invariant numIntervals == old(numIntervals) + |leaves|
        invariant drawing.canvas.items == before + Polygons(t, f, leaves, fill, outline)
      {
        var s;
        ghost var ls;
        s, ls := DrawBaseSlice(rule, f, xmin, dx, i, n, x, maxError, fill, outline, fuel, total, leaves);
        TraceAppend(before, t, f, leaves, ls, fill, outline);
        if s.Stopped? {
          return s, leaves + ls;
        }
        leaves := leaves + ls;
        NthNext(xmin, dx, i);
        x := x + dx;
      }
      assert leaves + [] == leaves;
      status := Completed;
    }

    /** One pass of the loop of draw_trapezoids: base slice i, from x to x + dx, refined and drawn. */
    method DrawBaseSlice(rule: Coarse, f: real -> real, xmin: real, dx: real, i: nat, n: nat, x: real, maxError: real, fill: string, outline: string, fuel: nat,
                         ghost total: Run, ghost done: seq<Slice>)
      returns (status: Status, ghost leaves: seq<Slice>)
      requires i < n && x == Nth(xmin, dx, i)
      requires total == Join(done, RefineFrom(rule, f, xmin, dx, i, n, maxError, fuel))
      modifies this, drawing.canvas
      ensures status.Stopped? ==> total == Run(done + leaves, status)
      ensures !status.Stopped? ==> total == Join(done + leaves, RefineFrom(rule, f, xmin, dx, i + 1, n, maxError, fuel))
      ensures numIntervals == old(numIntervals) + |leaves|
      ensures drawing.canvas.items == old(drawing.canvas.items) + Polygons(drawing.Map(), f, leaves, fill, outline)
    {
      status, leaves := DrawOneTrapezoid(rule, f, x, x + dx, maxError, fill, outline, fuel);
      RunAfter(total, done, rule, f, xmin, dx, i, n, maxError, fuel, x, leaves, status);
    }

    /**
     * draw_graph with the entries already parsed: clears the canvas, draws the
     * trapezoids, then the axes with unit ticks and the integrand sampled once
     * per pixel. A fault in the trapezoids propagates before the axes are
     * drawn. The coarse estimate is a parameter: `LeftRectangle` is the code
     * as written (main.py:333 reads `y1 + y1`), and only with the corrected
     * `Trapezoid` (see Findings in README.md) are the trapezoids the slices
     * integrate_adaptive_midpoint sums.
     */
    method DrawGraph(rule: Coarse, f: real -> real, xmin: real, xmax: real, intervals: int, maxError: real, fuel: nat)
      returns (status: Status, ghost leaves: seq<Slice>)
      requires Valid() && drawing.canvas.width > 1
      modifies this, drawing.canvas
      ensures Valid()
      ensures SliceRun(rule, f, xmin, xmax, intervals, maxError, fuel) == Run(leaves, status)
      ensures rule == Trapezoid && status == Completed ==> Integral(f, xmin, xmax, intervals, maxError, fuel) == Done(SumBoth(f, leaves))
      ensures numIntervals == |leaves|
      ensures drawing.canvas.items == Polygons(drawing.Map(), f, leaves, "lightblue", "blue") + Decorations(f, status)
    {
      drawing.Clear();
      status, leaves := DrawTrapezoids(rule, f, xmin, xmax, intervals, maxError, "lightblue", "blue", fuel);
      IntegralIsSumOfLeaves(f, xmin, xmax, intervals, maxError, fuel);
      PixelPositive();
      ghost var trapezoids := Polygons(drawing.Map(), f, leaves, "lightblue", "blue");
      assert drawing.canvas.items == [] + trapezoids == trapezoids;
      if status.Stopped? {
        assert Decorations(f, status) == [];
        assert trapezoids + [] == trapezoids;
      } else {
        assert status == Completed;
        DrawDecorations(f);
      }
    }

    /** The second half of draw_graph: the axes with unit ticks, then the integrand sampled once per pixel. */
    method DrawDecorations(f: real -> real)
      requires SharesWorld() && drawing.xpix > 0.0
      modifies drawing.canvas
      ensures drawing.canvas.items == old(drawing.canvas.items) + Decorations(f, Completed)
    {
      ghost var before := drawing.canvas.items;
      ghost var m := drawing.Map();
      ghost var axes := drawing.AxisLines("red");
      ghost var xTicks := TickMarks(m, XAxis, TickPositions(wxmin, wxmax, 1.0), 0.1, true, "red");
      ghost var yTicks := TickMarks(m, YAxis, TickPositions(wymin, wymax, 1.0), 0.1, true, "red");
      ghost var graph := [Line(DeviceCoords(m, Samples(f, wxmin, drawing.xpix, SampleCount(wxmin, wxmax, drawing.xpix))), "green", NoArrow)];
      assert Decorations(f, Completed) == axes + xTicks + yTicks + graph;
      drawing.WDrawAxes(1.0, 1.0, 0.1, 0.1, true, "red");
      assert drawing.canvas.items == before + axes + xTicks + yTicks;
      drawing.WDrawFunction(f, "green", wxmin, wxmax, drawing.xpix);
      assert drawing.canvas.items == before + axes + xTicks + yTicks + graph;
      AppendFour(before, axes, xTicks, yTicks, graph);
    }

    /** What draw_graph draws after the trapezoids: nothing after a fault, else the axes and the integrand. */
    ghost function Decorations(f: real -> real, status: Status): seq<Primitive>
      reads this, drawing
      requires drawing.xpix > 0.0
    {
      if status.Stopped? then []
      else
        var m := drawing.Map();
        drawing.AxisLines("red")
          + TickMarks(m, XAxis, TickPositions(wxmin, wxmax, 1.0), 0.1, true, "red")
          + TickMarks(m, YAxis, TickPositions(wymin, wymax, 1.0), 0.1, true, "red")
          + [Line(DeviceCoords(m, Samples(f, wxmin, drawing.xpix, SampleCount(wxmin, wxmax, drawing.xpix))), "green", NoArrow)]
    }
  }
}
