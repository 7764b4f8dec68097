/**
 * main.py's DrawingCanvas: an affine map from a world box to the pixels of a
 * Tk canvas, and drawing helpers that take world coordinates, map them with
 * `w_to_d` and emit one Tk primitive each.
 *
 * The Tk canvas is modelled by its size and the list of primitives created on
 * it, in order.
 */
module Drawing {
  import opened PyReal

  datatype Point = Point(x: real, y: real)

  /** Tk's `arrow` option of create_line. */
  datatype Arrow = NoArrow | ArrowFirst | ArrowLast | ArrowBoth

  /** Tk's `anchor` option of create_text, as the tick labels use it. */
  datatype Anchor = North | East

  /** One create_* call on the Tk canvas, with the device coordinates passed to it. */
  datatype Primitive =
    | Line(coords: seq<real>, color: string, arrow: Arrow)
    | Polygon(coords: seq<real>, fill: string, outline: string)
    | Oval(coords: seq<real>, fill: string, outline: string)
    | Rectangle(coords: seq<real>, fill: string, outline: string)
    | Label(x: real, y: real, value: real, color: string, anchor: Anchor)

  /** How set_scales ends: scales set, or the ZeroDivisionError it raises and at which division. */
  datatype ScaleStatus = ScalesSet | ZeroWorldWidth | ZeroWorldHeight | ZeroDeviceWidth | ZeroDeviceHeight

  /** The two axes whose ticks wdraw_axes draws. */
  datatype Axis = XAxis | YAxis

  /** The Tk canvas: its size as winfo_width/winfo_height report it, and the primitives created on it so far. */
  class TkCanvas {
    const width: int
    const height: int
    var items: seq<Primitive>

    constructor (width: int, height: int)
      ensures this.width == width && this.height == height && items == []
    {
      this.width := width;
      this.height := height;
      items := [];
    }

    /** One create_* call: the primitive is appended and nothing else changes. */
    method Create(p: Primitive)
      modifies this
      ensures items == old(items) + [p]
    {
      items := items + [p];
    }

    /** `delete(tk.ALL)`: every primitive is removed. */
    method DeleteAll()
      modifies this
      ensures items == []
    {
      items := [];
    }
  }

  // ---------------------------------------------------------------------------
  // One axis of the affine map

  /** One axis of w_to_d: `(w - wmin) * scale + dmin`. */
  function Affine(w: real, wmin: real, scale: real, dmin: real): real {
    (w - wmin) * scale + dmin
  }

  /** One axis of set_scales: the device extent over the world extent. */
  function Scale(dmin: real, dmax: real, wmin: real, wmax: real): real
    requires wmax != wmin
  {
    (dmax - dmin) / (wmax - wmin)
  }

  /**
   * With a scale that stretches [wmin, wmax] onto [dmin, dmax], a world
   * coordinate divides the device range in the same ratio as the world range.
   */
  lemma AffineProportional(w: real, wmin: real, wmax: real, scale: real, dmin: real, dmax: real)
    ensures scale * (wmax - wmin) == dmax - dmin ==>
      (Affine(w, wmin, scale, dmin) - dmin) * (wmax - wmin) == (w - wmin) * (dmax - dmin)
  {
    if scale * (wmax - wmin) == dmax - dmin {
      calc {
        (Affine(w, wmin, scale, dmin) - dmin) * (wmax - wmin);
        (w - wmin) * scale * (wmax - wmin);
        { assert (w - wmin) * scale * (wmax - wmin) == (w - wmin) * (scale * (wmax - wmin)); }
        (w - wmin) * (dmax - dmin);
      }
    }
  }

  /** The scale set_scales computes maps the world bounds onto the device bounds. */
  lemma ScaleMapsEnds(wmin: real, wmax: real, dmin: real, dmax: real)
    requires wmin != wmax
    ensures Affine(wmin, wmin, Scale(dmin, dmax, wmin, wmax), dmin) == dmin
    ensures Affine(wmax, wmin, Scale(dmin, dmax, wmin, wmax), dmin) == dmax
  {
    var s := Scale(dmin, dmax, wmin, wmax);
    assert s * (wmax - wmin) == dmax - dmin;
  }

  /**
   * A forward world range mapped onto a forward device range keeps the order
   * of coordinates; mapped onto a reversed one (a flipped axis) it reverses it.
   */
  lemma ScaleOrientation(w1: real, w2: real, wmin: real, wmax: real, dmin: real, dmax: real)
    requires wmin < wmax && w1 < w2
    ensures dmin < dmax ==> (Scale(dmin, dmax, wmin, wmax) > 0.0 &&
      Affine(w1, wmin, Scale(dmin, dmax, wmin, wmax), dmin) < Affine(w2, wmin, Scale(dmin, dmax, wmin, wmax), dmin))
    ensures dmax < dmin ==> (Scale(dmin, dmax, wmin, wmax) < 0.0 &&
      Affine(w1, wmin, Scale(dmin, dmax, wmin, wmax), dmin) > Affine(w2, wmin, Scale(dmin, dmax, wmin, wmax), dmin))
  {
    var s := Scale(dmin, dmax, wmin, wmax);
    assert Affine(w2, wmin, s, dmin) - Affine(w1, wmin, s, dmin) == (w2 - w1) * s;
    if dmin < dmax {
      assert s > 0.0;
      assert (w2 - w1) * s > 0.0;
    } else if dmax < dmin {
      assert s < 0.0;
      assert (w2 - w1) * s < 0.0;
    }
  }

  /** `xpix = 1 / xscale` is one device pixel in world units: moving by it moves the image by exactly 1. */
  lemma OnePixel(w: real, wmin: real, scale: real, dmin: real)
    requires scale != 0.0
    ensures Affine(w + 1.0 / scale, wmin, scale, dmin) == Affine(w, wmin, scale, dmin) + 1.0
  {
    assert (w + 1.0 / scale - wmin) * scale == (w - wmin) * scale + (1.0 / scale) * scale;
  }

  // ---------------------------------------------------------------------------
  // Tick positions of wdraw_axes

  /** An integer multiple of the tick spacing. */
  function Multiple(m: int, spacing: real): real {
    m as real * spacing
  }

  /** The first tick of wdraw_axes: `spacing * int((wmin - spacing) / spacing)`. */
  function TickStart(wmin: real, spacing: real): real
    requires spacing != 0.0
  {
    Multiple(Trunc((wmin - spacing) / spacing), spacing)
  }

  /** How many of start, start + step, ... lie below limit: the iterations of `while x < limit: x += step`. */
  function StepsBelow(start: real, step: real, limit: real): nat
    requires step > 0.0
  {
    if start >= limit then 0
    else
      var q := (start - limit) / step;
      assert q < 0.0;
      -q.Floor
  }

  /** The first n elements start, start + step, ... of an arithmetic progression. */
  function Progression(start: real, step: real, n: nat): seq<real> {
    if n == 0 then [] else Progression(start, step, n - 1) + [Nth(start, step, n - 1)]
  }

  /** The positions the tick loop draws at: it skips those within 0.01 of the origin. */
  function Visible(xs: seq<real>): seq<real> {
    if xs == [] then []
    else Visible(xs[..|xs| - 1]) + (if Abs(xs[|xs| - 1]) > 0.01 then [xs[|xs| - 1]] else [])
  }

  /** The ticks wdraw_axes draws along an axis whose world range is [wmin, wmax]. */
  function TickPositions(wmin: real, wmax: real, spacing: real): (ticks: seq<real>)
    requires spacing > 0.0
    ensures wmax <= TickStart(wmin, spacing) ==> ticks == []
  {
    var start := TickStart(wmin, spacing);
    Visible(Progression(start, spacing, StepsBelow(start, spacing, wmax)))
  }

  lemma MulLeq(a: real, b: real, c: real)
    requires a <= b && c > 0.0
    ensures a * c <= b * c
  {
  }

  lemma MulLess(a: real, b: real, c: real)
    requires a < b && c > 0.0
    ensures a * c < b * c
  {
  }

  /** The loop `while x < limit` runs exactly StepsBelow times: every visited x is below limit, the next is not. */
  lemma StepsBelowExact(start: real, step: real, limit: real)
    requires step > 0.0
    ensures forall k :: 0 <= k < StepsBelow(start, step, limit) ==> Nth(start, step, k) < limit
    ensures Nth(start, step, StepsBelow(start, step, limit)) >= limit
  {
    var n := StepsBelow(start, step, limit);
    if start < limit {
      var q := (start - limit) / step;
      assert q * step == start - limit;
      assert q.Floor as real <= q < q.Floor as real + 1.0;
      forall k | 0 <= k < n ensures Nth(start, step, k) < limit {
        assert k as real < -q;
        MulLess(k as real, -q, step);
      }
      assert n as real >= -q;
      assert n as real * step >= -q * step;
    }
  }

  /** The k-th element of the progression is below the limit exactly when the loop `while x < limit` visits it. */
  lemma BelowLimitIndex(start: real, step: real, limit: real, k: nat)
    requires step > 0.0
    ensures Nth(start, step, k) < limit <==> k < StepsBelow(start, step, limit)
  {
    var n := StepsBelow(start, step, limit);
    StepsBelowExact(start, step, limit);
    if k >= n {
      MulLeq(n as real, k as real, step);
    }
  }

  lemma {:induction false} ProgressionAt(start: real, step: real, n: nat, k: nat)
    requires k < n
    ensures |Progression(start, step, n)| == n && Progression(start, step, n)[k] == Nth(start, step, k)
  {
    if k < n - 1 {
      ProgressionAt(start, step, n - 1, k);
    } else {
      ProgressionLength(start, step, n - 1);
    }
  }

  lemma {:induction false} ProgressionLength(start: real, step: real, n: nat)
    ensures |Progression(start, step, n)| == n
  {
    if n > 0 {
      ProgressionLength(start, step, n - 1);
    }
  }

  /** Visible keeps exactly the elements farther than 0.01 from the origin. */
  lemma {:induction false} VisibleMembers(xs: seq<real>)
    ensures forall x :: x in Visible(xs) <==> x in xs && Abs(x) > 0.01
  {
    if xs != [] {
      var init := xs[..|xs| - 1];
      VisibleMembers(init);
      assert xs == init + [xs[|xs| - 1]];
    }
  }

  /** Visiting one more element of the progression keeps it exactly when it is visible. */
  lemma VisibleStep(start: real, step: real, k: nat)
    ensures Visible(Progression(start, step, k + 1)) == Visible(Progression(start, step, k))
      + (if Abs(Nth(start, step, k)) > 0.01 then [Nth(start, step, k)] else [])
  {
    ProgressionLength(start, step, k);
    assert Progression(start, step, k + 1)[..k] == Progression(start, step, k);
  }

  /**
   * The first n + 1 positions of the loop `while x < limit: x += step`, where
   * n is StepsBelow: they step by `step`, the first n are below the limit and
   * the last is not, and the first n are the progression the loop visits.
   */
  lemma TickLoopBounds(start: real, step: real, limit: real)
    requires step > 0.0
    ensures var n := StepsBelow(start, step, limit);
      var ps := Progression(start, step, n + 1);
      && |ps| == n + 1 && ps[0] == start && ps[n] >= limit
      && (forall k :: 0 <= k < n ==> ps[k] < limit)
      && (forall i, j :: 0 <= i < j <= n && j == i + 1 ==> ps[j] == ps[i] + step)
      && ps[..n] == Progression(start, step, n)
  {
    var n := StepsBelow(start, step, limit);
    var ps := Progression(start, step, n + 1);
    StepsBelowExact(start, step, limit);
    ProgressionLength(start, step, n + 1);
    ProgressionLength(start, step, n);
    ProgressionAt(start, step, n + 1, 0);
    ProgressionAt(start, step, n + 1, n);
    forall k | 0 <= k < n ensures ps[k] < limit {
      ProgressionAt(start, step, n + 1, k);
    }
    forall i, j | 0 <= i < j <= n && j == i + 1 ensures ps[j] == ps[i] + step {
      ProgressionAt(start, step, n + 1, i);
      ProgressionAt(start, step, n + 1, j);
      NthNext(start, step, i);
    }
  }

  /** Extending a prefix by one element extends its visible part by that element when it is visible. */
  lemma VisiblePrefixStep(xs: seq<real>, k: nat)
    requires k < |xs|
    ensures Visible(xs[..k + 1]) == Visible(xs[..k]) + (if Abs(xs[k]) > 0.01 then [xs[k]] else [])
  {
    assert xs[..k + 1][..k] == xs[..k];
  }

  /** The first tick lies strictly below the world minimum, and is a multiple of the spacing. */
  lemma TickStartBelow(wmin: real, spacing: real)
    requires spacing > 0.0
    ensures TickStart(wmin, spacing) < wmin
  {
    var q := (wmin - spacing) / spacing;
    var t := Trunc(q);
    assert q * spacing == wmin - spacing;
    TruncBounds(q);
    if q >= 0.0 {
      assert t as real <= q;
      assert t as real * spacing <= q * spacing;
    } else {
      MulLess(t as real, q + 1.0, spacing);
    }
  }

  /**
   * The first tick lies less than two spacings below the world minimum, so the
   * ticks drawn below wmin are at most the two multiples just under it.
   */
  lemma TickStartAbove(wmin: real, spacing: real)
    requires spacing > 0.0
    ensures TickStart(wmin, spacing) > wmin - 2.0 * spacing
  {
    var q := (wmin - spacing) / spacing;
    var t := Trunc(q);
    assert q * spacing == wmin - spacing;
    TruncBounds(q);
    assert q - 1.0 < t as real;
    MulLess(q - 1.0, t as real, spacing);
    assert (q - 1.0) * spacing == wmin - 2.0 * spacing;
  }

  /** The k-th element of a progression from a multiple of its step is itself a multiple. */
  lemma NthMultiple(t: int, step: real, k: nat)
    ensures Nth(Multiple(t, step), step, k) == Multiple(t + k, step)
  {
    assert (t + k) as real * step == t as real * step + k as real * step;
  }

  /** Every element the tick loop visits lies in [start, limit) and is a multiple of the step. */
  lemma ProgressionSound(t: int, step: real, limit: real)
    requires step > 0.0
    ensures var start := Multiple(t, step);
      forall p :: p in Progression(start, step, StepsBelow(start, step, limit)) ==>
        start <= p < limit && exists m :: p == Multiple(m, step)
  {
    var start := Multiple(t, step);
    var n := StepsBelow(start, step, limit);
    var ps := Progression(start, step, n);
    StepsBelowExact(start, step, limit);
    ProgressionLength(start, step, n);
    forall p | p in ps ensures start <= p < limit && exists m :: p == Multiple(m, step) {
      var k :| 0 <= k < |ps| && ps[k] == p;
      ProgressionAt(start, step, n, k);
      NthMultiple(t, step, k);
      MulLeq(0.0, k as real, step);
    }
  }

  /**
   * Every tick wdraw_axes draws lies between the first tick and the world
   * maximum, is farther than 0.01 from the origin, and is a multiple of the
   * spacing.
   */
  lemma TickPositionsSound(wmin: real, wmax: real, spacing: real)
    requires spacing > 0.0
    ensures forall p :: p in TickPositions(wmin, wmax, spacing) ==>
      TickStart(wmin, spacing) <= p < wmax && Abs(p) > 0.01 && exists m :: p == Multiple(m, spacing)
  {
    var start := TickStart(wmin, spacing);
    var n := StepsBelow(start, spacing, wmax);
    ProgressionSound(Trunc((wmin - spacing) / spacing), spacing, wmax);
    VisibleMembers(Progression(start, spacing, n));
  }

  /**
   * And no tick is missed: every multiple of the spacing from the first tick
   * up to wmax, farther than 0.01 from the origin, is drawn. With
   * TickStartBelow this covers all of [wmin, wmax) and the multiples just
   * under wmin that the loop starts from.
   */
  lemma TickPositionsComplete(wmin: real, wmax: real, spacing: real, m: int)
    requires spacing > 0.0
    requires TickStart(wmin, spacing) <= Multiple(m, spacing) < wmax && Abs(Multiple(m, spacing)) > 0.01
    ensures Multiple(m, spacing) in TickPositions(wmin, wmax, spacing)
  {
    var t := Trunc((wmin - spacing) / spacing);
    var start := TickStart(wmin, spacing);
    assert t <= m by {
      if t > m {
        MulLess(m as real, t as real, spacing);
      }
    }
    NthMultiple(t, spacing, m - t);
    InProgression(start, spacing, wmax, m - t);
    VisibleMembers(Progression(start, spacing, StepsBelow(start, spacing, wmax)));
  }

  /** An element of the progression below the limit is one the loop `while x < limit` visits. */
  lemma InProgression(start: real, step: real, limit: real, k: nat)
    requires step > 0.0 && Nth(start, step, k) < limit
    ensures Nth(start, step, k) in Progression(start, step, StepsBelow(start, step, limit))
  {
    BelowLimitIndex(start, step, limit, k);
    ProgressionAt(start, step, StepsBelow(start, step, limit), k);
  }

  /**
   * On the world range [-1, 7] with spacing 1 (the App's settings) the ticks
   * start at int(-2 / 1) = -2, so the tick at -2, outside the range, is drawn
   * too, and only the one at 0 is skipped.
   */
  lemma TicksOfAppWorld()
    ensures TickPositions(-1.0, 7.0, 1.0) == [-2.0, -1.0, 1.0, 2.0, 3.0, 4.0, 5.0, 6.0]
  {
    assert Trunc(-2.0) == -2;
    assert TickStart(-1.0, 1.0) == -2.0;
    assert StepsBelow(-2.0, 1.0, 7.0) == 9;
    VisibleStep(-2.0, 1.0, 0);
    VisibleStep(-2.0, 1.0, 1);
    VisibleStep(-2.0, 1.0, 2);
    VisibleStep(-2.0, 1.0, 3);
    VisibleStep(-2.0, 1.0, 4);
    VisibleStep(-2.0, 1.0, 5);
    VisibleStep(-2.0, 1.0, 6);
    VisibleStep(-2.0, 1.0, 7);
    VisibleStep(-2.0, 1.0, 8);
  }

  // ---------------------------------------------------------------------------
  // Samples of wdraw_function

  /** How many samples `while x <= hi: ...; x += step` takes from lo. */
  function SampleCount(lo: real, hi: real, step: real): (n: nat)
    requires step > 0.0 || lo > hi
    ensures lo <= hi ==> n >= 1
  {
    if lo > hi then 0 else ((hi - lo) / step).Floor + 1
  }

  /** The flat list [x0, f(x0), x1, f(x1), ...] of the first n samples wdraw_function appends. */
  function Samples(f: real -> real, lo: real, step: real, n: nat): (s: seq<real>)
    ensures |s| == 2 * n
  {
    if n == 0 then []
    else
      var x := Nth(lo, step, n - 1);
      Samples(f, lo, step, n - 1) + [x, f(x)]
  }

  /** The k-th (x, y) pair of a flat coordinate list. */
  function PointAt(s: seq<real>, k: int): Point
    requires 0 <= k && 2 * k + 1 < |s|
  {
    Point(s[2 * k], s[2 * k + 1])
  }

  lemma StepWithin(lo: real, step: real, k: real, q: real)
    requires 0.0 <= k <= q && step > 0.0
    ensures lo <= lo + k * step <= lo + q * step
  {
    MulLeq(k, q, step);
    MulLeq(0.0, k, step);
  }

  /** A sample the loop visits lies in [lo, hi]. */
  lemma SampleWithin(lo: real, hi: real, step: real, k: nat)
    requires step > 0.0 && lo <= hi && k < SampleCount(lo, hi, step)
    ensures lo <= Nth(lo, step, k) <= hi
  {
    var q := (hi - lo) / step;
    assert q * step == hi - lo;
    assert k as real <= q;
    StepWithin(lo, step, k as real, q);
  }

  /** The position after the last sample lies past hi. */
  lemma SampleBeyond(lo: real, hi: real, step: real)
    requires step > 0.0 && lo <= hi
    ensures Nth(lo, step, SampleCount(lo, hi, step)) > hi
  {
    var n := SampleCount(lo, hi, step);
    var q := (hi - lo) / step;
    assert q * step == hi - lo;
    assert q < n as real;
    MulLess(q, n as real, step);
  }

  /** The loop `while x <= hi` runs exactly SampleCount times: every visited x lies in [lo, hi], the next does not. */
  lemma SampleCountExact(lo: real, hi: real, step: real)
    requires step > 0.0 || lo > hi
    ensures Nth(lo, step, SampleCount(lo, hi, step)) > hi
    ensures forall k :: 0 <= k < SampleCount(lo, hi, step) ==> lo <= Nth(lo, step, k) <= hi
  {
    if lo <= hi {
      SampleBeyond(lo, hi, step);
      forall k | 0 <= k < SampleCount(lo, hi, step) ensures lo <= Nth(lo, step, k) <= hi {
        SampleWithin(lo, hi, step, k);
      }
    } else {
      assert Nth(lo, step, 0) == lo;
    }
  }

  /**
   * wdraw_function takes SampleCount samples: each lies in [lo, hi], the next
   * one would not, and the list holds the pair (x, f(x)) for each.
   */
  lemma SamplesExact(f: real -> real, lo: real, hi: real, step: real)
    requires step > 0.0 || lo > hi
    ensures var n := SampleCount(lo, hi, step);
      && Nth(lo, step, n) > hi
      && (forall k :: 0 <= k < n ==> lo <= Nth(lo, step, k) <= hi)
      && |Samples(f, lo, step, n)| == 2 * n
      && (forall k :: 0 <= k < n ==>
            PointAt(Samples(f, lo, step, n), k) == Point(Nth(lo, step, k), f(Nth(lo, step, k))))
  {
    SampleCountExact(lo, hi, step);
    SamplesShape(f, lo, step, SampleCount(lo, hi, step));
  }

  lemma {:induction false} SamplesShape(f: real -> real, lo: real, step: real, n: nat)
    ensures |Samples(f, lo, step, n)| == 2 * n
    ensures forall k :: 0 <= k < n ==>
      PointAt(Samples(f, lo, step, n), k) == Point(Nth(lo, step, k), f(Nth(lo, step, k)))
  {
    if n > 0 {
      SamplesShape(f, lo, step, n - 1);
      var s := Samples(f, lo, step, n);
      var init := Samples(f, lo, step, n - 1);
      forall k | 0 <= k < n
        ensures PointAt(s, k) == Point(Nth(lo, step, k), f(Nth(lo, step, k)))
      {
        if k < n - 1 {
          assert s[2 * k] == init[2 * k] && s[2 * k + 1] == init[2 * k + 1];
        }
      }
    }
  }

  // ---------------------------------------------------------------------------

  /** The coordinate list [a.x, a.y, b.x, b.y] of a segment. */
  function SegmentCoords(a: Point, b: Point): seq<real> {
    [a.x, a.y, b.x, b.y]
  }

  /** The part of a DrawingCanvas's state that w_to_d reads: the world and device origins and the scales. */
  datatype Transform = Transform(wxmin: real, wymin: real, xscale: real, yscale: real, dxmin: real, dymin: real)
  {
    /** w_to_d: the affine map from world to device coordinates, axis by axis. */
    function Apply(wx: real, wy: real): Point {
      Point(Affine(wx, wxmin, xscale, dxmin), Affine(wy, wymin, yscale, dymin))
    }
  }

  /** The device coordinate list the pairwise w_to_d loop builds from an even-length world list. */
  function DeviceCoords(t: Transform, w: seq<real>): (d: seq<real>)
    requires |w| % 2 == 0
    ensures |d| == |w|
    ensures forall k :: 0 <= k < |w| / 2 ==> PointAt(d, k) == t.Apply(PointAt(w, k).x, PointAt(w, k).y)
    decreases |w|
  {
    if w == [] then []
    else
      var n := |w|;
      var p := t.Apply(w[n - 2], w[n - 1]);
      var init := DeviceCoords(t, w[..n - 2]);
      assert forall k :: 0 <= k < n / 2 - 1 ==> PointAt(w, k) == PointAt(w[..n - 2], k);
      assert forall k :: 0 <= k < n / 2 - 1 ==> PointAt(init + [p.x, p.y], k) == PointAt(init, k);
      init + [p.x, p.y]
  }

  /**
   * What wdraw_axes draws at tick x: a mark across the axis from +half to
   * -half, and, when asked, the label x at the mark's negative end.
   */
  function TickMark(t: Transform, axis: Axis, x: real, half: real, doDrawText: bool, color: string): seq<Primitive> {
    var p0 := if axis == XAxis then t.Apply(x, half) else t.Apply(half, x);
    var p1 := if axis == XAxis then t.Apply(x, -half) else t.Apply(-half, x);
    var anchor := if axis == XAxis then North else East;
    [Line(SegmentCoords(p0, p1), color, NoArrow)] + (if doDrawText then [Label(p1.x, p1.y, x, color, anchor)] else [])
  }

  /** The marks of a list of ticks, in order. */
  function TickMarks(t: Transform, axis: Axis, xs: seq<real>, half: real, doDrawText: bool, color: string): seq<Primitive> {
    if xs == [] then []
    else TickMarks(t, axis, xs[..|xs| - 1], half, doDrawText, color) + TickMark(t, axis, xs[|xs| - 1], half, doDrawText, color)
  }

  /** One more visible tick adds its mark after the marks so far. */
  lemma TickMarksAppend(t: Transform, axis: Axis, xs: seq<real>, x: real, half: real, doDrawText: bool, color: string)
    ensures TickMarks(t, axis, xs + [x], half, doDrawText, color)
      == TickMarks(t, axis, xs, half, doDrawText, color) + TickMark(t, axis, x, half, doDrawText, color)
  {
    assert (xs + [x])[..|xs|] == xs;
  }

  /** The marks the tick loop has drawn after visiting the first k positions of ps. */
  function MarksUpTo(t: Transform, axis: Axis, ps: seq<real>, k: nat, half: real, doDrawText: bool, color: string): seq<Primitive>
    requires k <= |ps|
  {
    if k == 0 then []
    else
      var mark := if Abs(ps[k - 1]) > 0.01 then TickMark(t, axis, ps[k - 1], half, doDrawText, color) else [];
      MarksUpTo(t, axis, ps, k - 1, half, doDrawText, color) + mark
  }

  /** Visiting positions one by one draws exactly the marks of the visible ones among them. */
  lemma {:induction false} MarksUpToVisible(t: Transform, axis: Axis, ps: seq<real>, k: nat, half: real, doDrawText: bool, color: string)
    requires k <= |ps|
    ensures MarksUpTo(t, axis, ps, k, half, doDrawText, color) == TickMarks(t, axis, Visible(ps[..k]), half, doDrawText, color)
  {
    if k > 0 {
      MarksUpToVisible(t, axis, ps, k - 1, half, doDrawText, color);
      VisiblePrefixStep(ps, k - 1);
      var shown := Visible(ps[..k - 1]);
      if Abs(ps[k - 1]) > 0.01 {
        TickMarksAppend(t, axis, shown, ps[k - 1], half, doDrawText, color);
      } else {
        assert shown + [] == shown;
      }
    }
  }

  class DrawingCanvas {
    const canvas: TkCanvas
    const wxmin: real
    const wymin: real
    const wxmax: real
    const wymax: real
    const dmargin: real
    const yIsFlipped: bool
    var dxmin: real
    var dymin: real
    var dxmax: real
    var dymax: real
    var xscale: real
    var yscale: real
    var xpix: real
    var ypix: real

    /**
     * The device box set_scales takes from the canvas size: `dmargin` to
     * `size - dmargin - 1` on each axis, the y bounds swapped when y is flipped.
     */
    ghost predicate DeviceBounds()
      reads this
    {
      && dxmin == dmargin
      && dxmax == canvas.width as real - dmargin - 1.0
      && (if yIsFlipped
          then dymin == canvas.height as real - dmargin - 1.0 && dymax == dmargin
          else dymin == dmargin && dymax == canvas.height as real - dmargin - 1.0)
    }

    /** The state a set_scales that did not raise leaves. */
    ghost predicate Scaled()
      reads this
    {
      && DeviceBounds()
      && wxmax != wxmin && wymax != wymin
      && xscale == Scale(dxmin, dxmax, wxmin, wxmax)
      && yscale == Scale(dymin, dymax, wymin, wymax)
      && xscale != 0.0 && yscale != 0.0
      && xpix == 1.0 / xscale && ypix == 1.0 / yscale
    }

    /** `DrawingCanvas(canvas, wxmin, wymin, wxmax, wymax, dmargin, y_is_flipped)`, which calls set_scales. */
    constructor (canvas: TkCanvas, wxmin: real, wymin: real, wxmax: real, wymax: real, dmargin: real, yIsFlipped: bool)
      requires wxmax != wxmin && wymax != wymin
      requires canvas.width as real - 2.0 * dmargin - 1.0 != 0.0
      requires canvas.height as real - 2.0 * dmargin - 1.0 != 0.0
      ensures this.canvas == canvas && this.dmargin == dmargin && this.yIsFlipped == yIsFlipped
      ensures this.wxmin == wxmin && this.wymin == wymin && this.wxmax == wxmax && this.wymax == wymax
      ensures Scaled()
    {
      this.canvas := canvas;
      this.wxmin := wxmin;
      this.wymin := wymin;
      this.wxmax := wxmax;
      this.wymax := wymax;
      this.dmargin := dmargin;
      this.yIsFlipped := yIsFlipped;
      new;
      var status := SetScales();
    }

    /**
     * set_scales: the device box from the canvas size, then the two scales and
     * the world size of one pixel, raising at the first division by zero.
     */
    method SetScales() returns (status: ScaleStatus)
      modifies this
      ensures DeviceBounds()
      ensures status ==
        if wxmax == wxmin then ZeroWorldWidth
        else if wymax == wymin then ZeroWorldHeight
        else if dxmax == dxmin then ZeroDeviceWidth
        else if dymax == dymin then ZeroDeviceHeight
        else ScalesSet
      ensures xscale == if wxmax != wxmin then Scale(dxmin, dxmax, wxmin, wxmax) else old(xscale)
      ensures yscale == if wxmax != wxmin && wymax != wymin then Scale(dymin, dymax, wymin, wymax) else old(yscale)
      ensures xpix == if status == ScalesSet || status == ZeroDeviceHeight then 1.0 / xscale else old(xpix)
      ensures ypix == if status == ScalesSet then 1.0 / yscale else old(ypix)
      ensures status == ScalesSet <==> Scaled()
    {
      dxmin := dmargin;
      dymin := dmargin;
      dxmax := canvas.width as real - dmargin - 1.0;
      dymax := canvas.height as real - dmargin - 1.0;
      if yIsFlipped {
        dymin, dymax := dymax, dymin;
      }
      if wxmax - wxmin == 0.0 {
        return ZeroWorldWidth;
      }
      xscale := (dxmax - dxmin) / (wxmax - wxmin);
      if wymax - wymin == 0.0 {
        return ZeroWorldHeight;
      }
      yscale := (dymax - dymin) / (wymax - wymin);
      if xscale == 0.0 {
        return ZeroDeviceWidth;
      }
      xpix := 1.0 / xscale;
      if yscale == 0.0 {
        return ZeroDeviceHeight;
      }
      ypix := 1.0 / yscale;
      return ScalesSet;
    }

    /** The current scale state, as w_to_d reads it. */
    function Map(): Transform
      reads this
    {
      Transform(wxmin, wymin, xscale, yscale, dxmin, dymin)
    }

    /** clear: removes everything drawn on the canvas. */
    method Clear()
      modifies canvas
      ensures canvas.items == []
    {
      canvas.DeleteAll();
    }

    /** w_to_d: the world point mapped axis by axis; WToDProportional states what that means. */
    function WToD(wx: real, wy: real): (d: Point)
      reads this
    {
      Map().Apply(wx, wy)
    }

    /**
     * Once the scales are set, the device point divides the device box in the
     * same ratio, axis by axis, as the world point divides the world box.
     */
    lemma WToDProportional(wx: real, wy: real)
      requires Scaled()
      ensures (WToD(wx, wy).x - dxmin) * (wxmax - wxmin) == (wx - wxmin) * (dxmax - dxmin)
      ensures (WToD(wx, wy).y - dymin) * (wymax - wymin) == (wy - wymin) * (dymax - dymin)
    {
      AffineProportional(wx, wxmin, wxmax, xscale, dxmin, dxmax);
      AffineProportional(wy, wymin, wymax, yscale, dymin, dymax);
    }

    /** The world box's lower and upper corners map to the device box's (dxmin, dymin) and (dxmax, dymax). */
    lemma MapsCorners()
      requires Scaled()
      ensures WToD(wxmin, wymin) == Point(dxmin, dymin)
      ensures WToD(wxmax, wymax) == Point(dxmax, dymax)
    {
      ScaleMapsEnds(wxmin, wxmax, dxmin, dxmax);
      ScaleMapsEnds(wymin, wymax, dymin, dymax);
    }

    /**
     * With a forward world y range and room for the margins, a flipped canvas
     * has a negative y scale and draws a larger world y higher up (at a
     * smaller device y); an unflipped one does the opposite.
     */
    lemma YOrientation(wx: real, wy1: real, wy2: real)
      requires Scaled()
      requires wymin < wymax && canvas.height as real - 2.0 * dmargin - 1.0 > 0.0 && wy1 < wy2
      ensures yIsFlipped ==> yscale < 0.0 && WToD(wx, wy1).y > WToD(wx, wy2).y
      ensures !yIsFlipped ==> yscale > 0.0 && WToD(wx, wy1).y < WToD(wx, wy2).y
    {
      ScaleOrientation(wy1, wy2, wymin, wymax, dymin, dymax);
    }

    /** `xpix` and `ypix` are one device pixel in world units. */
    lemma PixelSize(wx: real, wy: real)
      requires Scaled()
      ensures WToD(wx + xpix, wy).x == WToD(wx, wy).x + 1.0
      ensures WToD(wx, wy + ypix).y == WToD(wx, wy).y + 1.0
    {
      OnePixel(wx, wxmin, xscale, dxmin);
      OnePixel(wy, wymin, yscale, dymin);
    }

    /**
     * The loop of wdraw_polyline and wdraw_polygon: it walks the world list
     * two entries at a time and appends the mapped point of each pair. An
     * odd-length list raises IndexError at its last element.
     */
    method DevicePoints(wcoords: seq<real>) returns (ok: bool, dpoints: seq<real>)
      ensures ok == (|wcoords| % 2 == 0)
      ensures ok ==> dpoints == DeviceCoords(Map(), wcoords)
    {
      dpoints := [];
      var i := 0;
      while i < |wcoords|
        invariant 0 <= i <= |wcoords| && i % 2 == 0
        invariant dpoints == DeviceCoords(Map(), wcoords[..i])
      {
        if i + 1 >= |wcoords| {
          return false, dpoints;
        }
        var p := WToD(wcoords[i], wcoords[i + 1]);
        assert wcoords[..i + 2][..i] == wcoords[..i];
        dpoints := dpoints + [p.x, p.y];
        i := i + 2;
      }
      assert wcoords[..i] == wcoords;
      return true, dpoints;
    }

    /** wdraw_line: one line between the two mapped points. */
    method WDrawLine(wx0: real, wy0: real, wx1: real, wy1: real, color: string, arrow: Arrow)
      modifies canvas
      ensures canvas.items == old(canvas.items) + [Line(SegmentCoords(WToD(wx0, wy0), WToD(wx1, wy1)), color, arrow)]
    {
      var d0 := WToD(wx0, wy0);
      var d1 := WToD(wx1, wy1);
      canvas.Create(Line([d0.x, d0.y, d1.x, d1.y], color, arrow));
    }

    /** The two axis lines of wdraw_axes, through the origin across the world box, arrows at both ends. */
    function AxisLines(color: string): seq<Primitive>
      reads this
    {
      [Line(SegmentCoords(WToD(wxmin, 0.0), WToD(wxmax, 0.0)), color, ArrowBoth),
       Line(SegmentCoords(WToD(0.0, wymin), WToD(0.0, wymax)), color, ArrowBoth)]
    }

    /**
     * The body of the tick loop at x: a tick farther than 0.01 from the origin
     * gets its mark, then its label when asked; one nearer gets nothing.
     */
    method DrawTickMark(axis: Axis, x: real, half: real, doDrawText: bool, color: string)
      modifies canvas
      ensures canvas.items == old(canvas.items) + if Abs(x) > 0.01 then TickMark(Map(), axis, x, half, doDrawText, color) else []
    {
      if Abs(x) > 0.01 {
        var d0 := if axis == XAxis then WToD(x, half) else WToD(half, x);
        var d1 := if axis == XAxis then WToD(x, -half) else WToD(-half, x);
        canvas.Create(Line([d0.x, d0.y, d1.x, d1.y], color, NoArrow));
        if doDrawText {
          canvas.Create(Label(d1.x, d1.y, x, color, if axis == XAxis then North else East));
        }
      } else {
        assert canvas.items + [] == canvas.items;
      }
    }

    /**
     * One tick loop of wdraw_axes: `x` runs through the positions ps while
     * below `wmax`; the last of ps is the first position at or past `wmax`.
     */
    method DrawTicks(axis: Axis, start: real, wmax: real, spacing: real, ghost ps: seq<real>, half: real, doDrawText: bool, color: string)
      requires |ps| > 0 && ps[0] == start && ps[|ps| - 1] >= wmax
      requires forall k :: 0 <= k < |ps| - 1 ==> ps[k] < wmax
      requires forall i, j :: 0 <= i < j < |ps| && j == i + 1 ==> ps[j] == ps[i] + spacing
      modifies canvas
      ensures canvas.items == old(canvas.items) + TickMarks(Map(), axis, Visible(ps[..|ps| - 1]), half, doDrawText, color)
    {
      ghost var t := Map();
      var x := start;
      ghost var k := 0;
      while x < wmax
        invariant 0 <= k < |ps| && x == ps[k] && Map() == t
        invariant canvas.items == old(canvas.items) + MarksUpTo(t, axis, ps, k, half, doDrawText, color)
        modifies canvas
        decreases |ps| - k
      {
        DrawTickMark(axis, x, half, doDrawText, color);
        x := x + spacing;
        k := k + 1;
      }
      MarksUpToVisible(t, axis, ps, k, half, doDrawText, color);
    }

    /**
     * wdraw_axes: the two axis lines, then the x ticks and the y ticks. A zero
     * spacing raises ZeroDivisionError and a negative one whose first tick is
     * below wmax never ends the loop; the model takes both spacings positive.
     */
    method WDrawAxes(xticSpacing: real, yticSpacing: real, ticHgt: real, ticWid: real, doDrawText: bool, color: string)
      requires xticSpacing > 0.0 && yticSpacing > 0.0
      modifies canvas
      ensures canvas.items == old(canvas.items) + AxisLines(color)
        + TickMarks(Map(), XAxis, TickPositions(wxmin, wxmax, xticSpacing), ticHgt, doDrawText, color)
        + TickMarks(Map(), YAxis, TickPositions(wymin, wymax, yticSpacing), ticWid, doDrawText, color)
    {
      WDrawLine(wxmin, 0.0, wxmax, 0.0, color, ArrowBoth);
      WDrawLine(0.0, wymin, 0.0, wymax, color, ArrowBoth);
      WDrawTicks(XAxis, wxmin, wxmax, xticSpacing, ticHgt, doDrawText, color);
      WDrawTicks(YAxis, wymin, wymax, yticSpacing, ticWid, doDrawText, color);
    }

    /** The tick loop of wdraw_axes along one axis, from its first multiple of the spacing. */
    method WDrawTicks(axis: Axis, wmin: real, wmax: real, spacing: real, half: real, doDrawText: bool, color: string)
      requires spacing > 0.0
      modifies canvas
      ensures canvas.items == old(canvas.items) + TickMarks(Map(), axis, TickPositions(wmin, wmax, spacing), half, doDrawText, color)
    {
      var start := TickStart(wmin, spacing);
      TickLoopBounds(start, spacing, wmax);
      DrawTicks(axis, start, wmax, spacing, Progression(start, spacing, StepsBelow(start, spacing, wmax) + 1),
                half, doDrawText, color);
    }

    /** wdraw_polyline: one line through all mapped points; an odd-length list draws nothing. */
    method WDrawPolyline(wcoords: seq<real>, color: string) returns (drawn: bool)
      modifies canvas
      ensures drawn == (|wcoords| % 2 == 0)
      ensures canvas.items == if drawn then old(canvas.items) + [Line(DeviceCoords(Map(), wcoords), color, NoArrow)] else old(canvas.items)
    {
      var dpoints;
      drawn, dpoints := DevicePoints(wcoords);
      if drawn {
        canvas.Create(Line(dpoints, color, NoArrow));
      }
    }

    /** wdraw_polygon: one polygon through all mapped points; an odd-length list draws nothing. */
    method WDrawPolygon(wcoords: seq<real>, fill: string, outline: string) returns (drawn: bool)
      modifies canvas
      ensures drawn == (|wcoords| % 2 == 0)
      ensures canvas.items == if drawn then old(canvas.items) + [Polygon(DeviceCoords(Map(), wcoords), fill, outline)] else old(canvas.items)
    {
      var dpoints;
      drawn, dpoints := DevicePoints(wcoords);
      if drawn {
        canvas.Create(Polygon(dpoints, fill, outline));
      }
    }

    /** wdraw_oval: one oval in the box of the two mapped corners. */
    method WDrawOval(wx0: real, wy0: real, wx1: real, wy1: real, fill: string, outline: string)
      modifies canvas
      ensures canvas.items == old(canvas.items) + [Oval(SegmentCoords(WToD(wx0, wy0), WToD(wx1, wy1)), fill, outline)]
    {
      var d0 := WToD(wx0, wy0);
      var d1 := WToD(wx1, wy1);
      canvas.Create(Oval([d0.x, d0.y, d1.x, d1.y], fill, outline));
    }

    /** wdraw_rectangle: one rectangle between the two mapped corners. */
    method WDrawRectangle(wx0: real, wy0: real, wx1: real, wy1: real, fill: string, outline: string)
      modifies canvas
      ensures canvas.items == old(canvas.items) + [Rectangle(SegmentCoords(WToD(wx0, wy0), WToD(wx1, wy1)), fill, outline)]
    {
      var d0 := WToD(wx0, wy0);
      var d1 := WToD(wx1, wy1);
      canvas.Create(Rectangle([d0.x, d0.y, d1.x, d1.y], fill, outline));
    }

    /**
     * wdraw_function: samples f at lo, lo + step, ... while x <= hi and draws
     * one polyline through the samples. A non-positive step never ends the
     * loop unless lo > hi.
     */
    method WDrawFunction(f: real -> real, color: string, lo: real, hi: real, step: real)
      requires step > 0.0 || lo > hi
      modifies canvas
      ensures canvas.items == old(canvas.items) + [Line(DeviceCoords(Map(), Samples(f, lo, step, SampleCount(lo, hi, step))), color, NoArrow)]
    {
      ghost var n := SampleCount(lo, hi, step);
      SampleCountExact(lo, hi, step);
      var points := [];
      var x := lo;
      ghost var k := 0;
      while x <= hi
        invariant 0 <= k <= n && x == Nth(lo, step, k)
        invariant points == Samples(f, lo, step, k)
        invariant canvas.items == old(canvas.items)
        decreases n - k
      {
        points := points + [x, f(x)];
        NthNext(lo, step, k);
        x := x + step;
        k := k + 1;
      }
      assert k == n;
      assert |points| % 2 == 0;
      var drawn := WDrawPolyline(points, color);
    }
  }
}
