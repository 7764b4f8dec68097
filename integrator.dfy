/**
 * The adaptive trapezoid integrator of main.py: `slice_area` refines one slice
 * by comparing a single coarse estimate with two midpoint trapezoids, and
 * `integrate_adaptive_midpoint` sums it over equal base slices.
 *
 * The source puts no bound on the recursion; every refinement here carries a
 * `fuel` bound on its depth and stops with `DepthExceeded` when it runs out.
 */
module Integrator {
  import opened PyReal

  /** Why a computation stops: Python's ZeroDivisionError, or the depth bound. */
  datatype Fault = DivisionByZero | DepthExceeded

  /** The value of `slice_area` / `integrate_adaptive_midpoint`, or the fault it raises. */
  datatype Outcome = Done(value: real) | Fail(fault: Fault)

  /** An accepted sub-interval [x1, x2]: one trapezoid of the estimate. */
  datatype Slice = Slice(x1: real, x2: real)

  datatype Status = Completed | Stopped(fault: Fault)

  /** The accepted slices in the order the refinement finds them, and how it ended. */
  datatype Run = Run(leaves: seq<Slice>, status: Status)

  /**
   * The coarse estimate a slice is compared with: the single trapezoid of
   * `slice_area`, or the left rectangle `(x2 - x1) * (y1 + y1) / 2` that
   * `draw_one_trapezoid` computes.
   */
  datatype Coarse = Trapezoid | LeftRectangle

  function Mid(x1: real, x2: real): real {
    (x1 + x2) / 2.0
  }

  /** `large`: the coarse estimate of the area over [x1, x2]. */
  function Large(rule: Coarse, f: real -> real, x1: real, x2: real): (large: real)
    ensures x1 == x2 ==> large == 0.0
    ensures rule == LeftRectangle ==> large == (x2 - x1) * f(x1)
  {
    match rule
    case Trapezoid => (x2 - x1) * (f(x1) + f(x2)) / 2.0
    case LeftRectangle => (x2 - x1) * (f(x1) + f(x1)) / 2.0
  }

  /** `both`: the two trapezoids over [x1, xm] and [xm, x2]. */
  function Both(f: real -> real, x1: real, x2: real): (both: real)
    ensures both == (x2 - x1) * (f(x1) + 2.0 * f(Mid(x1, x2)) + f(x2)) / 4.0
  {
    var xm := Mid(x1, x2);
    assert xm - x1 == (x2 - x1) / 2.0 && x2 - xm == (x2 - x1) / 2.0;
    (xm - x1) * (f(x1) + f(xm)) / 2.0 + (x2 - xm) * (f(x2) + f(xm)) / 2.0
  }

  /** The slice is accepted: `large` is nonzero and `|(both - large) / large| < max_error`. */
  predicate Accepts(rule: Coarse, f: real -> real, x1: real, x2: real, maxError: real) {
    var large := Large(rule, f, x1, x2);
    large != 0.0 && Abs((Both(f, x1, x2) - large) / large) < maxError
  }

  /** Adds a finished partial sum to an outcome, keeping a fault as it is. */
  function Add(total: real, o: Outcome): Outcome {
    if o.Done? then Done(total + o.value) else o
  }

  /** `slice_area(function, x1, x2, max_error)`, with at most `fuel` levels of calls. */
  function SliceArea(f: real -> real, x1: real, x2: real, maxError: real, fuel: nat): (r: Outcome)
    ensures r.Done? ==> Large(Trapezoid, f, x1, x2) != 0.0
    decreases fuel
  {
    if fuel == 0 then Fail(DepthExceeded)
    else if Large(Trapezoid, f, x1, x2) == 0.0 then Fail(DivisionByZero)
    else if Accepts(Trapezoid, f, x1, x2, maxError) then Done(Both(f, x1, x2))
    else
      var xm := Mid(x1, x2);
      var left := SliceArea(f, x1, xm, maxError, fuel - 1);
      if left.Fail? then left
      else Add(left.value, SliceArea(f, xm, x2, maxError, fuel - 1))
  }

  /** Puts already accepted slices in front of a run. */
  function Join(prefix: seq<Slice>, r: Run): Run {
    Run(prefix + r.leaves, r.status)
  }

  /**
   * The slices the refinement accepts on [x1, x2], left half before right half,
   * as `draw_one_trapezoid` visits them; a fault ends the run, keeping the
   * slices accepted before it.
   */
  function Refine(rule: Coarse, f: real -> real, x1: real, x2: real, maxError: real, fuel: nat): (r: Run)
    decreases fuel
    ensures forall s :: s in r.leaves ==> Accepts(rule, f, s.x1, s.x2, maxError)
  {
    if fuel == 0 then Run([], Stopped(DepthExceeded))
    else if Large(rule, f, x1, x2) == 0.0 then Run([], Stopped(DivisionByZero))
    else if Accepts(rule, f, x1, x2, maxError) then Run([Slice(x1, x2)], Completed)
    else
      var xm := Mid(x1, x2);
      var left := Refine(rule, f, x1, xm, maxError, fuel - 1);
      if left.status.Stopped? then left
      else Join(left.leaves, Refine(rule, f, xm, x2, maxError, fuel - 1))
  }

  /** The sum of `both` over the slices. */
  function SumBoth(f: real -> real, ls: seq<Slice>): real {
    if ls == [] then 0.0 else Both(f, ls[0].x1, ls[0].x2) + SumBoth(f, ls[1..])
  }

  /** The sum of the coarse estimates over the slices, and of their magnitudes. */
  function SumLarge(f: real -> real, ls: seq<Slice>): real {
    if ls == [] then 0.0 else Large(Trapezoid, f, ls[0].x1, ls[0].x2) + SumLarge(f, ls[1..])
  }

  function SumAbsLarge(f: real -> real, ls: seq<Slice>): real {
    if ls == [] then 0.0 else Abs(Large(Trapezoid, f, ls[0].x1, ls[0].x2)) + SumAbsLarge(f, ls[1..])
  }

  /** The area a run stands for: the sum of `both` over its slices, or its fault. */
  function Summed(f: real -> real, r: Run): Outcome {
    match r.status
    case Completed => Done(SumBoth(f, r.leaves))
    case Stopped(e) => Fail(e)
  }

  /**
   * The slices cover [a, b] from left to right without gap or overlap: the
   * first starts at a, the last ends at b, each ends where the next starts,
   * and each runs forward.
   */
  ghost predicate Tiles(ls: seq<Slice>, a: real, b: real) {
    && |ls| > 0
    && ls[0].x1 == a
    && ls[|ls| - 1].x2 == b
    && (forall i :: 0 <= i < |ls| ==> ls[i].x1 < ls[i].x2)
    && (forall i, j :: 0 <= i < |ls| && j == i + 1 && j < |ls| ==> ls[i].x2 == ls[j].x1)
  }

  lemma {:induction false} SumBothAppend(f: real -> real, a: seq<Slice>, b: seq<Slice>)
    ensures SumBoth(f, a + b) == SumBoth(f, a) + SumBoth(f, b)
  {
    if a == [] {
      assert a + b == b;
    } else {
      assert (a + b)[1..] == a[1..] + b;
      SumBothAppend(f, a[1..], b);
    }
  }

  lemma {:induction false} TilesAppend(l: seq<Slice>, r: seq<Slice>, a: real, m: real, b: real)
    requires Tiles(l, a, m) && Tiles(r, m, b)
    ensures Tiles(l + r, a, b)
  {
    var s := l + r;
    forall i | 0 <= i < |s|
      ensures s[i].x1 < s[i].x2
    {
      if i < |l| { assert s[i] == l[i]; } else { assert s[i] == r[i - |l|]; }
    }
    forall i, j | 0 <= i < |s| && j == i + 1 && j < |s|
      ensures s[i].x2 == s[j].x1
    {
      if j < |l| {
        assert s[i] == l[i] && s[j] == l[j];
      } else if i == |l| - 1 {
        assert s[i] == l[|l| - 1] && s[j] == r[0];
      } else {
        assert s[i] == r[i - |l|] && s[j] == r[j - |l|];
      }
    }
  }

  /**
   * `slice_area` returns exactly the sum of `both` over the slices the
   * refinement accepts, and raises exactly when the refinement stops.
   */
  lemma {:induction false} SliceAreaIsSumOfLeaves(f: real -> real, x1: real, x2: real, maxError: real, fuel: nat)
    ensures SliceArea(f, x1, x2, maxError, fuel) == Summed(f, Refine(Trapezoid, f, x1, x2, maxError, fuel))
    decreases fuel
  {
    if fuel == 0 || Large(Trapezoid, f, x1, x2) == 0.0 {
    } else if Accepts(Trapezoid, f, x1, x2, maxError) {
      assert SumBoth(f, [Slice(x1, x2)]) == Both(f, x1, x2) + SumBoth(f, []);
    } else {
      var xm := Mid(x1, x2);
      SliceAreaIsSumOfLeaves(f, x1, xm, maxError, fuel - 1);
      SliceAreaIsSumOfLeaves(f, xm, x2, maxError, fuel - 1);
      var left := Refine(Trapezoid, f, x1, xm, maxError, fuel - 1);
      var right := Refine(Trapezoid, f, xm, x2, maxError, fuel - 1);
      SumBothAppend(f, left.leaves, right.leaves);
    }
  }

  /** On a forward interval, a refinement that completes tiles it. */
  lemma {:induction false} RefineTiles(rule: Coarse, f: real -> real, x1: real, x2: real, maxError: real, fuel: nat)
    requires x1 < x2
    requires Refine(rule, f, x1, x2, maxError, fuel).status == Completed
    ensures Tiles(Refine(rule, f, x1, x2, maxError, fuel).leaves, x1, x2)
    decreases fuel
  {
    if fuel == 0 || Large(rule, f, x1, x2) == 0.0 || Accepts(rule, f, x1, x2, maxError) {
    } else {
      var xm := Mid(x1, x2);
      RefineTiles(rule, f, x1, xm, maxError, fuel - 1);
      RefineTiles(rule, f, xm, x2, maxError, fuel - 1);
      TilesAppend(Refine(rule, f, x1, xm, maxError, fuel - 1).leaves,
                  Refine(rule, f, xm, x2, maxError, fuel - 1).leaves, x1, xm, x2);
    }
  }

  /** A result that is not a depth fault is the same for every larger depth bound. */
  lemma {:induction false} SliceAreaFuelMonotone(f: real -> real, x1: real, x2: real, maxError: real, fuel: nat, more: nat)
    requires fuel <= more
    requires SliceArea(f, x1, x2, maxError, fuel) != Fail(DepthExceeded)
    ensures SliceArea(f, x1, x2, maxError, more) == SliceArea(f, x1, x2, maxError, fuel)
    decreases fuel
  {
    if Large(Trapezoid, f, x1, x2) == 0.0 || Accepts(Trapezoid, f, x1, x2, maxError) {
    } else {
      var xm := Mid(x1, x2);
      SliceAreaFuelMonotone(f, x1, xm, maxError, fuel - 1, more - 1);
      if SliceArea(f, x1, xm, maxError, fuel - 1).Done? {
        SliceAreaFuelMonotone(f, xm, x2, maxError, fuel - 1, more - 1);
      }
    }
  }

  /**
   * The same for the drawing's refinement: a run that does not stop at the
   * depth bound is the same run under every larger bound.
   */
  lemma {:induction false} RefineFuelMonotone(rule: Coarse, f: real -> real, x1: real, x2: real, maxError: real, fuel: nat, more: nat)
    requires fuel <= more
    requires Refine(rule, f, x1, x2, maxError, fuel).status != Stopped(DepthExceeded)
    ensures Refine(rule, f, x1, x2, maxError, more) == Refine(rule, f, x1, x2, maxError, fuel)
    decreases fuel
  {
    if Large(rule, f, x1, x2) == 0.0 || Accepts(rule, f, x1, x2, maxError) {
    } else {
      var xm := Mid(x1, x2);
      RefineFuelMonotone(rule, f, x1, xm, maxError, fuel - 1, more - 1);
      if !Refine(rule, f, x1, xm, maxError, fuel - 1).status.Stopped? {
        RefineFuelMonotone(rule, f, xm, x2, maxError, fuel - 1, more - 1);
      }
    }
  }

  /** The acceptance test bounds each slice's `|both - large|` by `max_error * |large|`. */
  lemma RelativeBound(both: real, large: real, maxError: real)
    requires large != 0.0 && Abs((both - large) / large) < maxError
    ensures Abs(both - large) < maxError * Abs(large)
  {
    var q := (both - large) / large;
    assert both - large == q * large;
    if large > 0.0 {
      if q >= 0.0 { assert Abs(both - large) == q * large; } else { assert Abs(both - large) == -q * large; }
    } else {
      if q >= 0.0 { assert Abs(both - large) == q * -large; } else { assert Abs(both - large) == -q * -large; }
    }
  }

  /**
   * The local error criterion, summed: over accepted slices the estimate
   * differs from the coarse estimates by less than `max_error` times their
   * total magnitude.
   */
  lemma {:induction false} AcceptedErrorBound(f: real -> real, ls: seq<Slice>, maxError: real)
    requires ls != []
    requires forall s :: s in ls ==> Accepts(Trapezoid, f, s.x1, s.x2, maxError)
    ensures Abs(SumBoth(f, ls) - SumLarge(f, ls)) < maxError * SumAbsLarge(f, ls)
  {
    var gap := (s: Slice) => Both(f, s.x1, s.x2) - Large(Trapezoid, f, s.x1, s.x2);
    var tol := (s: Slice) => maxError * Abs(Large(Trapezoid, f, s.x1, s.x2));
    AcceptedGaps(f, ls, maxError, gap, tol);
    BoundsAdd(ls, gap, tol);
    GapSum(f, ls, gap);
    TolSum(f, ls, maxError, tol);
  }

  /** Every accepted slice keeps its gap below its tolerance. */
  lemma AcceptedGaps(f: real -> real, ls: seq<Slice>, maxError: real, gap: Slice -> real, tol: Slice -> real)
    requires forall s :: s in ls ==> Accepts(Trapezoid, f, s.x1, s.x2, maxError)
    requires forall s :: gap(s) == Both(f, s.x1, s.x2) - Large(Trapezoid, f, s.x1, s.x2)
    requires forall s :: tol(s) == maxError * Abs(Large(Trapezoid, f, s.x1, s.x2))
    ensures forall s :: s in ls ==> Abs(gap(s)) < tol(s)
  {
    forall s | s in ls ensures Abs(gap(s)) < tol(s) {
      AcceptedSlice(f, s, maxError);
    }
  }

  /** One accepted slice: `|both - large| < max_error * |large|`. */
  lemma AcceptedSlice(f: real -> real, s: Slice, maxError: real)
    requires Accepts(Trapezoid, f, s.x1, s.x2, maxError)
    ensures Abs(Both(f, s.x1, s.x2) - Large(Trapezoid, f, s.x1, s.x2)) < maxError * Abs(Large(Trapezoid, f, s.x1, s.x2))
  {
    RelativeBound(Both(f, s.x1, s.x2), Large(Trapezoid, f, s.x1, s.x2), maxError);
  }

  /** The sum of g over the slices. */
  function SumOver(ls: seq<Slice>, g: Slice -> real): real {
    if ls == [] then 0.0 else g(ls[0]) + SumOver(ls[1..], g)
  }

  /** Per-slice strict bounds add up to a strict bound on the sums. */
  lemma {:induction false} BoundsAdd(ls: seq<Slice>, gap: Slice -> real, tol: Slice -> real)
    requires ls != []
    requires forall s :: s in ls ==> Abs(gap(s)) < tol(s)
    ensures Abs(SumOver(ls, gap)) < SumOver(ls, tol)
  {
    assert ls[0] in ls;
    if |ls| > 1 {
      forall s | s in ls[1..] ensures Abs(gap(s)) < tol(s) { assert s in ls; }
      BoundsAdd(ls[1..], gap, tol);
    }
  }

  /** Summing the gaps gives the difference of the two estimates. */
  lemma {:induction false} GapSum(f: real -> real, ls: seq<Slice>, gap: Slice -> real)
    requires forall s :: gap(s) == Both(f, s.x1, s.x2) - Large(Trapezoid, f, s.x1, s.x2)
    ensures SumOver(ls, gap) == SumBoth(f, ls) - SumLarge(f, ls)
  {
    if ls != [] {
      GapSum(f, ls[1..], gap);
    }
  }

  /** Summing the tolerances gives `max_error` times the total magnitude. */
  lemma {:induction false} TolSum(f: real -> real, ls: seq<Slice>, maxError: real, tol: Slice -> real)
    requires forall s :: tol(s) == maxError * Abs(Large(Trapezoid, f, s.x1, s.x2))
    ensures SumOver(ls, tol) == maxError * SumAbsLarge(f, ls)
  {
    if ls != [] {
      TolSum(f, ls[1..], maxError, tol);
      var m := Abs(Large(Trapezoid, f, ls[0].x1, ls[0].x2));
      assert maxError * (m + SumAbsLarge(f, ls[1..])) == maxError * m + maxError * SumAbsLarge(f, ls[1..]);
    }
  }

  /** A completed refinement accepts at least one slice. */
  lemma {:induction false} RefineNonEmpty(rule: Coarse, f: real -> real, x1: real, x2: real, maxError: real, fuel: nat)
    requires Refine(rule, f, x1, x2, maxError, fuel).status == Completed
    ensures Refine(rule, f, x1, x2, maxError, fuel).leaves != []
    decreases fuel
  {
    if fuel == 0 || Large(rule, f, x1, x2) == 0.0 || Accepts(rule, f, x1, x2, maxError) {
    } else {
      RefineNonEmpty(rule, f, x1, Mid(x1, x2), maxError, fuel - 1);
    }
  }

  /** For an affine integrand the two midpoint trapezoids add up exactly to the single one. */
  lemma AffineBothIsLarge(f: real -> real, a: real, b: real, x1: real, x2: real)
    requires forall x :: f(x) == a + b * x
    ensures Both(f, x1, x2) == Large(Trapezoid, f, x1, x2)
  {
    var xm := Mid(x1, x2);
    var h := (x2 - x1) / 2.0;
    assert xm - x1 == h && x2 - xm == h;
    assert f(x1) == a + b * x1 && f(x2) == a + b * x2 && f(xm) == a + b * xm;
    calc {
      Both(f, x1, x2);
      h * (f(x1) + f(xm)) / 2.0 + h * (f(x2) + f(xm)) / 2.0;
      h * (f(x1) + f(x2) + 2.0 * f(xm)) / 2.0;
      { assert 2.0 * f(xm) == f(x1) + f(x2); }
      h * (f(x1) + f(x2));
      Large(Trapezoid, f, x1, x2);
    }
  }

  /**
   * So for an affine integrand with a nonzero single trapezoid and a positive
   * `max_error`, `slice_area` accepts at the first level without recursing.
   */
  lemma AffineAcceptedAtOnce(f: real -> real, a: real, b: real, x1: real, x2: real, maxError: real, fuel: nat)
    requires forall x :: f(x) == a + b * x
    requires Large(Trapezoid, f, x1, x2) != 0.0 && maxError > 0.0 && fuel > 0
    ensures SliceArea(f, x1, x2, maxError, fuel) == Done(Large(Trapezoid, f, x1, x2))
    ensures Refine(Trapezoid, f, x1, x2, maxError, fuel) == Run([Slice(x1, x2)], Completed)
  {
    AffineBothIsLarge(f, a, b, x1, x2);
    var large := Large(Trapezoid, f, x1, x2);
    assert (Both(f, x1, x2) - large) / large == 0.0;
  }

  /**
   * The left rectangle of `draw_one_trapezoid` splits slices `slice_area`
   * accepts: for f(x) = 1 + x on [0, 1] with `max_error` 0.01 the integrator
   * accepts the whole interval at once, while the drawing never produces that
   * single slice.
   */
  lemma LeftRectangleDiverges(f: real -> real, fuel: nat)
    requires forall x :: f(x) == 1.0 + x
    requires fuel > 0
    ensures Refine(Trapezoid, f, 0.0, 1.0, 0.01, fuel) == Run([Slice(0.0, 1.0)], Completed)
    ensures Refine(LeftRectangle, f, 0.0, 1.0, 0.01, fuel) != Refine(Trapezoid, f, 0.0, 1.0, 0.01, fuel)
  {
    AffineAcceptedAtOnce(f, 1.0, 1.0, 0.0, 1.0, 0.01, fuel);
    assert f(0.0) == 1.0 && f(1.0) == 2.0 && f(0.5) == 1.5;
    assert Large(LeftRectangle, f, 0.0, 1.0) == 1.0;
    assert Both(f, 0.0, 1.0) == 1.5;
    assert !Accepts(LeftRectangle, f, 0.0, 1.0, 0.01);
    var left := Refine(LeftRectangle, f, 0.0, 0.5, 0.01, fuel - 1);
    if left.status == Completed {
      RefineTiles(LeftRectangle, f, 0.0, 0.5, 0.01, fuel - 1);
      var whole := Refine(LeftRectangle, f, 0.0, 1.0, 0.01, fuel);
      var k := |left.leaves| - 1;
      assert whole.leaves == left.leaves + Refine(LeftRectangle, f, 0.5, 1.0, 0.01, fuel - 1).leaves;
      assert whole.leaves[k] == left.leaves[k] && left.leaves[k].x2 == 0.5;
    }
  }

  // ---------------------------------------------------------------------------
  // integrate_adaptive_midpoint

  /** The number of base slices `range(intervals)` visits. */
  function BaseSlices(intervals: int): nat {
    if intervals > 0 then intervals else 0
  }

  /** `slice_area` summed over the base slices i, ..., n - 1, stopping at the first fault. */
  function SumFrom(f: real -> real, xmin: real, dx: real, i: nat, n: nat, maxError: real, fuel: nat): Outcome
    decreases n - i
  {
    if i >= n then Done(0.0)
    else
      var x := Nth(xmin, dx, i);
      var s := SliceArea(f, x, x + dx, maxError, fuel);
      if s.Fail? then s else Add(s.value, SumFrom(f, xmin, dx, i + 1, n, maxError, fuel))
  }

  /** What `integrate_adaptive_midpoint` returns or raises; `intervals == 0` divides by zero. */
  function Integral(f: real -> real, xmin: real, xmax: real, intervals: int, maxError: real, fuel: nat): (r: Outcome)
    ensures intervals == 0 ==> r == Fail(DivisionByZero)
    ensures intervals < 0 ==> r == Done(0.0)
  {
    if intervals == 0 then Fail(DivisionByZero)
    else SumFrom(f, xmin, (xmax - xmin) / intervals as real, 0, BaseSlices(intervals), maxError, fuel)
  }

  /** The refinement runs of the base slices i, ..., n - 1 one after the other, up to the first fault. */
  function RefineFrom(rule: Coarse, f: real -> real, xmin: real, dx: real, i: nat, n: nat, maxError: real, fuel: nat): Run
    decreases n - i
  {
    if i >= n then Run([], Completed)
    else
      var x := Nth(xmin, dx, i);
      var r := Refine(rule, f, x, x + dx, maxError, fuel);
      if r.status.Stopped? then r else Join(r.leaves, RefineFrom(rule, f, xmin, dx, i + 1, n, maxError, fuel))
  }

  /** The slices `draw_trapezoids` visits over [xmin, xmax] (the same base slices as the integrator). */
  function SliceRun(rule: Coarse, f: real -> real, xmin: real, xmax: real, intervals: int, maxError: real, fuel: nat): Run {
    if intervals == 0 then Run([], Stopped(DivisionByZero))
    else RefineFrom(rule, f, xmin, (xmax - xmin) / intervals as real, 0, BaseSlices(intervals), maxError, fuel)
  }

  lemma {:induction false} SumFromIsSumOfLeaves(f: real -> real, xmin: real, dx: real, i: nat, n: nat, maxError: real, fuel: nat)
    ensures SumFrom(f, xmin, dx, i, n, maxError, fuel) == Summed(f, RefineFrom(Trapezoid, f, xmin, dx, i, n, maxError, fuel))
    decreases n - i
  {
    if i < n {
      var x := Nth(xmin, dx, i);
      var r := Refine(Trapezoid, f, x, x + dx, maxError, fuel);
      var s := SliceArea(f, x, x + dx, maxError, fuel);
      SliceAreaIsSumOfLeaves(f, x, x + dx, maxError, fuel);
      assert s == Summed(f, r);
      if r.status == Completed {
        var rest := RefineFrom(Trapezoid, f, xmin, dx, i + 1, n, maxError, fuel);
        var sumRest := SumFrom(f, xmin, dx, i + 1, n, maxError, fuel);
        SumFromIsSumOfLeaves(f, xmin, dx, i + 1, n, maxError, fuel);
        assert sumRest == Summed(f, rest);
        SumBothAppend(f, r.leaves, rest.leaves);
        assert SumFrom(f, xmin, dx, i, n, maxError, fuel) == Add(SumBoth(f, r.leaves), sumRest);
        assert RefineFrom(Trapezoid, f, xmin, dx, i, n, maxError, fuel) == Join(r.leaves, rest);
      } else {
        assert SumFrom(f, xmin, dx, i, n, maxError, fuel) == s;
        assert RefineFrom(Trapezoid, f, xmin, dx, i, n, maxError, fuel) == r;
      }
    }
  }

  /**
   * `integrate_adaptive_midpoint` returns the sum of `both` over every slice
   * the refinement of its base slices accepts, and raises exactly when that
   * refinement stops.
   */
  lemma IntegralIsSumOfLeaves(f: real -> real, xmin: real, xmax: real, intervals: int, maxError: real, fuel: nat)
    ensures Integral(f, xmin, xmax, intervals, maxError, fuel) == Summed(f, SliceRun(Trapezoid, f, xmin, xmax, intervals, maxError, fuel))
  {
    if intervals != 0 {
      SumFromIsSumOfLeaves(f, xmin, (xmax - xmin) / intervals as real, 0, BaseSlices(intervals), maxError, fuel);
    }
  }

  lemma {:induction false} RefineFromTiles(rule: Coarse, f: real -> real, xmin: real, dx: real, i: nat, n: nat, maxError: real, fuel: nat)
    requires dx > 0.0 && i < n
    requires RefineFrom(rule, f, xmin, dx, i, n, maxError, fuel).status == Completed
    ensures Tiles(RefineFrom(rule, f, xmin, dx, i, n, maxError, fuel).leaves, Nth(xmin, dx, i), Nth(xmin, dx, n))
    decreases n - i
  {
    var x := Nth(xmin, dx, i);
    NthNext(xmin, dx, i);
    RefineTiles(rule, f, x, x + dx, maxError, fuel);
    if i + 1 < n {
      RefineFromTiles(rule, f, xmin, dx, i + 1, n, maxError, fuel);
      TilesAppend(Refine(rule, f, x, x + dx, maxError, fuel).leaves,
                  RefineFrom(rule, f, xmin, dx, i + 1, n, maxError, fuel).leaves,
                  x, x + dx, Nth(xmin, dx, n));
    } else {
      assert RefineFrom(rule, f, xmin, dx, i + 1, n, maxError, fuel).leaves == [];
      assert RefineFrom(rule, f, xmin, dx, i, n, maxError, fuel).leaves == Refine(rule, f, x, x + dx, maxError, fuel).leaves;
    }
  }

  /** In exact arithmetic the last base slice ends at xmax. */
  lemma LastSliceEndsAtXmax(xmin: real, xmax: real, n: nat)
    requires n > 0
    ensures Nth(xmin, (xmax - xmin) / n as real, n) == xmax
  {
    var dx := (xmax - xmin) / n as real;
    assert n as real * dx == xmax - xmin;
  }

  /**
   * When the refinement of every base slice completes, the accepted slices
   * tile [xmin, xmax] exactly.
   */
  lemma SliceRunTiles(rule: Coarse, f: real -> real, xmin: real, xmax: real, intervals: int, maxError: real, fuel: nat)
    requires xmin < xmax && intervals > 0
    requires SliceRun(rule, f, xmin, xmax, intervals, maxError, fuel).status == Completed
    ensures Tiles(SliceRun(rule, f, xmin, xmax, intervals, maxError, fuel).leaves, xmin, xmax)
  {
    var dx := (xmax - xmin) / intervals as real;
    assert dx > 0.0;
    LastSliceEndsAtXmax(xmin, xmax, intervals);
    RefineFromTiles(rule, f, xmin, dx, 0, intervals, maxError, fuel);
  }

  /** `integrate_adaptive_midpoint`: one `slice_area` per base slice, advancing x by dx. */
  method Integrate(f: real -> real, xmin: real, xmax: real, intervals: int, maxError: real, fuel: nat) returns (r: Outcome)
    ensures r == Integral(f, xmin, xmax, intervals, maxError, fuel)
  {
    if intervals == 0 {
      return Fail(DivisionByZero);
    }
    var dx := (xmax - xmin) / intervals as real;
    var total := 0.0;
    var x := xmin;
    var n := BaseSlices(intervals);
    for i := 0 to n
      invariant x == Nth(xmin, dx, i)
      invariant Integral(f, xmin, xmax, intervals, maxError, fuel) == Add(total, SumFrom(f, xmin, dx, i, n, maxError, fuel))
    {
      var s := SliceArea(f, x, x + dx, maxError, fuel);
      if s.Fail? {
        return s;
      }
      total := total + s.value;
      NthNext(xmin, dx, i);
      x := x + dx;
    }
    return Done(total);
  }
}
