/** The numerical integration of lab3/zad1 over exact reals: the left-rectangle loop, the split
    of the unit interval into `k` slices, and how far the result can be from the integral. */
module Integrator {

  // ---------------------------------------------------------------- the integrand

  lemma Product(a: real, b: real, c: real)
    requires 0.0 <= a && b <= c
    ensures a * b <= a * c
  {
  }

  /** The function integrated over [0, 1]. */
  function Integrand(x: real): real {
    assert x * x >= 0.0;
    4.0 / (x * x + 1.0)
  }

  /** The function is four over one plus the square. */
  lemma IntegrandIs(x: real)
    ensures Integrand(x) * (x * x + 1.0) == 4.0
  {
    assert x * x >= 0.0;
  }

  lemma Quotient(a: real, b: real)
    requires 0.0 < a <= b
    ensures 0.0 < 4.0 / b <= 4.0 / a
  {
    var q := 4.0 / b;
    assert q * b == 4.0;
    assert q > 0.0;
    Product(q, a, b);
    assert (4.0 / a) * a == 4.0;
    if q > 4.0 / a {
      Product(a, 4.0 / a, q);
    }
  }

  /** The integrand is positive and decreasing, and at most four. */
  lemma IntegrandDecreases(x: real, y: real)
    requires 0.0 <= x <= y
    ensures 0.0 < Integrand(y) <= Integrand(x) <= 4.0
  {
    Product(x, x, y);
    Product(y, x, y);
    Product(x, 0.0, x);
    var a, b := x * x + 1.0, y * y + 1.0;
    Quotient(a, b);
    Quotient(1.0, a);
    assert 4.0 / 1.0 == 4.0;
  }

  // ---------------------------------------------------------------- the loop

  function Area(height: real, width: real): real {
    height * width
  }

  lemma WiderIsLarger(height: real, a: real, b: real)
    requires 0.0 <= height && a <= b
    ensures Area(height, a) <= Area(height, b)
  {
    Product(height, a, b);
  }

  lemma HigherIsLarger(a: real, b: real, width: real)
    requires a <= b && 0.0 <= width
    ensures Area(a, width) <= Area(b, width)
  {
    Product(width, a, b);
  }

  /** The left edge of rectangle `n`. */
  function Point(start: real, dx: real, n: int): real {
    start + Area(n as real, dx)
  }

  lemma NextPoint(start: real, dx: real, n: int)
    ensures Point(start, dx, n + 1) == Point(start, dx, n) + dx
    ensures Point(start, dx, 0) == start
  {
    assert (n + 1) as real == n as real + 1.0;
  }

  lemma PointsInOrder(start: real, dx: real, m: int, n: int)
    requires m <= n && dx > 0.0
    ensures Point(start, dx, m) <= Point(start, dx, n)
  {
    HigherIsLarger(m as real, n as real, dx);
  }

  /** The number of rectangles: how often `dx` has to be added to `start` to reach `end`. */
  function Steps(start: real, end: real, dx: real): nat
    requires dx > 0.0
  {
    var n := -((start - end) / dx).Floor;
    if n > 0 then n else 0
  }

  /** `c` is the least whole number of steps of width `dx` that covers `width`. */
  lemma Cover(width: real, dx: real, c: int)
    requires dx > 0.0
    requires c == -(-width / dx).Floor
    ensures Area(c as real - 1.0, dx) < width <= Area(c as real, dx)
  {
    var q := -width / dx;
    assert q * dx == -width;
    var r := -q;
    assert Area(r, dx) == width;
    assert c as real == -(q.Floor as real);
    assert c as real - 1.0 < r <= c as real;
    HigherIsLarger(r, c as real, dx);
    StrictlyHigher(c as real - 1.0, r, dx);
  }

  lemma StrictlyHigher(a: real, b: real, width: real)
    requires a < b && 0.0 < width
    ensures Area(a, width) < Area(b, width)
  {
    assert (b - a) * width > 0.0;
  }

  lemma StepsReach(start: real, end: real, dx: real)
    requires dx > 0.0
    ensures start >= end ==> Steps(start, end, dx) == 0
    ensures start < end ==>
              var n := Steps(start, end, dx);
              0 < n && Point(start, dx, n - 1) < end <= Point(start, dx, n)
  {
    hide Area;
    var c := -((start - end) / dx).Floor;
    assert -(end - start) == start - end;
    Cover(end - start, dx, c);
    HasNoWidth(dx);
    if c > 0 {
      HigherIsLarger(0.0, c as real - 1.0, dx);
      assert (c - 1) as real == c as real - 1.0;
    } else {
      HigherIsLarger(c as real, 0.0, dx);
    }
  }

  lemma HasNoWidth(dx: real)
    ensures Area(0.0, dx) == 0.0
  {
  }

  lemma StepsAreExact(start: real, end: real, dx: real, n: nat)
    requires dx > 0.0 && n <= Steps(start, end, dx)
    ensures n < Steps(start, end, dx) <==> Point(start, dx, n) < end
  {
    hide Steps, Point;
    StepsReach(start, end, dx);
    NextPoint(start, dx, 0);
    if n < Steps(start, end, dx) {
      PointsInOrder(start, dx, n, Steps(start, end, dx) - 1);
    }
  }

  /** The sum of the first `n` rectangles, each as high as the integrand at its left edge. */
  function LeftSum(start: real, dx: real, n: nat): real {
    if n == 0 then 0.0
    else LeftSum(start, dx, n - 1) + Area(Integrand(Point(start, dx, n - 1)), dx)
  }

  /** The left-rectangle loop stops after `Steps` rectangles with their sum. */
  method RectangularIntegration(start: real, end: real, dx: real) returns (result: real)
    requires dx > 0.0
    ensures result == LeftSum(start, dx, Steps(start, end, dx))
  {
    hide Steps, Point, Integrand;
    result := 0.0;
    var x := start;
    ghost var n: nat := 0;
    NextPoint(start, dx, 0);
    StepsAreExact(start, end, dx, 0);
    while x < end
      invariant n <= Steps(start, end, dx) && x == Point(start, dx, n)
      invariant n < Steps(start, end, dx) <==> x < end
      invariant result == LeftSum(start, dx, n)
      decreases Steps(start, end, dx) - n
    {
      result := result + Integrand(x) * dx;
      x := x + dx;
      NextPoint(start, dx, n);
      n := n + 1;
      StepsAreExact(start, end, dx, n);
    }
  }

  // ---------------------------------------------------------------- the slices

  /** The left edge of slice `i` when the unit interval is split into `k`. */
  function Edge(i: nat, k: nat): real
    requires k > 0
  {
    Area(i as real, 1.0 / k as real)
  }

  /** The slices are all equally wide and `k` of them make the unit interval. */
  lemma SlicesAreEqual(i: nat, k: nat)
    requires k > 0
    ensures Edge(i, k) * k as real == i as real
    ensures (Edge(i + 1, k) - Edge(i, k)) * k as real == 1.0
  {
    var w := 1.0 / k as real;
    assert w * k as real == 1.0;
    Regroup(i as real, w, k as real);
    Regroup((i + 1) as real, w, k as real);
  }

  lemma Regroup(a: real, b: real, c: real)
    ensures Area(a, b) * c == a * (b * c)
  {
  }

  function Partial(i: nat, k: nat, dx: real): real
    requires k > 0 && dx > 0.0
  {
    LeftSum(Edge(i, k), dx, Steps(Edge(i, k), Edge(i + 1, k), dx))
  }

  /** The sum of the first `n` partial results, in the order of the slices. */
  function SplitSum(n: nat, k: nat, dx: real): real
    requires k > 0 && dx > 0.0
  {
    if n == 0 then 0.0 else SplitSum(n - 1, k, dx) + Partial(n - 1, k, dx)
  }

  /** The work of process `i`: its frame and its part of the integral. */
  method IntegrateSlice(i: nat, k: nat, dx: real) returns (partialSum: real)
    requires k > 0 && dx > 0.0
    ensures partialSum == Partial(i, k, dx)
  {
    hide LeftSum, Steps, Integrand, Point;
    var sliceWidth := 1.0 / k as real;
    var startX := i as real * sliceWidth;
    var endX := (i + 1) as real * sliceWidth;
    assert startX == Edge(i, k) && endX == Edge(i + 1, k);
    hide Edge, Area;
    partialSum := RectangularIntegration(startX, endX, dx);
  }

  /** One round: the partial results of `k` processes, collected in order. */
  method IntegrateWith(k: nat, dx: real) returns (totalSum: real)
    requires k > 0 && dx > 0.0
    ensures totalSum == SplitSum(k, k, dx)
  {
    totalSum := 0.0;
    for i := 0 to k
      invariant totalSum == SplitSum(i, k, dx)
    {
      var partialSum := IntegrateSlice(i, k, dx);
      totalSum := totalSum + partialSum;
    }
  }

  /** The width that zero stands for. */
  const DEFAULT_DX := 0.000000001

  datatype Outcome = Rejected | Results(totals: seq<real>)

  /** The program: a negative width and a number of processes that is not positive are
      rejected, a width of zero stands for the default, and then there is one result for
      every number of processes from one to `n`. */
  method IntegrateForEach(dx: real, n: int) returns (r: Outcome)
    ensures r.Rejected? <==> dx < 0.0 || n <= 0
    ensures r.Results? ==>
              && |r.totals| == n
              && forall k :: 0 <= k < n ==> r.totals[k] == SplitSum(k + 1, k + 1, if dx == 0.0 then 0.000000001 else dx)
  {
    if dx < 0.0 || n <= 0 {
      return Rejected;
    }
    var width := if dx == 0.0 then DEFAULT_DX else dx;
    var totals := [];
    for k := 1 to n + 1
      invariant |totals| == k - 1
      invariant forall j :: 0 <= j < k - 1 ==> totals[j] == SplitSum(j + 1, j + 1, width)
    {
      var totalSum := IntegrateWith(k, width);
      totals := totals + [totalSum];
    }
    r := Results(totals);
  }

  // ---------------------------------------------------------------- error bound

  /** Over any stretch of [0, top], `G` grows by at least the rectangle of the integrand's
      height at the right end. */
  ghost predicate AboveLower(G: real -> real, top: real) {
    forall x, y {:trigger G(x), G(y)} :: 0.0 <= x <= y <= top ==> Area(Integrand(y), y - x) <= G(y) - G(x)
  }

  /** Over any stretch of [0, top], `G` grows by at most the rectangle of the integrand's
      height at the left end. */
  ghost predicate BelowUpper(G: real -> real, top: real) {
    forall x, y {:trigger G(x), G(y)} :: 0.0 <= x <= y <= top ==> G(y) - G(x) <= Area(Integrand(x), y - x)
  }

  /** `G` grows over [0, 1] like an integral of the integrand. */
  ghost predicate Primitive(G: real -> real) {
    AboveLower(G, 1.0) && BelowUpper(G, 1.0)
  }

  lemma GrowsByLower(G: real -> real, top: real, x: real, y: real)
    requires AboveLower(G, top) && 0.0 <= x <= y <= top
    ensures Area(Integrand(y), y - x) <= G(y) - G(x)
    ensures 0.0 <= G(y) - G(x)
  {
    hide Integrand;
    IntegrandDecreases(x, y);
    WiderIsLarger(Integrand(y), 0.0, y - x);
  }

  lemma GrowsByUpper(G: real -> real, top: real, x: real, y: real)
    requires BelowUpper(G, top) && 0.0 <= x <= y <= top
    ensures G(y) - G(x) <= Area(Integrand(x), y - x)
  {
    hide Integrand;
  }

  /** Whole rectangles exceed the growth by no more than the first one exceeds the next one:
      the errors telescope. */
  lemma {:induction false} RectanglesExcess(G: real -> real, top: real, start: real, dx: real, n: nat)
    requires AboveLower(G, top) && 0.0 <= start && dx > 0.0 && Point(start, dx, n) <= top
    ensures start <= Point(start, dx, n)
    ensures LeftSum(start, dx, n) - (G(Point(start, dx, n)) - G(start))
         <= Area(Integrand(start), dx) - Area(Integrand(Point(start, dx, n)), dx)
  {
    hide Integrand, AboveLower, Point, Area;
    NextPoint(start, dx, n - 1);
    if n > 0 {
      RectanglesExcess(G, top, start, dx, n - 1);
      GrowsByLower(G, top, Point(start, dx, n - 1), Point(start, dx, n));
    }
  }

  /** Whole rectangles cover the growth. */
  lemma {:induction false} RectanglesCover(G: real -> real, top: real, start: real, dx: real, n: nat)
    requires BelowUpper(G, top) && 0.0 <= start && dx > 0.0 && Point(start, dx, n) <= top
    ensures start <= Point(start, dx, n)
    ensures G(Point(start, dx, n)) - G(start) <= LeftSum(start, dx, n)
  {
    hide Integrand, BelowUpper, Point, Area;
    NextPoint(start, dx, n - 1);
    if n > 0 {
      RectanglesCover(G, top, start, dx, n - 1);
      GrowsByUpper(G, top, Point(start, dx, n - 1), Point(start, dx, n));
    }
  }

  /** A slice exceeds the growth by no more than one rectangle at its left edge, although its
      last rectangle may reach past its end. */
  lemma SliceExcess(G: real -> real, start: real, end: real, dx: real)
    requires AboveLower(G, end) && 0.0 <= start <= end && dx > 0.0
    ensures LeftSum(start, dx, Steps(start, end, dx)) - (G(end) - G(start)) <= Area(Integrand(start), dx)
  {
    hide Integrand, AboveLower, Point, Steps, Area;
    StepsReach(start, end, dx);
    IntegrandDecreases(start, end);
    var n := Steps(start, end, dx);
    if n > 0 {
      RectanglesExcess(G, end, start, dx, n - 1);
      GrowsByLower(G, end, Point(start, dx, n - 1), end);
    } else {
      HigherIsLarger(0.0, Integrand(start), dx);
      HasNoWidth(dx);
    }
  }

  /** A slice covers the growth. */
  lemma SliceCover(G: real -> real, start: real, end: real, dx: real)
    requires BelowUpper(G, end) && 0.0 <= start <= end && dx > 0.0
    ensures G(end) - G(start) <= LeftSum(start, dx, Steps(start, end, dx))
  {
    hide Integrand, BelowUpper, Point, Steps, Area;
    StepsReach(start, end, dx);
    var n := Steps(start, end, dx);
    if n > 0 {
      var y := Point(start, dx, n - 1);
      NextPoint(start, dx, n - 1);
      RectanglesCover(G, end, start, dx, n - 1);
      GrowsByUpper(G, end, y, end);
      IntegrandDecreases(y, end);
      WiderIsLarger(Integrand(y), end - y, dx);
    }
  }

  lemma EdgesInOrder(i: nat, k: nat)
    requires k > 0
    ensures 0.0 <= Edge(i, k) <= Edge(i + 1, k)
    ensures Edge(0, k) == 0.0 && Edge(k, k) == 1.0
  {
    var w := 1.0 / k as real;
    assert w * k as real == 1.0;
    assert w > 0.0;
    HigherIsLarger(0.0, i as real, w);
    HigherIsLarger(i as real, (i + 1) as real, w);
  }

  lemma Narrower(G: real -> real, top: real, lower: real)
    requires lower <= top
    ensures AboveLower(G, top) ==> AboveLower(G, lower)
    ensures BelowUpper(G, top) ==> BelowUpper(G, lower)
  {
    hide Integrand, Area;
  }

  /** The excess of the first `n` slices: at most a rectangle of height four for each. */
  lemma {:induction false} SlicesExcess(G: real -> real, n: nat, k: nat, dx: real)
    requires 0 < k && dx > 0.0 && AboveLower(G, Edge(n, k))
    ensures SplitSum(n, k, dx) - (G(Edge(n, k)) - G(0.0)) <= Area(n as real, 4.0 * dx)
  {
    hide Integrand, AboveLower, Edge, LeftSum, Steps, Area;
    EdgesInOrder(0, k);
    if n == 0 {
      HasNoWidth(4.0 * dx);
    } else {
      EdgesInOrder(n - 1, k);
      Narrower(G, Edge(n, k), Edge(n - 1, k));
      SlicesExcess(G, n - 1, k, dx);
      SliceExcess(G, Edge(n - 1, k), Edge(n, k), dx);
      IntegrandDecreases(0.0, Edge(n - 1, k));
      HigherIsLarger(Integrand(Edge(n - 1, k)), 4.0, dx);
      OneMore(n, dx);
    }
  }

  lemma {:induction false} SlicesCover(G: real -> real, n: nat, k: nat, dx: real)
    requires 0 < k && dx > 0.0 && BelowUpper(G, Edge(n, k))
    ensures G(Edge(n, k)) - G(0.0) <= SplitSum(n, k, dx)
  {
    hide Integrand, BelowUpper, Edge, LeftSum, Steps, Area;
    EdgesInOrder(0, k);
    if n > 0 {
      EdgesInOrder(n - 1, k);
      Narrower(G, Edge(n, k), Edge(n - 1, k));
      SlicesCover(G, n - 1, k, dx);
      SliceCover(G, Edge(n - 1, k), Edge(n, k), dx);
    }
  }

  lemma OneMore(n: nat, dx: real)
    requires n > 0
    ensures Area(n as real, 4.0 * dx) == Area((n - 1) as real, 4.0 * dx) + Area(4.0, dx)
  {
    assert n as real == (n - 1) as real + 1.0;
  }

  /** The result for any number of processes overestimates the integral over [0, 1], by at
      most four times `dx` for each process. */
  lemma SplitError(G: real -> real, k: nat, dx: real)
    requires Primitive(G) && 0 < k && dx > 0.0
    ensures 0.0 <= SplitSum(k, k, dx) - (G(1.0) - G(0.0)) <= k as real * (4.0 * dx)
  {
    hide SplitSum, AboveLower, BelowUpper, Edge;
    EdgesInOrder(0, k);
    SlicesCover(G, k, k, dx);
    SlicesExcess(G, k, k, dx);
  }

  // ---------------------------------------------------------------- agreement of two results

  /** One more step of a staircase over the integrand. */
  lemma OneStair(G: real -> real, c: real, d: real) returns (stairs: real -> real)
    requires AboveLower(G, c) && 0.0 <= c <= d
    ensures AboveLower(stairs, d)
    ensures stairs(0.0) == G(0.0) && stairs(d) == G(c) + Area(Integrand(c), d - c)
  {
    stairs := x => if x <= c then G(x) else G(c) + Area(Integrand(c), x - c);
    hide Integrand;
    forall x, y | 0.0 <= x <= y <= d
      ensures Area(Integrand(y), y - x) <= stairs(y) - stairs(x)
    {
      if y > c {
        IntegrandDecreases(c, y);
        HigherIsLarger(Integrand(y), Integrand(c), y - x);
        if x <= c {
          assert Area(Integrand(c), c - x) <= G(c) - G(x);
        }
        AdjacentAreas(Integrand(c), x, c, y);
      }
    }
  }

  lemma AdjacentAreas(height: real, x: real, c: real, y: real)
    ensures Area(height, y - x) == Area(height, c - x) + Area(height, y - c)
    ensures Area(height, y - x) == Area(height, y - c) - Area(height, x - c)
  {
  }

  /** The rectangles of a slice, cut off at its end, are a staircase over the integrand. */
  lemma {:induction false} SliceStairs(G: real -> real, start: real, end: real, dx: real, n: nat)
    returns (stairs: real -> real)
    requires AboveLower(G, start) && 0.0 <= start <= end && dx > 0.0 && n <= Steps(start, end, dx)
    ensures var top := if Point(start, dx, n) < end then Point(start, dx, n) else end;
            && start <= top && AboveLower(stairs, top) && stairs(0.0) == G(0.0)
            && stairs(top) <= G(start) + LeftSum(start, dx, n)
  {
    hide AboveLower, Integrand, Point, Steps, Area;
    if n == 0 {
      NextPoint(start, dx, 0);
      stairs := G;
    } else {
      var before := SliceStairs(G, start, end, dx, n - 1);
      StepsAreExact(start, end, dx, n - 1);
      var c := Point(start, dx, n - 1);
      NextPoint(start, dx, n - 1);
      var d := if Point(start, dx, n) < end then Point(start, dx, n) else end;
      stairs := OneStair(before, c, d);
      IntegrandDecreases(c, c);
      WiderIsLarger(Integrand(c), d - c, dx);
    }
  }

  /** The staircase of a whole split rises by no more than its result. */
  lemma {:induction false} SplitStairs(n: nat, k: nat, dx: real) returns (stairs: real -> real)
    requires 0 < k && dx > 0.0
    ensures AboveLower(stairs, Edge(n, k))
    ensures stairs(0.0) == 0.0 && stairs(Edge(n, k)) <= SplitSum(n, k, dx)
  {
    EdgesInOrder(0, k);
    if n == 0 {
      stairs := x => 0.0;
    } else {
      hide AboveLower, Edge, Point, Steps, LeftSum;
      EdgesInOrder(n - 1, k);
      var start, end := Edge(n - 1, k), Edge(n, k);
      var before := SplitStairs(n - 1, k, dx);
      var last := Steps(start, end, dx);
      stairs := SliceStairs(before, start, end, dx, last);
      StepsReach(start, end, dx);
      NextPoint(start, dx, 0);
    }
  }

  /** The rectangles of one split, taken at their right ends, lie below those of any other. */
  lemma ResultBelow(j: nat, width: real, k: nat, dx: real)
    requires 0 < j && width > 0.0 && 0 < k && dx > 0.0
    ensures SplitSum(j, j, width) - SplitSum(k, k, dx) <= j as real * (4.0 * width)
  {
    hide AboveLower, Edge, SplitSum;
    var stairs := SplitStairs(k, k, dx);
    EdgesInOrder(0, k);
    EdgesInOrder(0, j);
    SlicesExcess(stairs, j, j, width);
  }

  /** The results for any two numbers of processes and any two widths agree: neither exceeds
      the other by more than four times its own width for each of its own processes. */
  lemma ResultsAgree(j: nat, width: real, k: nat, dx: real)
    requires 0 < j && width > 0.0 && 0 < k && dx > 0.0
    ensures -(k as real * (4.0 * dx)) <= SplitSum(j, j, width) - SplitSum(k, k, dx) <= j as real * (4.0 * width)
  {
    hide SplitSum;
    ResultBelow(j, width, k, dx);
    ResultBelow(k, dx, j, width);
  }

  // ---------------------------------------------------------------- the number itself

  /** The width of one of twenty-five rectangles. */
  const WIDTH := 0.04

  lemma PointAt(i: nat)
    ensures Point(0.0, WIDTH, i) * 25.0 == i as real
  {
  }

  lemma Scaled(x: real, h: real, i: nat)
    requires x * 25.0 == i as real && h * (x * x + 1.0) == 4.0
    ensures 1_000_000.0 * h * (625 + i * i) as real == 2_500_000_000.0
  {
    assert (x * 25.0) * (x * 25.0) == (i * i) as real;
    assert (625 + i * i) as real == 625.0 * (x * x + 1.0);
    assert h * (625.0 * (x * x + 1.0)) == 625.0 * (h * (x * x + 1.0));
  }

  lemma Squeeze(v: real, q: int, b: int, product: int)
    requires b > 0 && q * b <= product <= (q + 1) * b && v * b as real == product as real
    ensures q as real <= v <= q as real + 1.0
  {
    if v < q as real {
      StrictlyHigher(v, q as real, b as real);
    } else if v > q as real + 1.0 {
      StrictlyHigher(q as real + 1.0, v, b as real);
    }
  }

  /** The first `n` rectangles are `sum` millionths high altogether, each rounded down. */
  ghost predicate HeightsAre(n: nat, sum: nat) {
    sum as real <= 25_000_000.0 * LeftSum(0.0, WIDTH, n) <= (sum + n) as real
  }

  /** Rectangle `i` is `q` millionths high, rounded down. */
  lemma Row(i: nat, q: nat, sum: nat)
    requires q * (625 + i * i) <= 2_500_000_000 <= (q + 1) * (625 + i * i)
    requires HeightsAre(i, sum)
    ensures HeightsAre(i + 1, sum + q)
  {
    var x, h := Point(0.0, WIDTH, i), Integrand(Point(0.0, WIDTH, i));
    PointAt(i);
    IntegrandIs(x);
    hide Point, Integrand;
    Scaled(x, h, i);
    Squeeze(1_000_000.0 * h, q, 625 + i * i, 2_500_000_000);
    assert LeftSum(0.0, WIDTH, i + 1) == LeftSum(0.0, WIDTH, i) + h * WIDTH;
  }

  lemma TwentyFiveRows()
    ensures HeightsAre(25, 79_533_136)
  {
    assert HeightsAre(0, 0);
    hide HeightsAre;
    Row(0, 4_000_000, 0);
    Row(1, 3_993_610, 4_000_000);
    Row(2, 3_974_562, 7_993_610);
    Row(3, 3_943_217, 11_968_172);
    Row(4, 3_900_156, 15_911_389);
    Row(5, 3_846_153, 19_811_545);
    Row(6, 3_782_148, 23_657_698);
    Row(7, 3_709_198, 27_439_846);
    Row(8, 3_628_447, 31_149_044);
    Row(9, 3_541_076, 34_777_491);
    Row(10, 3_448_275, 38_318_567);
    Row(11, 3_351_206, 41_766_842);
    Row(12, 3_250_975, 45_118_048);
    Row(13, 3_148_614, 48_369_023);
    Row(14, 3_045_066, 51_517_637);
    Row(15, 2_941_176, 54_562_703);
    Row(16, 2_837_684, 57_503_879);
    Row(17, 2_735_229, 60_341_563);
    Row(18, 2_634_351, 63_076_792);
    Row(19, 2_535_496, 65_711_143);
    Row(20, 2_439_024, 68_246_639);
    Row(21, 2_345_215, 70_685_663);
    Row(22, 2_254_283, 73_030_878);
    Row(23, 2_166_377, 75_285_161);
    Row(24, 2_081_598, 77_451_538);
  }

  lemma TwentyFiveRectangles()
    ensures 3.1813 < LeftSum(0.0, WIDTH, 25) < 3.1814
  {
    TwentyFiveRows();
    hide LeftSum;
  }

  lemma TwentyFiveSteps()
    ensures Steps(0.0, 1.0, WIDTH) == 25
    ensures SplitSum(1, 1, WIDTH) == LeftSum(0.0, WIDTH, 25)
  {
    hide Integrand, LeftSum;
    EdgesInOrder(0, 1);
    assert (0.0 - 1.0) / WIDTH == -25.0;
    assert SplitSum(0, 1, WIDTH) == 0.0;
  }

  /** The heights at the two ends. */
  lemma EndHeights()
    ensures Integrand(0.0) == 4.0 && Integrand(1.0) == 2.0
  {
    IntegrandIs(0.0);
    IntegrandIs(1.0);
    hide Integrand;
  }

  /** The result is the number that the program is for: more than 3.1, and less than 3.2 and the
      excess that the width and the number of processes allow. */
  lemma ResultIs(k: nat, dx: real)
    requires 0 < k && dx > 0.0
    ensures 3.1 < SplitSum(k, k, dx) < 3.2 + k as real * (4.0 * dx)
  {
    TwentyFiveRectangles();
    TwentyFiveSteps();
    PointAt(25);
    EndHeights();
    EdgesInOrder(0, 1);
    EdgesInOrder(0, k);
    hide AboveLower, Edge, SplitSum, LeftSum, Integrand, Point, Steps;
    ResultBelow(k, dx, 1, WIDTH);
    var stairs := SplitStairs(k, k, dx);
    RectanglesExcess(stairs, 1.0, 0.0, WIDTH, 25);
  }
}
