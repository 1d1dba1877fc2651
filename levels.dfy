/** Supports, resistances and other relevant price levels
    (quantfinance/analysis/levels.py). */
module Levels {
  import opened Common

  datatype PriceLevels = PriceLevels(
    supports: seq<real>,
    resistances: seq<real>,
    roundNumbers: seq<real>,
    historicalMin: real,
    historicalMax: real,
    rollingMin52w: Option<real>,
    rollingMax52w: Option<real>)

  // ---------------------------------------------------------------------
  // Local extrema (scipy's argrelextrema with a non-strict comparator)

  /** `np.less_equal` finds supports, `np.greater_equal` resistances. */
  datatype Comparator = LessEqual | GreaterEqual

  predicate Holds(cmp: Comparator, a: real, b: real)
  {
    match cmp
    case LessEqual => a <= b
    case GreaterEqual => a >= b
  }

  /** Position i compares (non-strictly) to every value within `order`
      positions; with mode "clip" a shifted index past either end lands on
      the end value, which is itself inside that window. */
  predicate IsExtremum(xs: seq<real>, order: nat, i: nat, cmp: Comparator)
    requires i < |xs|
  {
    forall j :: 0 <= j < |xs| && i - order <= j <= i + order ==> Holds(cmp, xs[i], xs[j])
  }

  /** The indices below n that are extrema, ascending. */
  function ExtremaIndices(xs: seq<real>, order: nat, cmp: Comparator, n: nat): (r: seq<nat>)
    requires n <= |xs|
    ensures forall k :: 0 <= k < |r| ==> r[k] < n && IsExtremum(xs, order, r[k], cmp)
    ensures forall k, l :: 0 <= k < l < |r| ==> r[k] < r[l]
    ensures forall i :: 0 <= i < n && IsExtremum(xs, order, i, cmp) ==> i in r
  {
    if n == 0 then []
    else
      ExtremaIndices(xs, order, cmp, n - 1) + (if IsExtremum(xs, order, n - 1, cmp) then [n - 1] else [])
  }

  /** `_detect_extrema`: the series values at the extrema, in series order. */
  function DetectExtrema(xs: seq<real>, order: nat, cmp: Comparator): (r: seq<real>)
    requires order >= 1
    ensures var idx := ExtremaIndices(xs, order, cmp, |xs|);
            |r| == |idx| && forall k :: 0 <= k < |r| ==> r[k] == xs[idx[k]]
  {
    var idx := ExtremaIndices(xs, order, cmp, |xs|);
    seq(|idx|, k requires 0 <= k < |idx| => xs[idx[k]])
  }

  /** `detect_local_levels`: (supports, resistances). */
  function DetectLocalLevels(xs: seq<real>, order: nat): (seq<real>, seq<real>)
    requires order >= 1
  {
    (DetectExtrema(xs, order, LessEqual), DetectExtrema(xs, order, GreaterEqual))
  }

  /** Every support is at most, and every resistance at least, each value
      within `order` positions of it; and every such position is reported. */
  lemma LocalLevelsSound(xs: seq<real>, order: nat, k: nat, j: nat)
    requires order >= 1 && j < |xs|
    ensures var (sup, _) := DetectLocalLevels(xs, order);
            var idx := ExtremaIndices(xs, order, LessEqual, |xs|);
            k < |sup| && idx[k] - order <= j <= idx[k] + order ==> sup[k] <= xs[j]
    ensures var (_, res) := DetectLocalLevels(xs, order);
            var idx := ExtremaIndices(xs, order, GreaterEqual, |xs|);
            k < |res| && idx[k] - order <= j <= idx[k] + order ==> res[k] >= xs[j]
  {
  }

  function Range(n: nat): (r: seq<nat>)
    ensures |r| == n && forall i :: 0 <= i < n ==> r[i] == i
  {
    if n == 0 then [] else Range(n - 1) + [n - 1]
  }

  /** On a plateau every position passes both comparisons. */
  lemma {:induction false} ConstantAllExtrema(xs: seq<real>, order: nat, cmp: Comparator, n: nat, c: real)
    requires n <= |xs| && forall i :: 0 <= i < |xs| ==> xs[i] == c
    ensures ExtremaIndices(xs, order, cmp, n) == Range(n)
  {
    if n > 0 {
      ConstantAllExtrema(xs, order, cmp, n - 1, c);
      assert IsExtremum(xs, order, n - 1, cmp);
    }
  }

  /** Because the comparison is non-strict, a flat series reports every
      bar as both a support and a resistance (repeated values). */
  lemma FlatSeriesLevels(xs: seq<real>, order: nat, c: real)
    requires order >= 1 && forall i :: 0 <= i < |xs| ==> xs[i] == c
    ensures DetectLocalLevels(xs, order) == (xs, xs)
  {
    ConstantAllExtrema(xs, order, LessEqual, |xs|, c);
    ConstantAllExtrema(xs, order, GreaterEqual, |xs|, c);
    var (sup, res) := DetectLocalLevels(xs, order);
    assert |sup| == |xs| && forall k :: 0 <= k < |xs| ==> sup[k] == xs[Range(|xs|)[k]];
    assert sup == xs;
    assert |res| == |xs| && forall k :: 0 <= k < |xs| ==> res[k] == xs[Range(|xs|)[k]];
    assert res == xs;
  }

  // ---------------------------------------------------------------------
  // Round numbers

  /** `start + i * step` for i in range(2*width + 1), where start is
      (center // step - width) * step. */
  function RoundNumberLadder(center: real, step: real, width: nat): (r: seq<real>)
    requires step > 0.0
  {
    var start := ((center / step).Floor - width) as real * step;
    seq(2 * width + 1, i requires 0 <= i < 2 * width + 1 => start + i as real * step)
  }

  /** `detect_round_numbers` around the mean of the series. */
  function DetectRoundNumbers(xs: seq<real>, step: real, width: nat): (r: seq<real>)
    requires |xs| > 0 && step > 0.0
  {
    RoundNumberLadder(Mean(xs), step, width)
  }

  lemma FloorBracket(x: real, step: real, m: real)
    requires step > 0.0 && m == (x / step).Floor as real * step
    ensures m <= x < m + step
  {
    var q := x / step;
    assert q * step == x;
    var f := q.Floor as real;
    assert f <= q < f + 1.0;
    MulNonNegative(q - f, step);
    MulPositive(f + 1.0 - q, step);
  }

  lemma MulNonNegative(a: real, b: real)
    requires a >= 0.0 && b >= 0.0
    ensures a * b >= 0.0
  {
  }

  lemma MulPositive(a: real, b: real)
    requires a > 0.0 && b > 0.0
    ensures a * b > 0.0
  {
  }

  /** Exactly 2*width + 1 values, ascending in steps of `step`, whose middle
      value is the multiple of `step` just at or below the center. */
  lemma RoundNumberLadderShape(center: real, step: real, width: nat)
    requires step > 0.0
    ensures var r := RoundNumberLadder(center, step, width);
            |r| == 2 * width + 1 &&
            (forall i :: 0 < i < |r| ==> r[i] == r[i - 1] + step) &&
            r[width] == (center / step).Floor as real * step &&
            r[width] <= center < r[width] + step
  {
    var r := RoundNumberLadder(center, step, width);
    var f := (center / step).Floor;
    var start := (f - width) as real * step;
    assert r[width] == start + width as real * step;
    assert start + width as real * step == f as real * step;
    forall i | 0 < i < |r| ensures r[i] == r[i - 1] + step {
      assert r[i] == start + i as real * step;
      assert r[i - 1] == start + (i - 1) as real * step;
    }
    FloorBracket(center, step, f as real * step);
  }

  // ---------------------------------------------------------------------
  // Grouping of nearby levels

  /** Inserts x into a strictly ascending sequence, unless already present. */
  function InsertDistinct(x: real, s: seq<real>): (r: seq<real>)
    requires StrictlyIncreasing(s)
    ensures StrictlyIncreasing(r)
    ensures forall y :: y in r <==> y == x || y in s
    ensures |r| <= |s| + 1
  {
    if |s| == 0 then [x]
    else if x < s[0] then [x] + s
    else if x == s[0] then s
    else
      var t := InsertDistinct(x, s[1..]);
      forall k | 0 <= k < |t| ensures s[0] < t[k] {
        assert t[k] in t;
        if t[k] != x {
          var j :| 0 <= j < |s[1..]| && s[1..][j] == t[k];
          assert s[j + 1] == t[k];
        }
      }
      [s[0]] + t
  }

  /** `sorted(set(levels))`. */
  function SortedSet(xs: seq<real>): (r: seq<real>)
    ensures StrictlyIncreasing(r)
    ensures forall y :: y in r <==> y in xs
    ensures |r| <= |xs|
  {
    if |xs| == 0 then []
    else InsertDistinct(xs[|xs| - 1], SortedSet(xs[..|xs| - 1]))
  }

  /** A strictly ascending sequence has no repeats. */
  lemma {:induction false} DistinctCount(s: seq<real>)
    requires StrictlyIncreasing(s)
    ensures |set x | x in s| == |s|
  {
    if |s| > 0 {
      var p := s[..|s| - 1];
      DistinctCount(p);
      assert (set x | x in s) == (set x | x in p) + {s[|s| - 1]};
      assert s[|s| - 1] !in (set x | x in p);
    }
  }

  /** `abs(price - reference) / reference * 100 <= tolerance_pct`. A zero
      reference divides to an infinity or NaN and never joins. */
  predicate Joins(price: real, reference: real, tol: real)
  {
    reference != 0.0 && Abs(price - reference) / reference * 100.0 <= tol
  }

  function Last(s: seq<real>): real
    requires |s| > 0
  {
    s[|s| - 1]
  }

  function Flatten(gs: seq<seq<real>>): seq<real>
  {
    if |gs| == 0 then [] else Flatten(gs[..|gs| - 1]) + gs[|gs| - 1]
  }

  /** Adds the next level `p` to the last group when `joined`, and as a
      new group otherwise. */
  function Extend(g: seq<seq<real>>, p: real, joined: bool): (h: seq<seq<real>>)
    requires |g| > 0 && forall k :: 0 <= k < |g| ==> |g[k]| > 0
    ensures Flatten(h) == Flatten(g) + [p]
    ensures |h| == (if joined then |g| else |g| + 1)
    ensures forall k :: 0 <= k < |h| ==> |h[k]| > 0
    ensures Last(h[|h| - 1]) == p
  {
    var n := |g| - 1;
    assert g[..n + 1] == g;
    if joined then
      var h := g[..n] + [g[n] + [p]];
      assert h[..n] == g[..n];
      assert Flatten(h) == Flatten(g[..n]) + (g[n] + [p]);
      h
    else
      var h := g + [[p]];
      assert h[..n + 1] == g;
      h
  }

  /** The groups the loop builds over an ascending list: each price joins
      the current group when it is within tolerance of that group's last
      member, and opens a new group otherwise. The groups, concatenated,
      give back the list. */
  function Groups(s: seq<real>, tol: real): (g: seq<seq<real>>)
    ensures Flatten(g) == s
    ensures |g| <= |s| && (|s| > 0 <==> |g| > 0)
    ensures forall k :: 0 <= k < |g| ==> |g[k]| > 0
    ensures |s| > 0 ==> Last(g[|g| - 1]) == s[|s| - 1]
  {
    if |s| == 0 then []
    else if |s| == 1 then
      assert Flatten([[s[0]]]) == Flatten([]) + [s[0]];
      [[s[0]]]
    else
      var g := Groups(s[..|s| - 1], tol);
      assert s == s[..|s| - 1] + [s[|s| - 1]];
      Extend(g, s[|s| - 1], Joins(s[|s| - 1], Last(g[|g| - 1]), tol))
  }

  /** One step of the loop: the next sorted level either extends the last
      group or opens a new one. */
  lemma GroupsStep(s: seq<real>, tol: real)
    requires |s| >= 2
    ensures var g := Groups(s[..|s| - 1], tol);
            var p := s[|s| - 1];
            Groups(s, tol) ==
              if Joins(p, Last(g[|g| - 1]), tol) then g[..|g| - 1] + [g[|g| - 1] + [p]]
              else g + [[p]]
  {
  }

  /** Grouping is chained: inside a group each member is within tolerance
      of the one before it, and each group's first member is not within
      tolerance of the previous group's last member. */
  predicate Chained(g: seq<seq<real>>, tol: real)
    requires forall k :: 0 <= k < |g| ==> |g[k]| > 0
  {
    (forall k, a :: 0 <= k < |g| && 0 < a < |g[k]| ==> Joins(g[k][a], g[k][a - 1], tol)) &&
    (forall k :: 0 < k < |g| ==> !Joins(g[k][0], Last(g[k - 1]), tol))
  }

  lemma ChainedJoin(g: seq<seq<real>>, p: real, tol: real)
    requires |g| > 0 && (forall k :: 0 <= k < |g| ==> |g[k]| > 0) && Chained(g, tol)
    requires Joins(p, Last(g[|g| - 1]), tol)
    ensures var h := g[..|g| - 1] + [g[|g| - 1] + [p]];
            (forall k :: 0 <= k < |h| ==> |h[k]| > 0) && Chained(h, tol)
  {
    var n := |g| - 1;
    var h := g[..n] + [g[n] + [p]];
    forall k, a | 0 <= k < |h| && 0 < a < |h[k]| ensures Joins(h[k][a], h[k][a - 1], tol) {
      if k < n {
        assert h[k] == g[k];
      } else if a < |g[n]| {
        assert h[k][a] == g[n][a] && h[k][a - 1] == g[n][a - 1];
      } else {
        assert h[k][a] == p && h[k][a - 1] == Last(g[n]);
      }
    }
    forall k | 0 < k < |h| ensures !Joins(h[k][0], Last(h[k - 1]), tol) {
      assert h[k - 1] == g[k - 1] && h[k][0] == g[k][0];
    }
  }

  lemma ChainedSplit(g: seq<seq<real>>, p: real, tol: real)
    requires |g| > 0 && (forall k :: 0 <= k < |g| ==> |g[k]| > 0) && Chained(g, tol)
    requires !Joins(p, Last(g[|g| - 1]), tol)
    ensures var h := g + [[p]];
            (forall k :: 0 <= k < |h| ==> |h[k]| > 0) && Chained(h, tol)
  {
    var h := g + [[p]];
    forall k, a | 0 <= k < |h| && 0 < a < |h[k]| ensures Joins(h[k][a], h[k][a - 1], tol) {
      assert h[k] == g[k];
    }
    forall k | 0 < k < |h| ensures !Joins(h[k][0], Last(h[k - 1]), tol) {
      assert h[k - 1] == g[k - 1];
    }
  }

  lemma {:induction false} GroupsChained(s: seq<real>, tol: real)
    ensures Chained(Groups(s, tol), tol)
  {
    if |s| > 1 {
      GroupsChained(s[..|s| - 1], tol);
      GroupsChainedStep(s, tol);
    }
  }

  /** The inductive step of GroupsChained. */
  lemma GroupsChainedStep(s: seq<real>, tol: real)
    requires |s| > 1 && Chained(Groups(s[..|s| - 1], tol), tol)
    ensures Chained(Groups(s, tol), tol)
  {
    var g := Groups(s[..|s| - 1], tol);
    var p := s[|s| - 1];
    GroupsStep(s, tol);
    if Joins(p, Last(g[|g| - 1]), tol) {
      ChainedJoin(g, p, tol);
    } else {
      ChainedSplit(g, p, tol);
    }
  }

  /** `[float(np.mean(chunk)) for chunk in grouped]`. */
  function GroupMeans(gs: seq<seq<real>>): (r: seq<real>)
    requires forall k :: 0 <= k < |gs| ==> |gs[k]| > 0
    ensures |r| == |gs| && forall k :: 0 <= k < |gs| ==> r[k] == Mean(gs[k])
  {
    seq(|gs|, k requires 0 <= k < |gs| => Mean(gs[k]))
  }

  /** What `group_levels(levels, tol)` returns. */
  function Grouped(levels: seq<real>, tol: real): seq<real>
  {
    GroupMeans(Groups(SortedSet(levels), tol))
  }

  /** `group_levels`: the loop over the sorted distinct levels, appending
      to the last group or opening a new one, then one mean per group. */
  method GroupLevels(levels: seq<real>, tol: real) returns (r: seq<real>)
    ensures r == Grouped(levels, tol)
  {
    var sorted := SortedSet(levels);
    if |sorted| == 0 {
      return [];
    }
    var grouped := GroupSorted(sorted, tol);
    r := GroupMeans(grouped);
  }

  /** The grouping loop of `group_levels` over the sorted distinct levels. */
  method GroupSorted(sorted: seq<real>, tol: real) returns (grouped: seq<seq<real>>)
    requires |sorted| > 0
    ensures grouped == Groups(sorted, tol)
  {
    grouped := [[sorted[0]]];
    GroupsFirst(sorted, tol);
    var i := 1;
    while i < |sorted|
      invariant 1 <= i <= |sorted|
      invariant grouped == Groups(sorted[..i], tol)
    {
      GroupsPrefixStep(sorted, i, tol, grouped);
      grouped := AddLevel(grouped, sorted[i], tol);
      i := i + 1;
    }
    GroupsWhole(sorted, tol);
  }

  /** The body of the loop: the price joins the last group when it is
      within tolerance of that group's last member, else opens a group. */
  method AddLevel(grouped: seq<seq<real>>, price: real, tol: real) returns (next: seq<seq<real>>)
    requires |grouped| > 0 && forall k :: 0 <= k < |grouped| ==> |grouped[k]| > 0
    ensures next == Extend(grouped, price, Joins(price, Last(grouped[|grouped| - 1]), tol))
  {
    var lastGroup := grouped[|grouped| - 1];
    var reference := lastGroup[|lastGroup| - 1];
    if Joins(price, reference, tol) {
      next := grouped[..|grouped| - 1] + [lastGroup + [price]];
    } else {
      next := grouped + [[price]];
    }
  }

  lemma GroupsWhole(sorted: seq<real>, tol: real)
    ensures Groups(sorted[..|sorted|], tol) == Groups(sorted, tol)
  {
    assert sorted[..|sorted|] == sorted;
  }

  lemma GroupsFirst(sorted: seq<real>, tol: real)
    requires |sorted| > 0
    ensures Groups(sorted[..1], tol) == [[sorted[0]]]
  {
    assert sorted[..1] == [sorted[0]];
  }

  /** One pass of the loop in `GroupSorted`, stated on the current groups. */
  lemma GroupsPrefixStep(sorted: seq<real>, i: nat, tol: real, grouped: seq<seq<real>>)
    requires 1 <= i < |sorted| && grouped == Groups(sorted[..i], tol)
    ensures |grouped| > 0 && forall k :: 0 <= k < |grouped| ==> |grouped[k]| > 0
    ensures Groups(sorted[..i + 1], tol) == Extend(grouped, sorted[i], Joins(sorted[i], Last(grouped[|grouped| - 1]), tol))
  {
    assert sorted[..i + 1][..i] == sorted[..i];
    assert sorted[..i + 1][i] == sorted[i];
  }

  /** Every member of an earlier group is below every member of a later one. */
  predicate Ascending(g: seq<seq<real>>)
  {
    forall k, l, a, b :: 0 <= k < l < |g| && 0 <= a < |g[k]| && 0 <= b < |g[l]| ==> g[k][a] < g[l][b]
  }

  predicate MembersIn(g: seq<seq<real>>, s: seq<real>)
  {
    forall k, a :: 0 <= k < |g| && 0 <= a < |g[k]| ==> g[k][a] in s
  }

  /** Adding the next, larger, level to either the last group or a new
      group keeps the groups ascending and drawn from the levels. */
  lemma AscendingStep(g: seq<seq<real>>, s: seq<real>, joined: bool, h: seq<seq<real>>)
    requires |s| > 0 && |g| > 0 && Ascending(g) && MembersIn(g, s[..|s| - 1])
    requires forall j :: 0 <= j < |s| - 1 ==> s[j] < s[|s| - 1]
    requires h == if joined then g[..|g| - 1] + [g[|g| - 1] + [s[|s| - 1]]] else g + [[s[|s| - 1]]]
    ensures Ascending(h) && MembersIn(h, s)
  {
    var p := s[|s| - 1];
    var n := |g| - 1;
    assert |h| == (if joined then |g| else |g| + 1);
    forall k, a | 0 <= k < |h| && 0 <= a < |h[k]| ensures h[k][a] in s && (h[k][a] == p || h[k][a] < p) {
      if k < |g| && a < |g[k]| {
        assert h[k][a] == g[k][a];
        assert g[k][a] in s[..|s| - 1];
        var j :| 0 <= j < |s| - 1 && s[..|s| - 1][j] == g[k][a];
        assert s[j] == g[k][a];
      } else {
        assert h[k][a] == p;
      }
    }
    forall k, l, a, b | 0 <= k < l < |h| && 0 <= a < |h[k]| && 0 <= b < |h[l]| ensures h[k][a] < h[l][b] {
      assert k < |g| && h[k] == g[k];
      if l < |g| && b < |g[l]| {
        assert h[l][b] == g[l][b];
      } else {
        assert h[l][b] == p;
        assert g[k][a] in s[..|s| - 1];
        var j :| 0 <= j < |s| - 1 && s[..|s| - 1][j] == g[k][a];
      }
    }
  }

  /** Over an ascending input, every member of an earlier group is below
      every member of a later one, and every member is an input value. */
  lemma {:induction false} GroupsOrdered(s: seq<real>, tol: real)
    requires StrictlyIncreasing(s)
    ensures Ascending(Groups(s, tol)) && MembersIn(Groups(s, tol), s)
  {
    if |s| == 1 {
      assert s[0] in s;
    } else if |s| > 1 {
      GroupsOrdered(s[..|s| - 1], tol);
      GroupsOrderedStep(s, tol);
    }
  }

  /** The inductive step of GroupsOrdered. */
  lemma GroupsOrderedStep(s: seq<real>, tol: real)
    requires |s| > 1 && StrictlyIncreasing(s)
    requires Ascending(Groups(s[..|s| - 1], tol)) && MembersIn(Groups(s[..|s| - 1], tol), s[..|s| - 1])
    ensures Ascending(Groups(s, tol)) && MembersIn(Groups(s, tol), s)
  {
    var g := Groups(s[..|s| - 1], tol);
    GroupsStep(s, tol);
    AscendingStep(g, s, Joins(s[|s| - 1], Last(g[|g| - 1]), tol), Groups(s, tol));
  }

  lemma MeanBelowLater(g1: seq<real>, g2: seq<real>)
    requires |g1| > 0 && |g2| > 0
    requires forall a, b :: 0 <= a < |g1| && 0 <= b < |g2| ==> g1[a] < g2[b]
    ensures Mean(g1) < Mean(g2)
  {
    MeanBounds(g1);
    MeanBounds(g2);
    var a :| 0 <= a < |g1| && g1[a] == Max(g1);
    var b :| 0 <= b < |g2| && g2[b] == Min(g2);
  }

  /** `group_levels` returns [] exactly for an empty input. */
  lemma GroupedEmpty(levels: seq<real>, tol: real)
    ensures |Grouped(levels, tol)| == 0 <==> |levels| == 0
  {
    if |levels| > 0 {
      assert levels[0] in SortedSet(levels);
    }
  }

  /** The means of ascending groups are strictly ascending. */
  lemma MeansAscend(g: seq<seq<real>>)
    requires forall k :: 0 <= k < |g| ==> |g[k]| > 0
    requires Ascending(g)
    ensures StrictlyIncreasing(GroupMeans(g))
  {
    var r := GroupMeans(g);
    forall k, l | 0 <= k < l < |r| ensures r[k] < r[l] {
      MeanBelowLater(g[k], g[l]);
    }
  }

  /** The grouped levels are strictly ascending. */
  lemma GroupedAscending(levels: seq<real>, tol: real)
    ensures StrictlyIncreasing(Grouped(levels, tol))
  {
    var s := SortedSet(levels);
    GroupsOrdered(s, tol);
    MeansAscend(Groups(s, tol));
  }

  /** There are never more grouped levels than distinct input levels. */
  lemma GroupedCount(levels: seq<real>, tol: real)
    ensures |Grouped(levels, tol)| <= |set x | x in levels|
  {
    var s := SortedSet(levels);
    DistinctCount(s);
    assert (set x | x in s) == (set x | x in levels);
  }

  /** Every grouped level lies between the smallest and the largest input. */
  lemma GroupedWithinRange(levels: seq<real>, tol: real)
    requires |levels| > 0
    ensures var r := Grouped(levels, tol);
            forall k :: 0 <= k < |r| ==> Min(levels) <= r[k] <= Max(levels)
  {
    var s := SortedSet(levels);
    var g := Groups(s, tol);
    var r := Grouped(levels, tol);
    GroupsOrdered(s, tol);
    forall k | 0 <= k < |r| ensures Min(levels) <= r[k] <= Max(levels) {
      GroupWithinRange(g[k], s, levels);
    }
  }

  lemma GroupWithinRange(grp: seq<real>, s: seq<real>, levels: seq<real>)
    requires |grp| > 0 && |levels| > 0
    requires forall a :: 0 <= a < |grp| ==> grp[a] in s
    requires forall y :: y in s <==> y in levels
    ensures Min(levels) <= Mean(grp) <= Max(levels)
  {
    forall a | 0 <= a < |grp| ensures Min(levels) <= grp[a] <= Max(levels) {
      assert grp[a] in levels;
    }
    MeanBetween(grp, Min(levels), Max(levels));
  }

  /** The grouping of `group_levels` splits the sorted distinct levels
      into chained runs. */
  lemma GroupingIsChained(levels: seq<real>, tol: real)
    ensures var g := Groups(SortedSet(levels), tol);
            Flatten(g) == SortedSet(levels) && Chained(g, tol)
  {
    GroupsChained(SortedSet(levels), tol);
  }

  // ---------------------------------------------------------------------
  // Special levels and consolidation

  /** `rolling(window=52, min_periods=1).min().iloc[-1]` over weekly
      minima: the least present value of the last 52 weeks, NaN if none. */
  function RollingMin52(weekly: seq<Option<real>>): Option<real>
  {
    var p := Present(Tail(weekly, 52));
    if |p| == 0 then None else Some(Min(p))
  }

  function RollingMax52(weekly: seq<Option<real>>): Option<real>
  {
    var p := Present(Tail(weekly, 52));
    if |p| == 0 then None else Some(Max(p))
  }

  /** Round numbers are grouped with twice the tolerance of the other levels. */
  function RoundTolerance(tol: real): real
  {
    tol * 2.0
  }

  /** The levels `consolidate_levels` returns for a non-empty column:
      grouped local supports and resistances, the round-number ladder
      grouped at twice the tolerance, the column's extremes and the
      52-week rolling extremes of the weekly series. */
  function Consolidated(xs: seq<real>, weeklyMin: seq<Option<real>>, weeklyMax: seq<Option<real>>,
                        order: nat, roundStep: real, roundWidth: nat, tol: real): (r: PriceLevels)
    requires |xs| > 0 && order >= 1 && roundStep > 0.0
    ensures r.historicalMin <= r.historicalMax
  {
    var (supports, resistances) := DetectLocalLevels(xs, order);
    PriceLevels(Grouped(supports, tol), Grouped(resistances, tol),
                Grouped(DetectRoundNumbers(xs, roundStep, roundWidth), RoundTolerance(tol)),
                Min(xs), Max(xs), RollingMin52(weeklyMin), RollingMax52(weeklyMax))
  }

  /** `consolidate_levels`. The weekly minima and maxima of the column are
      inputs (one entry per calendar week, None for a week without data);
      they are empty exactly when the column is, and then `.iloc[-1]`
      raises before any grouping. */
  method ConsolidateLevels(xs: seq<real>, weeklyMin: seq<Option<real>>, weeklyMax: seq<Option<real>>,
                           order: nat, roundStep: real, roundWidth: nat, tol: real)
    returns (r: Result<PriceLevels>)
    requires order >= 1 && roundStep > 0.0
    requires |weeklyMin| == |weeklyMax| && (|xs| == 0 <==> |weeklyMin| == 0)
    ensures |xs| == 0 <==> r.Err?
    ensures r.Err? ==> r.error == IndexOutOfBounds
    ensures r.Ok? ==>
              var (sup, res) := DetectLocalLevels(xs, order);
              r.value.supports == Grouped(sup, tol) &&
              r.value.resistances == Grouped(res, tol) &&
              r.value.roundNumbers == Grouped(DetectRoundNumbers(xs, roundStep, roundWidth), RoundTolerance(tol)) &&
              r.value.historicalMin == Min(xs) && r.value.historicalMax == Max(xs) &&
              r.value.historicalMin <= r.value.historicalMax &&
              r.value.rollingMin52w == RollingMin52(weeklyMin) &&
              r.value.rollingMax52w == RollingMax52(weeklyMax)
    ensures r.Ok? ==> r.value == Consolidated(xs, weeklyMin, weeklyMax, order, roundStep, roundWidth, tol)
  {
    if |xs| == 0 {
      return Err(IndexOutOfBounds);
    }
    var (supports, resistances) := DetectLocalLevels(xs, order);
    var roundNumbers := DetectRoundNumbers(xs, roundStep, roundWidth);
    var groupedSupports := GroupLevels(supports, tol);
    var groupedResistances := GroupLevels(resistances, tol);
    var groupedRound := GroupLevels(roundNumbers, RoundTolerance(tol));
    r := Ok(PriceLevels(groupedSupports, groupedResistances, groupedRound,
                        Min(xs), Max(xs), RollingMin52(weeklyMin), RollingMax52(weeklyMax)));
  }
}
