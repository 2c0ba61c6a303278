/** Percentiles by linear interpolation on the sorted sample, over exact reals. */
module Percentile {
  predicate Sorted(s: seq<real>) {
    forall i, j :: 0 <= i < j < |s| ==> s[i] <= s[j]
  }

  function Insert(x: real, s: seq<real>): seq<real> {
    if s == [] || x <= s[0] then [x] + s else [s[0]] + Insert(x, s[1..])
  }

  function Sort(s: seq<real>): (r: seq<real>)
    ensures |r| == |s|
  {
    if s == [] then [] else InsertLength(s[0], Sort(s[1..])); Insert(s[0], Sort(s[1..]))
  }

  lemma {:induction false} InsertLength(x: real, s: seq<real>)
    ensures |Insert(x, s)| == |s| + 1
  {
    if s != [] && x > s[0] {
      InsertLength(x, s[1..]);
    }
  }

  lemma {:induction false} InsertKeeps(x: real, s: seq<real>)
    ensures multiset(Insert(x, s)) == multiset(s) + multiset{x}
  {
    if s != [] && x > s[0] {
      InsertKeeps(x, s[1..]);
      assert s == [s[0]] + s[1..];
    }
  }

  lemma {:induction false} InsertMembers(x: real, s: seq<real>, least: real)
    requires least <= x && forall v <- s :: least <= v
    ensures forall v <- Insert(x, s) :: least <= v
  {
    InsertKeeps(x, s);
    forall v | v in Insert(x, s)
      ensures least <= v
    {
      assert v in multiset(Insert(x, s));
      assert v == x || v in s;
    }
  }

  lemma {:induction false} InsertSorts(x: real, s: seq<real>)
    requires Sorted(s)
    ensures Sorted(Insert(x, s))
  {
    if s != [] && x > s[0] {
      InsertSorts(x, s[1..]);
      InsertMembers(x, s[1..], s[0]);
      var r := Insert(x, s[1..]);
      assert forall j :: 0 <= j < |r| ==> r[j] in r;
    }
  }

  lemma {:induction false} SortSorts(s: seq<real>)
    ensures Sorted(Sort(s)) && multiset(Sort(s)) == multiset(s)
  {
    if s != [] {
      SortSorts(s[1..]);
      InsertSorts(s[0], Sort(s[1..]));
      InsertKeeps(s[0], Sort(s[1..]));
      assert s == [s[0]] + s[1..];
    }
  }

  lemma WithoutFirst(a: seq<real>)
    requires a != []
    ensures multiset(a[1..]) == multiset(a) - multiset{a[0]}
  {
    assert a == [a[0]] + a[1..];
  }

  lemma SameParts(a: seq<real>, b: seq<real>)
    requires a != [] && b != [] && a[0] == b[0] && a[1..] == b[1..]
    ensures a == b
  {
    assert a == [a[0]] + a[1..];
    assert b == [b[0]] + b[1..];
  }

  lemma SameEmptiness(a: seq<real>, b: seq<real>)
    requires multiset(a) == multiset(b)
    ensures a == [] <==> b == []
  {
    assert |a| == |multiset(a)| && |b| == |multiset(b)|;
  }

  lemma FirstIsLeast(a: seq<real>, x: real)
    requires Sorted(a) && x in multiset(a)
    ensures a != [] && a[0] <= x
  {
    var i :| 0 <= i < |a| && a[i] == x;
  }

  lemma RestIsSorted(a: seq<real>)
    requires Sorted(a) && a != []
    ensures Sorted(a[1..])
  {
  }

  lemma {:induction false} SortedIsUnique(a: seq<real>, b: seq<real>)
    requires Sorted(a) && Sorted(b) && multiset(a) == multiset(b)
    ensures a == b
  {
    SameEmptiness(a, b);
    if a != [] {
      FirstIsLeast(b, a[0]);
      FirstIsLeast(a, b[0]);
      WithoutFirst(a);
      WithoutFirst(b);
      RestIsSorted(a);
      RestIsSorted(b);
      SortedIsUnique(a[1..], b[1..]);
      SameParts(a, b);
    }
  }

  // ----- interpolation -----

  function Ceiling(x: real): int {
    if x == x.Floor as real then x.Floor else x.Floor + 1
  }

  function Interpolate(ordered: seq<real>, position: real): real
    requires 0.0 <= position <= (|ordered| - 1) as real
  {
    var lower, upper := position.Floor, Ceiling(position);
    if lower == upper then ordered[lower]
    else
      var weight := position - lower as real;
      ordered[lower] * (1.0 - weight) + ordered[upper] * weight
  }

  // The fractional index into a sorted sample of n + 1 values.
  function Rank(fraction: real, n: nat): (r: real)
    requires 0.0 <= fraction <= 1.0
    ensures 0.0 <= r <= n as real
  {
    fraction * n as real
  }

  lemma RankIsMonotone(f: real, g: real, n: nat)
    requires 0.0 <= f <= g <= 1.0
    ensures Rank(f, n) <= Rank(g, n)
  {
    Product(g - f, n as real);
    assert (g - f) * n as real == g * n as real - f * n as real;
  }

  function InOrder(ordered: seq<real>, fraction: real): real
    requires ordered != [] && 0.0 <= fraction <= 1.0
  {
    if |ordered| == 1 then ordered[0] else Interpolate(ordered, Rank(fraction, |ordered| - 1))
  }

  function At(values: seq<real>, fraction: real): real
    requires values != [] && 0.0 <= fraction <= 1.0
  {
    InOrder(Sort(values), fraction)
  }

  lemma Product(a: real, b: real)
    requires a >= 0.0 && b >= 0.0
    ensures a * b >= 0.0
  {
  }

  lemma Between(a: real, b: real, w: real)
    requires a <= b && 0.0 <= w <= 1.0
    ensures a <= a * (1.0 - w) + b * w <= b
  {
    assert a * (1.0 - w) + b * w == a + (b - a) * w;
    Product(b - a, w);
    Product(b - a, 1.0 - w);
    assert (b - a) * (1.0 - w) == b - (a + (b - a) * w);
  }

  lemma WeightMonotone(a: real, b: real, v: real, w: real)
    requires a <= b && v <= w
    ensures a * (1.0 - v) + b * v <= a * (1.0 - w) + b * w
  {
    Product(b - a, w - v);
    assert (b - a) * (w - v) == (a * (1.0 - w) + b * w) - (a * (1.0 - v) + b * v);
  }

  // Interpolation stays between the two neighbours.
  lemma InterpolateBounds(ordered: seq<real>, position: real)
    requires Sorted(ordered) && 0.0 <= position <= (|ordered| - 1) as real
    ensures ordered[position.Floor] <= Interpolate(ordered, position) <= ordered[Ceiling(position)]
  {
    var lower, upper := position.Floor, Ceiling(position);
    if lower != upper {
      Between(ordered[lower], ordered[upper], position - lower as real);
    }
  }

  lemma InterpolateMonotone(ordered: seq<real>, p: real, q: real)
    requires Sorted(ordered) && 0.0 <= p <= q <= (|ordered| - 1) as real
    ensures Interpolate(ordered, p) <= Interpolate(ordered, q)
  {
    InterpolateBounds(ordered, p);
    InterpolateBounds(ordered, q);
    var i, j := p.Floor, q.Floor;
    if i == j {
      if Ceiling(p) != i {
        WeightMonotone(ordered[i], ordered[i + 1], p - i as real, q - i as real);
      }
    } else {
      assert Ceiling(p) <= j;
    }
  }

  predicate IsMin(m: real, values: seq<real>) {
    m in values && forall v <- values :: m <= v
  }

  predicate IsMax(m: real, values: seq<real>) {
    m in values && forall v <- values :: v <= m
  }

  lemma SortedEnds(s: seq<real>)
    requires Sorted(s) && s != []
    ensures IsMin(s[0], s) && IsMax(s[|s| - 1], s)
  {
    forall v | v in s
      ensures s[0] <= v <= s[|s| - 1]
    {
      var i :| 0 <= i < |s| && s[i] == v;
    }
  }

  lemma SameMembers(a: seq<real>, b: seq<real>, v: real)
    requires multiset(a) == multiset(b)
    ensures v in a <==> v in b
  {
    assert v in multiset(a) <==> v in multiset(b);
  }

  lemma {:induction false} SortEnds(values: seq<real>)
    requires values != []
    ensures IsMin(Sort(values)[0], values) && IsMax(Sort(values)[|values| - 1], values)
  {
    SortSorts(values);
    SortedEnds(Sort(values));
    forall v
      ensures v in Sort(values) <==> v in values
    {
      SameMembers(Sort(values), values, v);
    }
  }

  // The 0th percentile is the smallest value and the 100th the largest.
  lemma Extremes(values: seq<real>)
    requires values != []
    ensures IsMin(At(values, 0.0), values) && IsMax(At(values, 1.0), values)
  {
    SortEnds(values);
  }

  // Percentiles are ordered like their fractions, from the smallest value to the largest.
  lemma PercentilesAreOrdered(values: seq<real>, f: real, g: real)
    requires values != [] && 0.0 <= f <= g <= 1.0
    ensures At(values, f) <= At(values, g)
    ensures forall lo, hi :: IsMin(lo, values) && IsMax(hi, values) ==> lo <= At(values, f) && At(values, g) <= hi
  {
    OrderedPair(values, f, g);
    OrderedPair(values, 0.0, f);
    OrderedPair(values, g, 1.0);
    Extremes(values);
    forall lo, hi | IsMin(lo, values) && IsMax(hi, values)
      ensures lo <= At(values, f) && At(values, g) <= hi
    {
      assert lo <= At(values, 0.0) && At(values, 1.0) <= hi;
    }
  }

  lemma InOrderIsMonotone(ordered: seq<real>, f: real, g: real)
    requires Sorted(ordered) && ordered != [] && 0.0 <= f <= g <= 1.0
    ensures InOrder(ordered, f) <= InOrder(ordered, g)
  {
    if |ordered| > 1 {
      RankIsMonotone(f, g, |ordered| - 1);
      InterpolateMonotone(ordered, Rank(f, |ordered| - 1), Rank(g, |ordered| - 1));
    }
  }

  lemma OrderedPair(values: seq<real>, f: real, g: real)
    requires values != [] && 0.0 <= f <= g <= 1.0
    ensures At(values, f) <= At(values, g)
  {
    SortSorts(values);
    InOrderIsMonotone(Sort(values), f, g);
  }

  lemma {:induction false} SameSample(a: seq<real>, b: seq<real>)
    requires multiset(a) == multiset(b)
    ensures Sort(a) == Sort(b) && |a| == |b|
  {
    SortSorts(a);
    SortSorts(b);
    SortedIsUnique(Sort(a), Sort(b));
  }

  // The order of the sample does not matter.
  lemma OrderDoesNotMatter(a: seq<real>, b: seq<real>, f: real)
    requires a != [] && multiset(a) == multiset(b) && 0.0 <= f <= 1.0
    ensures b != [] && At(a, f) == At(b, f)
  {
    SameSample(a, b);
  }

  // Every value read on a clock that is ahead by c.
  function Shifted(values: seq<real>, c: real): seq<real> {
    if values == [] then [] else [values[0] + c] + Shifted(values[1..], c)
  }

  lemma {:induction false} ShiftedAt(values: seq<real>, c: real)
    ensures |Shifted(values, c)| == |values|
    ensures forall i :: 0 <= i < |values| ==> Shifted(values, c)[i] == values[i] + c
  {
    if values != [] {
      ShiftedAt(values[1..], c);
    }
  }

  lemma {:induction false} InsertShifted(x: real, s: seq<real>, c: real)
    ensures Insert(x + c, Shifted(s, c)) == Shifted(Insert(x, s), c)
  {
    if s == [] || x <= s[0] {
      assert ([x] + s)[1..] == s;
    } else {
      InsertShifted(x, s[1..], c);
      assert Shifted(s, c)[1..] == Shifted(s[1..], c);
      assert ([s[0]] + Insert(x, s[1..]))[1..] == Insert(x, s[1..]);
    }
  }

  lemma {:induction false} SortShifted(values: seq<real>, c: real)
    ensures Sort(Shifted(values, c)) == Shifted(Sort(values), c)
  {
    if values != [] {
      SortShifted(values[1..], c);
      assert Shifted(values, c)[1..] == Shifted(values[1..], c);
      InsertShifted(values[0], Sort(values[1..]), c);
    }
  }

  lemma WeightedShift(a: real, b: real, w: real, c: real)
    ensures (a + c) * (1.0 - w) + (b + c) * w == a * (1.0 - w) + b * w + c
  {
  }

  lemma {:induction false} InterpolateShifted(s: seq<real>, c: real, p: real)
    requires 0.0 <= p <= (|s| - 1) as real
    ensures |Shifted(s, c)| == |s| && Interpolate(Shifted(s, c), p) == Interpolate(s, p) + c
  {
    ShiftedAt(s, c);
    var t := Shifted(s, c);
    if Ceiling(p) == p.Floor {
      assert t[p.Floor] == s[p.Floor] + c;
    } else {
      assert t[p.Floor] == s[p.Floor] + c && t[p.Floor + 1] == s[p.Floor + 1] + c;
      WeightedShift(s[p.Floor], s[p.Floor + 1], p - p.Floor as real, c);
    }
  }

  lemma {:induction false} InOrderShifted(ordered: seq<real>, c: real, f: real)
    requires ordered != [] && 0.0 <= f <= 1.0
    ensures Shifted(ordered, c) != [] && InOrder(Shifted(ordered, c), f) == InOrder(ordered, f) + c
  {
    ShiftedAt(ordered, c);
    if |ordered| > 1 {
      InterpolateShifted(ordered, c, Rank(f, |ordered| - 1));
    }
  }

  // A constant clock offset moves every percentile by exactly that offset.
  lemma {:induction false} OffsetMovesPercentile(values: seq<real>, c: real, f: real)
    requires values != [] && 0.0 <= f <= 1.0
    ensures Shifted(values, c) != [] && At(Shifted(values, c), f) == At(values, f) + c
  {
    SortShifted(values, c);
    ShiftedAt(values, c);
    InOrderShifted(Sort(values), c, f);
  }

  // ----- where a percentile lies in the sample -----

  lemma InterpolateAt(ordered: seq<real>, position: real, k: nat, w: real)
    requires 0.0 <= position <= (|ordered| - 1) as real && position == k as real + w && 0.0 <= w < 1.0
    ensures w != 0.0 ==> k + 1 < |ordered|
    ensures Interpolate(ordered, position) ==
            if w == 0.0 then ordered[k] else ordered[k] * (1.0 - w) + ordered[k + 1] * w
  {
    assert position.Floor == k;
  }

  // The value w of the way from the k-th to the next.
  function Blend(ordered: seq<real>, k: nat, w: real): real
    requires k < |ordered| && (w != 0.0 ==> k + 1 < |ordered|)
  {
    if w == 0.0 then ordered[k] else ordered[k] * (1.0 - w) + ordered[k + 1] * w
  }

  lemma InOrderAt(ordered: seq<real>, n: nat, f: real, k: nat, w: real)
    requires |ordered| == n + 1 && 0.0 <= f <= 1.0 && 0.0 <= w < 1.0 && Rank(f, n) == k as real + w
    ensures k < |ordered| && (w != 0.0 ==> k + 1 < |ordered|)
    ensures InOrder(ordered, f) == Blend(ordered, k, w)
  {
    InterpolateAt(ordered, Rank(f, n), k, w);
  }

  lemma {:induction false} AtRank(values: seq<real>, n: nat, f: real, k: nat, w: real)
    requires |values| == n + 1 && 0.0 <= f <= 1.0 && 0.0 <= w < 1.0 && Rank(f, n) == k as real + w
    ensures k <= n && (w != 0.0 ==> k < n)
    ensures At(values, f) == Blend(Sort(values), k, w)
  {
    InOrderAt(Sort(values), n, f, k, w);
  }

  /** Of n + 1 values, the percentile at k/n is the k-th smallest, counted from zero; and at the fraction w of the
      way from there to the next it has moved linearly by w from this value to the next. */
  lemma {:induction false} PercentileAt(values: seq<real>, n: nat, f: real, k: nat, w: real)
    requires |values| == n + 1 && 0.0 <= f <= 1.0 && 0.0 <= w < 1.0 && f * n as real == k as real + w
    ensures k <= n && (w != 0.0 ==> k < n)
    ensures At(values, f) == Blend(Sort(values), k, w)
  {
    AtRank(values, n, f, k, w);
  }

  // How many values are at most x, and how many at least x.
  function AtMost(values: seq<real>, x: real): nat {
    if values == [] then 0 else (if values[0] <= x then 1 else 0) + AtMost(values[1..], x)
  }

  function AtLeast(values: seq<real>, x: real): nat {
    if values == [] then 0 else (if values[0] >= x then 1 else 0) + AtLeast(values[1..], x)
  }

  lemma {:induction false} InsertCounts(v: real, s: seq<real>, x: real)
    ensures AtMost(Insert(v, s), x) == AtMost(s, x) + if v <= x then 1 else 0
    ensures AtLeast(Insert(v, s), x) == AtLeast(s, x) + if v >= x then 1 else 0
  {
    if s == [] || v <= s[0] {
      assert ([v] + s)[1..] == s;
    } else {
      InsertCounts(v, s[1..], x);
      assert ([s[0]] + Insert(v, s[1..]))[1..] == Insert(v, s[1..]);
    }
  }

  lemma {:induction false} SortCounts(values: seq<real>, x: real)
    ensures AtMost(Sort(values), x) == AtMost(values, x) && AtLeast(Sort(values), x) == AtLeast(values, x)
  {
    if values != [] {
      SortCounts(values[1..], x);
      InsertCounts(values[0], Sort(values[1..]), x);
    }
  }

  // In a sorted sample the values up to the k-th are at most anything the k-th is at most.
  lemma {:induction false} AtMostCovers(ordered: seq<real>, k: nat, x: real)
    requires Sorted(ordered) && k < |ordered| && ordered[k] <= x
    ensures AtMost(ordered, x) >= k + 1
  {
    if k > 0 {
      RestIsSorted(ordered);
      AtMostCovers(ordered[1..], k - 1, x);
    }
  }

  lemma {:induction false} AtLeastCovers(ordered: seq<real>, k: nat, x: real)
    requires Sorted(ordered) && k < |ordered| && ordered[k] >= x
    ensures AtLeast(ordered, x) >= |ordered| - k
    decreases |ordered|
  {
    RestIsSorted(ordered);
    if k > 0 {
      AtLeastCovers(ordered[1..], k - 1, x);
    } else if |ordered| > 1 {
      AtLeastCovers(ordered[1..], 0, x);
    }
  }

  lemma InOrderBounds(ordered: seq<real>, f: real)
    requires Sorted(ordered) && ordered != [] && 0.0 <= f <= 1.0
    ensures var p := Rank(f, |ordered| - 1);
            ordered[p.Floor] <= InOrder(ordered, f) <= ordered[Ceiling(p)]
  {
    InterpolateBounds(ordered, Rank(f, |ordered| - 1));
  }

  lemma PastThePosition(below: nat, above: nat, n: nat, p: real)
    requires below >= p.Floor + 1 && above >= n + 1 - Ceiling(p)
    ensures below as real > p && above as real > n as real - p
  {
  }

  // Strictly more than p values on one side of x and than n - p on the other.
  predicate Divides(values: seq<real>, x: real, p: real) {
    AtMost(values, x) as real > p && AtLeast(values, x) as real > (|values| - 1) as real - p
  }

  lemma RankDivides(ordered: seq<real>, f: real)
    requires Sorted(ordered) && ordered != [] && 0.0 <= f <= 1.0
    ensures Divides(ordered, InOrder(ordered, f), Rank(f, |ordered| - 1))
  {
    var x, p := InOrder(ordered, f), Rank(f, |ordered| - 1);
    InOrderBounds(ordered, f);
    AtMostCovers(ordered, p.Floor, x);
    AtLeastCovers(ordered, Ceiling(p), x);
    PastThePosition(AtMost(ordered, x), AtLeast(ordered, x), |ordered| - 1, p);
  }

  lemma {:induction false} SortDivides(values: seq<real>, x: real, p: real)
    requires Divides(Sort(values), x, p)
    ensures Divides(values, x, p)
  {
    SortCounts(values, x);
  }

  /** What a percentile promises, without sorting: of n + 1 values more than f * n are at most P(f), and more than
      n - f * n are at least P(f). */
  lemma PercentileDivides(values: seq<real>, f: real)
    requires values != [] && 0.0 <= f <= 1.0
    ensures Divides(values, At(values, f), f * (|values| - 1) as real)
  {
    SortSorts(values);
    RankDivides(Sort(values), f);
    SortDivides(values, At(values, f), Rank(f, |values| - 1));
  }

  // ----- the latency summary of one stream -----

  datatype Summary =
    | Empty
    | Summary(count: nat, min: real, p50: real, p90: real, p95: real, p99: real, max: real, negative: nat)

  function Negatives(values: seq<real>): nat {
    if values == [] then 0
    else Negatives(values[..|values| - 1]) + (if values[|values| - 1] < 0.0 then 1 else 0)
  }

  lemma SummaryIsOrdered(values: seq<real>, least: real, most: real)
    requires values != [] && IsMin(least, values) && IsMax(most, values)
    ensures least <= At(values, 0.50) <= At(values, 0.90) <= At(values, 0.95) <= At(values, 0.99) <= most
  {
    PercentilesAreOrdered(values, 0.50, 0.90);
    PercentilesAreOrdered(values, 0.90, 0.95);
    PercentilesAreOrdered(values, 0.95, 0.99);
  }

  method Summarise(values: seq<real>) returns (r: Summary)
    ensures values == [] <==> r == Empty
    ensures r.Summary? ==>
              && r.count == |values| && r.negative == Negatives(values)
              && IsMin(r.min, values) && IsMax(r.max, values)
              && (r.p50, r.p90, r.p95, r.p99) ==
                 (At(values, 0.50), At(values, 0.90), At(values, 0.95), At(values, 0.99))
    ensures r.Summary? ==> r.min <= r.p50 <= r.p90 <= r.p95 <= r.p99 <= r.max
  {
    if values == [] {
      return Empty;
    }
    var least, most := values[0], values[0];
    var negative := 0;
    for i := 0 to |values|
      invariant least in values && forall j :: 0 <= j < i ==> least <= values[j]
      invariant most in values && forall j :: 0 <= j < i ==> values[j] <= most
      invariant negative == Negatives(values[..i])
    {
      assert values[..i + 1][..i] == values[..i];
      least := if values[i] < least then values[i] else least;
      most := if values[i] > most then values[i] else most;
      negative := negative + if values[i] < 0.0 then 1 else 0;
    }
    assert values[..|values|] == values;
    SummaryIsOrdered(values, least, most);
    r := Summary(
      |values|, least, At(values, 0.50), At(values, 0.90), At(values, 0.95), At(values, 0.99), most, negative);
  }
}
