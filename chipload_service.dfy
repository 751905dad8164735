/**
 * `ChiploadCalculationService`: the suggested (lower, upper) chipload per
 * flute for a tool diameter, read from a material's table keyed by diameter.
 * Below the smallest key the smallest key's pair is returned; between two
 * adjacent keys both endpoints are interpolated linearly; from the largest key
 * on both endpoints follow the line through the last two keys, unclamped.
 */
module ChiploadService {
  import opened Wrappers
  import opened Models

  predicate StrictlyIncreasing(s: seq<real>) {
    forall i, j :: 0 <= i < j < |s| ==> s[i] < s[j]
  }

  /** `y` lies between `a` and `b`, in whichever order those two come. */
  predicate Between(a: real, y: real, b: real) {
    (a <= y <= b) || (b <= y <= a)
  }

  lemma NonEmptyHasElement(s: set<real>)
    requires s != {}
    ensures exists y :: y in s
  {
    if forall y :: y !in s {
      assert false;
    }
  }

  /** `m` is the least element of `s`. */
  predicate IsLeast(m: real, s: set<real>) {
    m in s && forall x :: x in s ==> m <= x
  }

  lemma {:induction false} MinimumExists(s: set<real>)
    requires s != {}
    ensures exists m :: IsLeast(m, s)
  {
    NonEmptyHasElement(s);
    var y :| y in s;
    if s == {y} {
      assert IsLeast(y, s);
    } else {
      var rest := s - {y};
      MinimumExists(rest);
      var m :| IsLeast(m, rest);
      var least := if y <= m then y else m;
      forall x | x in s
        ensures least <= x
      {
        if x != y {
          assert x in rest;
        }
      }
      assert IsLeast(least, s);
    }
  }

  /** The smallest element of a non-empty finite set of reals. */
  function SmallestKey(s: set<real>): (m: real)
    requires s != {}
    ensures m in s && forall x :: x in s ==> m <= x
  {
    MinimumExists(s);
    var m :| IsLeast(m, s); m
  }

  /** `sorted(keys)`: the elements of `s` in strictly increasing order. */
  function SortedKeys(s: set<real>): (r: seq<real>)
    ensures |r| == |s|
    ensures forall i :: 0 <= i < |r| ==> r[i] in s
    ensures StrictlyIncreasing(r)
    decreases |s|
  {
    if s == {} then []
    else
      var m := SmallestKey(s);
      [m] + SortedKeys(s - {m})
  }

  /** Every element of `s` occurs in `sorted(s)`. */
  lemma {:induction false} SortedKeysComplete(s: set<real>, x: real)
    requires x in s
    ensures x in SortedKeys(s)
    decreases |s|
  {
    var m := SmallestKey(s);
    if x != m {
      SortedKeysComplete(s - {m}, x);
    }
  }

  lemma EmptyExactlyTogether(a: seq<real>, b: seq<real>)
    requires forall x :: x in a <==> x in b
    ensures a == [] <==> b == []
  {
    if a != [] {
      var x := a[0];
      assert x in a;
      assert x in b;
    }
    if b != [] {
      var x := b[0];
      assert x in b;
    }
  }

  /** Two strictly increasing sequences with the same elements are equal. */
  lemma {:induction false} StrictlyIncreasingUnique(a: seq<real>, b: seq<real>)
    requires StrictlyIncreasing(a) && StrictlyIncreasing(b)
    requires forall x :: x in a <==> x in b
    ensures a == b
    decreases |a|
  {
    EmptyExactlyTogether(a, b);
    if a != [] {
      assert a[0] == b[0] by {
        assert a[0] in b && b[0] in a;
      }
      forall x
        ensures x in a[1..] <==> x in b[1..]
      {
        if x in a[1..] {
          assert x != a[0];
          assert x in b;
        }
        if x in b[1..] {
          assert x != b[0];
          assert x in a;
        }
      }
      StrictlyIncreasingUnique(a[1..], b[1..]);
      assert a == [a[0]] + a[1..] && b == [b[0]] + b[1..];
    }
  }

  /** A strictly increasing listing of exactly the elements of `s` is `sorted(s)`. */
  lemma SortedKeysIs(s: set<real>, r: seq<real>)
    requires StrictlyIncreasing(r)
    requires forall x :: x in s <==> x in r
    ensures SortedKeys(s) == r
  {
    forall x | x in s
      ensures x in SortedKeys(s)
    {
      SortedKeysComplete(s, x);
    }
    StrictlyIncreasingUnique(SortedKeys(s), r);
  }

  /** `diameters = sorted(chipload_data.keys())`. */
  function Diameters(m: map<real, Range>): seq<real> {
    SortedKeys(m.Keys)
  }

  /** The three diameter keys every shipped table uses, in order. */
  lemma DiametersOfStandardTable(m: map<real, Range>)
    requires m.Keys == {1.5, 3.175, 6.0}
    ensures Diameters(m) == [1.5, 3.175, 6.0]
  {
    SortedKeysIs(m.Keys, [1.5, 3.175, 6.0]);
  }

  /** The position of a key in the sorted key list. */
  lemma PositionOf(m: map<real, Range>, x: real) returns (j: nat)
    requires x in m
    ensures j < |Diameters(m)| && Diameters(m)[j] == x
  {
    var K := Diameters(m);
    SortedKeysComplete(m.Keys, x);
    j :| 0 <= j < |K| && K[j] == x;
  }

  /**
   * The two-point line `y1 + (x - x1) * (y2 - y1) / (x2 - x1)`; also the
   * `interpolate` function of the stand-alone scripts.
   */
  function Line(x: real, x1: real, y1: real, x2: real, y2: real): real
    requires x1 != x2
  {
    y1 + (x - x1) * (y2 - y1) / (x2 - x1)
  }

  lemma DivideOutFactor(w: real, d: real)
    requires w != 0.0
    ensures w * d / w == d
  {
  }

  /** The line passes through both of its knots. */
  lemma LineThroughKnots(x1: real, y1: real, x2: real, y2: real)
    requires x1 != x2
    ensures Line(x1, x1, y1, x2, y2) == y1
    ensures Line(x2, x1, y1, x2, y2) == y2
  {
    DivideOutFactor(x2 - x1, y2 - y1);
  }

  /** Between its two knots the line stays between their values. */
  lemma LineBetween(x: real, x1: real, y1: real, x2: real, y2: real)
    requires x1 < x2 && x1 <= x <= x2
    ensures Between(y1, Line(x, x1, y1, x2, y2), y2)
  {
    var a, w, dy := x - x1, x2 - x1, y2 - y1;
    var t := a / w;
    assert 0.0 <= t <= 1.0;
    assert Line(x, x1, y1, x2, y2) == y1 + t * dy;
    if dy >= 0.0 {
      assert 0.0 <= t * dy <= dy;
    } else {
      assert dy <= t * dy <= 0.0;
    }
  }

  /** `_interpolate` on two tuples: each endpoint independently on its two-point line. */
  function Interpolate(x: real, x1: real, y1: Range, x2: real, y2: Range): (r: Range)
    requires x1 != x2
    ensures x == x1 ==> r == y1
    ensures x == x2 ==> r == y2
  {
    LineThroughKnots(x1, y1.lower, x2, y2.lower);
    LineThroughKnots(x1, y1.upper, x2, y2.upper);
    Range(Line(x, x1, y1.lower, x2, y2.lower), Line(x, x1, y1.upper, x2, y2.upper))
  }

  /**
   * The `for` loop's search: the first index `i >= from` whose segment
   * `[K[i], K[i + 1]]` contains `d`, or `None` when the loop would fall through.
   */
  function FirstSegment(K: seq<real>, d: real, from: nat): (r: Option<nat>)
    ensures r.Some? ==> from <= r.value < |K| - 1 && K[r.value] <= d <= K[r.value + 1]
    ensures r.None? ==> forall i :: from <= i < |K| - 1 ==> !(K[i] <= d <= K[i + 1])
    decreases |K| - from
  {
    if from + 1 >= |K| then None
    else if K[from] <= d <= K[from + 1] then Some(from)
    else FirstSegment(K, d, from + 1)
  }

  /**
   * What `suggest_chipload` demands of its table: a key (`diameters[0]`), and a
   * second one (`diameters[-2:]` is unpacked into two) unless the diameter is at
   * most the only key.
   */
  predicate Suggestible(m: map<real, Range>, d: real) {
    |m.Keys| >= 2 || (|m.Keys| == 1 && forall k :: k in m ==> d <= k)
  }

  /** The value `suggest_chipload` returns, branch by branch as the method takes them. */
  function Suggest(m: map<real, Range>, d: real): Range
    requires Suggestible(m, d)
  {
    var K := Diameters(m);
    assert K[0] in m;
    if d <= K[0] then m[K[0]]
    else if d >= K[|K| - 1] then Interpolate(d, K[|K| - 2], m[K[|K| - 2]], K[|K| - 1], m[K[|K| - 1]])
    else match FirstSegment(K, d, 0)
      case Some(i) => Interpolate(d, K[i], m[K[i]], K[i + 1], m[K[i + 1]])
      case None => m[K[0]]
  }

  /** At or below the smallest key the smallest key's pair comes back unchanged. */
  lemma SuggestBelowSmallestKey(m: map<real, Range>, smallest: real, d: real)
    requires smallest in m && forall k :: k in m ==> smallest <= k
    requires d <= smallest
    ensures Suggestible(m, d) && Suggest(m, d) == m[smallest]
  {
    var K := Diameters(m);
    var j := PositionOf(m, smallest);
    assert K[0] in m;
    assert K[0] == smallest;
  }

  /**
   * At or above the largest key both endpoints follow the line through the
   * last two keys, with no clamp; this needs at least two keys.
   */
  lemma SuggestAboveLargestKey(m: map<real, Range>, previous: real, largest: real, d: real)
    requires previous in m && largest in m && previous < largest
    requires forall k :: k in m ==> k == largest || k <= previous
    requires d >= largest
    ensures Suggestible(m, d)
    ensures Suggest(m, d) == Range(Line(d, previous, m[previous].lower, largest, m[largest].lower),
                                   Line(d, previous, m[previous].upper, largest, m[largest].upper))
  {
    var K := Diameters(m);
    assert |m.Keys| >= 2 by {
      assert {previous, largest} <= m.Keys;
      assert |{previous, largest}| == 2;
    }
    var n := |K|;
    var jp := PositionOf(m, previous);
    var jl := PositionOf(m, largest);
    assert K[n - 1] in m && K[n - 2] in m;
    assert K[n - 1] == largest;
    assert K[n - 2] == previous;
    assert K[0] <= previous;
  }

  /** The segment search finds segment `j` when no earlier segment contains `d`. */
  lemma {:induction false} FirstSegmentFinds(K: seq<real>, d: real, from: nat, j: nat)
    requires from <= j < |K| - 1 && K[j] <= d <= K[j + 1]
    requires forall i :: from < i <= j ==> d > K[i]
    ensures FirstSegment(K, d, from) == Some(j)
    decreases j - from
  {
    if from < j {
      FirstSegmentFinds(K, d, from + 1, j);
    }
  }

  /** With sorted keys some segment contains every diameter inside the table, so the fallback return is unreachable. */
  lemma {:induction false} SegmentExists(K: seq<real>, d: real, from: nat)
    requires StrictlyIncreasing(K)
    requires from < |K| - 1 && K[from] <= d <= K[|K| - 1]
    ensures FirstSegment(K, d, from).Some?
    decreases |K| - from
  {
    if !(d <= K[from + 1]) {
      SegmentExists(K, d, from + 1);
    }
  }

  lemma FallbackUnreachable(m: map<real, Range>, d: real)
    requires Suggestible(m, d)
    requires Diameters(m)[0] < d < Diameters(m)[|Diameters(m)| - 1]
    ensures FirstSegment(Diameters(m), d, 0).Some?
  {
    SegmentExists(Diameters(m), d, 0);
  }

  /** At every key the tabulated pair comes back exactly. */
  lemma SuggestAtKey(m: map<real, Range>, d: real)
    requires d in m
    ensures Suggestible(m, d) && Suggest(m, d) == m[d]
  {
    var K := Diameters(m);
    var j := PositionOf(m, d);
    if |m.Keys| == 1 {
      forall k | k in m
        ensures d <= k
      {
        var l := PositionOf(m, k);
      }
    }
    if 0 < j < |K| - 1 {
      forall i | 0 < i <= j - 1
        ensures d > K[i]
      {
      }
      FirstSegmentFinds(K, d, 0, j - 1);
    }
  }

  /**
   * Strictly between two adjacent keys the result is the two-point line
   * through them, so each endpoint lies between the two keys' endpoints.
   */
  lemma SuggestBetweenAdjacentKeys(m: map<real, Range>, a: real, b: real, d: real)
    requires a in m && b in m && a < d < b
    requires forall k :: k in m ==> k <= a || b <= k
    ensures Suggestible(m, d)
    ensures Suggest(m, d) == Interpolate(d, a, m[a], b, m[b])
    ensures Between(m[a].lower, Suggest(m, d).lower, m[b].lower)
    ensures Between(m[a].upper, Suggest(m, d).upper, m[b].upper)
  {
    var K := Diameters(m);
    assert |m.Keys| >= 2 by {
      assert {a, b} <= m.Keys;
      assert |{a, b}| == 2;
    }
    var i := PositionOf(m, a);
    var j := PositionOf(m, b);
    assert i < j;
    assert K[i + 1] in m && K[i] < K[i + 1];
    assert b <= K[i + 1];
    assert j == i + 1;
    assert K[0] <= a && b <= K[|K| - 1];
    forall l | 0 < l <= i
      ensures d > K[l]
    {
      assert K[l] <= K[i];
    }
    FirstSegmentFinds(K, d, 0, i);
    LineBetween(d, a, m[a].lower, b, m[b].lower);
    LineBetween(d, a, m[a].upper, b, m[b].upper);
  }

  /** `ChiploadCalculationService`: holds the material and the last diameter asked for. */
  class ChiploadCalculationService {
    const material: Option<Material>
    var toolDiameter: Option<real>

    constructor (material: Option<Material>)
      ensures this.material == material && toolDiameter == None
    {
      this.material := material;
      toolDiameter := None;
    }

    /**
     * `_extrapolate_chipload`: the line through the two given keys, evaluated
     * at the diameter stored by the last `suggest_chipload` call.
     */
    function ExtrapolateChipload(data: map<real, Range>, lastTwo: seq<real>): (r: Range)
      reads this
      requires toolDiameter.Some?
      requires |lastTwo| == 2 && lastTwo[0] in data && lastTwo[1] in data && lastTwo[0] != lastTwo[1]
      ensures toolDiameter.value == lastTwo[1] ==> r == data[lastTwo[1]]
      ensures toolDiameter.value == lastTwo[0] ==> r == data[lastTwo[0]]
    {
      Interpolate(toolDiameter.value, lastTwo[0], data[lastTwo[0]], lastTwo[1], data[lastTwo[1]])
    }

    /** `suggest_chipload`: stores the diameter, then answers from the material's table. */
    method SuggestChipload(d: real) returns (r: Range)
      requires material.Some? && Suggestible(material.value.chiploads, d)
      modifies this
      ensures toolDiameter == Some(d)
      ensures r == Suggest(material.value.chiploads, d)
    {
      toolDiameter := Some(d);
      var data := material.value.chiploads;
      var diameters := SortedKeys(data.Keys);
      assert diameters[0] in data;
      if d <= diameters[0] {
        return data[diameters[0]];
      }
      if d >= diameters[|diameters| - 1] {
        return ExtrapolateChipload(data, diameters[|diameters| - 2..]);
      }
      for i := 0 to |diameters| - 1
        invariant FirstSegment(diameters, d, i) == FirstSegment(diameters, d, 0)
      {
        if diameters[i] <= d <= diameters[i + 1] {
          return Interpolate(d, diameters[i], data[diameters[i]], diameters[i + 1], data[diameters[i + 1]]);
        }
      }
      return data[diameters[0]];
    }
  }
}
