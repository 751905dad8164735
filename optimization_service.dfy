/**
 * `FeedrateOptimizationService.maximize_feedrate`: a bisection over the
 * chipload range tabulated for the exact tool diameter. Every step writes the
 * midpoint into the shared parameters and reads back the feedrate.
 *
 * As written, the ceiling argument is overwritten with 0 before the loop, so
 * a midpoint is accepted only when its feedrate is at most the best feedrate
 * accepted so far. `Threshold` names both readings of the comparison: the
 * as-written one (`BestSoFar`) and the evidently intended one (`Ceiling`).
 */
module OptimizationService {
  import opened Wrappers
  import opened Models
  import opened Parameters

  /** The loop variables: the bracket and the best pair recorded so far. */
  datatype Bracket = Bracket(lower: real, upper: real, best: real, bestChipload: real)

  /** What a midpoint's feedrate is compared against. */
  datatype Threshold = BestSoFar | Ceiling(value: real)

  function Abs(x: real): real {
    if x < 0.0 then -x else x
  }

  /** `w` doubled `k` times, that is `w * 2^k`, written so that each step is linear. */
  function Doubled(w: real, k: nat): real {
    if k == 0 then w else 2.0 * Doubled(w, k - 1)
  }

  lemma {:induction false} DoubledMonotone(x: real, y: real, k: nat)
    requires x <= y
    ensures Doubled(x, k) <= Doubled(y, k)
    ensures x < y ==> Doubled(x, k) < Doubled(y, k)
  {
    if k > 0 {
      DoubledMonotone(x, y, k - 1);
    }
  }

  lemma {:induction false} DoubledOfTwice(x: real, k: nat)
    ensures Doubled(2.0 * x, k) == 2.0 * Doubled(x, k)
  {
    if k > 0 {
      DoubledOfTwice(x, k - 1);
    }
  }

  lemma {:induction false} DoubledGrows(x: real, k: nat)
    requires x > 0.0
    ensures Doubled(x, k) >= (k as real + 1.0) * x
  {
    if k > 0 {
      DoubledGrows(x, k - 1);
    }
  }

  lemma BelowQuotient(x: real, a: real, w: real)
    requires a > 0.0 && x * a < w
    ensures x < w / a
  {
    var q := w / a;
    assert q * a == w;
    if x >= q {
      assert false;
    }
  }

  function Width(b: Bracket): real {
    Abs(b.upper - b.lower)
  }

  function Midpoint(b: Bracket): real {
    (b.lower + b.upper) / 2.0
  }

  function Limit(t: Threshold, b: Bracket): real {
    match t
    case BestSoFar => b.best
    case Ceiling(m) => m
  }

  /** Lines 11-13: the bracket is the tabulated pair; nothing recorded yet. */
  function InitialBracket(range: Range): Bracket {
    Bracket(range.lower, range.upper, 0.0, range.lower)
  }

  /**
   * One pass of the loop body given the midpoint's feedrate: the bracket halves
   * and stays inside the old one, and the best pair changes only by recording
   * the midpoint when its feedrate is within the limit.
   */
  function Bisect(b: Bracket, feedrate: real, limit: real): (r: Bracket)
    ensures 2.0 * Width(r) == Width(b)
    ensures b.lower <= b.upper ==> b.lower <= r.lower <= r.upper <= b.upper
    ensures r.lower == b.lower || r.upper == b.upper
    ensures (r.best, r.bestChipload) == if feedrate <= limit then (feedrate, Midpoint(b)) else (b.best, b.bestChipload)
  {
    var mid := Midpoint(b);
    if feedrate <= limit then Bracket(mid, b.upper, feedrate, mid)
    else Bracket(b.lower, mid, b.best, b.bestChipload)
  }

  /** The loop variables after `k` passes, starting from `b0`. */
  function Search(st: State, sqrt: real -> real, b0: Bracket, t: Threshold, k: nat): Bracket
    requires FeedrateDefined(st.woc, st.toolDiameter) && IsSqrt(sqrt)
  {
    if k == 0 then b0
    else
      var b := Search(st, sqrt, b0, t, k - 1);
      Bisect(b, FeedAt(st, Midpoint(b), sqrt), Limit(t, b))
  }

  /** The chiploads the search starts from: the table's pair for the exact tool diameter. */
  function TableRange(st: State): Range
    requires st.material.Some? && st.toolDiameter in st.material.value.chiploads
  {
    st.material.value.chiploads[st.toolDiameter]
  }

  /** The shared parameters after `k` passes: the last midpoint tried is their chipload. */
  function ParametersAfter(st: State, sqrt: real -> real, k: nat): State
    requires st.material.Some? && st.toolDiameter in st.material.value.chiploads
    requires FeedrateDefined(st.woc, st.toolDiameter) && IsSqrt(sqrt)
  {
    if k == 0 then st
    else st.(chipload := Some(Midpoint(Search(st, sqrt, InitialBracket(TableRange(st)), BestSoFar, k - 1))))
  }

  /** `k` is the number of passes the loop condition of line 15 allows. */
  predicate IsIterationCount(w0: real, increment: real, k: nat) {
    && w0 <= Doubled(increment, k)
    && forall j :: 0 <= j < k ==> w0 > Doubled(increment, j)
  }

  /** After `k` passes the bracket is `2^k` times narrower. */
  lemma {:induction false} SearchHalves(st: State, sqrt: real -> real, b0: Bracket, t: Threshold, k: nat)
    requires FeedrateDefined(st.woc, st.toolDiameter) && IsSqrt(sqrt)
    ensures Doubled(Width(Search(st, sqrt, b0, t, k)), k) == Width(b0)
  {
    if k > 0 {
      SearchHalves(st, sqrt, b0, t, k - 1);
      DoubledOfTwice(Width(Search(st, sqrt, b0, t, k)), k - 1);
    }
  }

  /** An ordered initial bracket contains every later one. */
  lemma {:induction false} SearchStaysInBracket(st: State, sqrt: real -> real, b0: Bracket, t: Threshold, k: nat)
    requires FeedrateDefined(st.woc, st.toolDiameter) && IsSqrt(sqrt)
    requires b0.lower <= b0.upper
    ensures var b := Search(st, sqrt, b0, t, k);
            b0.lower <= b.lower <= b.upper <= b0.upper
  {
    if k > 0 {
      SearchStaysInBracket(st, sqrt, b0, t, k - 1);
    }
  }

  /**
   * Termination of line 15: a pass happens only while the bracket is wider
   * than the increment, so `k` passes need `w0 > increment * 2^(k-1)`, which
   * bounds `k` by `w0 / increment`.
   */
  lemma PassesBound(w0: real, increment: real, k: nat)
    requires increment > 0.0 && w0 >= 0.0
    requires forall j :: 0 <= j < k ==> w0 > Doubled(increment, j)
    ensures k as real <= w0 / increment
  {
    if k > 0 {
      assert w0 > Doubled(increment, k - 1);
      DoubledGrows(increment, k - 1);
      BelowQuotient(k as real, increment, w0);
    }
  }

  /** One more pass, taken because the bracket is still wider than the increment, keeps the pass count's bounds. */
  lemma PassKeepsCount(st: State, sqrt: real -> real, b0: Bracket, t: Threshold, increment: real, k: nat)
    requires FeedrateDefined(st.woc, st.toolDiameter) && IsSqrt(sqrt)
    requires forall j :: 0 <= j < k ==> Width(b0) > Doubled(increment, j)
    requires Width(Search(st, sqrt, b0, t, k)) > increment
    ensures forall j :: 0 <= j < k + 1 ==> Width(b0) > Doubled(increment, j)
    ensures Doubled(Width(Search(st, sqrt, b0, t, k + 1)), k + 1) == Width(b0)
  {
    SearchHalves(st, sqrt, b0, t, k);
    DoubledMonotone(increment, Width(Search(st, sqrt, b0, t, k)), k);
    SearchHalves(st, sqrt, b0, t, k + 1);
  }

  /**
   * As written, with positive rpm and flutes and a positive lower chipload,
   * every midpoint has a positive feedrate, which never is at most the
   * recorded best of 0: nothing is ever recorded and the bracket only moves
   * down.
   */
  lemma {:induction false} AsWrittenNeverRecords(st: State, sqrt: real -> real, range: Range, k: nat)
    requires FeedrateDefined(st.woc, st.toolDiameter) && IsSqrt(sqrt)
    requires st.flutes > 0 && st.rpm > 0.0 && 0.0 < range.lower <= range.upper
    ensures var b := Search(st, sqrt, InitialBracket(range), BestSoFar, k);
            b.best == 0.0 && b.bestChipload == range.lower && b.lower == range.lower
  {
    if k > 0 {
      AsWrittenNeverRecords(st, sqrt, range, k - 1);
      var b := Search(st, sqrt, InitialBracket(range), BestSoFar, k - 1);
      SearchStaysInBracket(st, sqrt, InitialBracket(range), BestSoFar, k - 1);
      FeedratePositive(st.flutes as real, st.rpm, Midpoint(b), st.woc, st.toolDiameter, sqrt);
    }
  }

  /**
   * With the ceiling as the threshold, the recorded chipload is the bracket's
   * lower end and is either the untouched start or a chipload within the
   * ceiling; the upper end is either the untouched start or over the ceiling.
   */
  lemma {:induction false} CeilingSearchInvariant(st: State, sqrt: real -> real, range: Range, ceiling: real, k: nat)
    requires FeedrateDefined(st.woc, st.toolDiameter) && IsSqrt(sqrt)
    ensures var b := Search(st, sqrt, InitialBracket(range), Ceiling(ceiling), k);
            && b.bestChipload == b.lower
            && ((b.best == 0.0 && b.lower == range.lower) || b.best == FeedAt(st, b.lower, sqrt) <= ceiling)
            && (b.upper == range.upper || FeedAt(st, b.upper, sqrt) > ceiling)
  {
    if k > 0 {
      CeilingSearchInvariant(st, sqrt, range, ceiling, k - 1);
    }
  }

  /**
   * The evidently intended search: when feed grows with chipload, the
   * returned chipload is within the ceiling, and every chipload of the range
   * whose feed is within the ceiling is at most the returned chipload plus the
   * increment; strictly less when the top of the range is over the ceiling.
   */
  lemma CeilingSearchNearOptimal(st: State, sqrt: real -> real, range: Range, ceiling: real,
                                 increment: real, k: nat, c: real)
    requires FeedrateDefined(st.woc, st.toolDiameter) && IsSqrt(sqrt)
    requires st.rpm * (st.flutes as real) >= 0.0 && range.lower <= range.upper
    requires IsIterationCount(range.upper - range.lower, increment, k)
    requires range.lower <= c <= range.upper && FeedAt(st, c, sqrt) <= ceiling
    ensures var b := Search(st, sqrt, InitialBracket(range), Ceiling(ceiling), k);
            && c <= b.bestChipload + increment
            && (FeedAt(st, range.upper, sqrt) > ceiling ==> c < b.bestChipload + increment)
            && FeedAt(st, b.bestChipload, sqrt) <= ceiling
  {
    var b0 := InitialBracket(range);
    var b := Search(st, sqrt, b0, Ceiling(ceiling), k);
    CeilingSearchInvariant(st, sqrt, range, ceiling, k);
    SearchStaysInBracket(st, sqrt, b0, Ceiling(ceiling), k);
    AtMostUpperEnd(st, sqrt, range, ceiling, k, c);
    if FeedAt(st, range.upper, sqrt) > ceiling {
      BelowUpperEnd(st, sqrt, range, ceiling, k, c);
    }
    NarrowerThanIncrement(st, sqrt, b0, Ceiling(ceiling), increment, k);
    if b.lower == range.lower {
      assert range.lower <= c;
      FeedrateMonotoneInChipload(st.flutes as real, st.rpm, range.lower, c, st.woc, st.toolDiameter, sqrt);
    }
  }

  /** A chipload within the ceiling stays below the bracket's upper end, which is always over it. */
  lemma BelowUpperEnd(st: State, sqrt: real -> real, range: Range, ceiling: real, k: nat, c: real)
    requires FeedrateDefined(st.woc, st.toolDiameter) && IsSqrt(sqrt)
    requires st.rpm * (st.flutes as real) >= 0.0
    requires FeedAt(st, range.upper, sqrt) > ceiling && FeedAt(st, c, sqrt) <= ceiling
    ensures c < Search(st, sqrt, InitialBracket(range), Ceiling(ceiling), k).upper
  {
    var b := Search(st, sqrt, InitialBracket(range), Ceiling(ceiling), k);
    CeilingSearchInvariant(st, sqrt, range, ceiling, k);
    if c >= b.upper {
      FeedrateMonotoneInChipload(st.flutes as real, st.rpm, b.upper, c, st.woc, st.toolDiameter, sqrt);
      assert false;
    }
  }

  /**
   * A chipload of the range within the ceiling is never above the bracket's
   * upper end, which is either the top of the range or over the ceiling.
   */
  lemma AtMostUpperEnd(st: State, sqrt: real -> real, range: Range, ceiling: real, k: nat, c: real)
    requires FeedrateDefined(st.woc, st.toolDiameter) && IsSqrt(sqrt)
    requires st.rpm * (st.flutes as real) >= 0.0
    requires c <= range.upper && FeedAt(st, c, sqrt) <= ceiling
    ensures c <= Search(st, sqrt, InitialBracket(range), Ceiling(ceiling), k).upper
  {
    var b := Search(st, sqrt, InitialBracket(range), Ceiling(ceiling), k);
    CeilingSearchInvariant(st, sqrt, range, ceiling, k);
    if c > b.upper {
      FeedrateMonotoneInChipload(st.flutes as real, st.rpm, b.upper, c, st.woc, st.toolDiameter, sqrt);
      assert false;
    }
  }

  /** After the counted passes the bracket is no wider than the increment. */
  lemma NarrowerThanIncrement(st: State, sqrt: real -> real, b0: Bracket, t: Threshold, increment: real, k: nat)
    requires FeedrateDefined(st.woc, st.toolDiameter) && IsSqrt(sqrt)
    requires IsIterationCount(Width(b0), increment, k)
    ensures Width(Search(st, sqrt, b0, t, k)) <= increment
  {
    var b := Search(st, sqrt, b0, t, k);
    SearchHalves(st, sqrt, b0, t, k);
    if Width(b) > increment {
      DoubledMonotone(increment, Width(b), k);
      assert false;
    }
  }

  /** `FeedrateOptimizationService`: it holds the shared parameters and writes their chipload. */
  class FeedrateOptimizationService {
    const parameters: CuttingParameters

    constructor (parameters: CuttingParameters)
      ensures this.parameters == parameters
    {
      this.parameters := parameters;
    }

    /**
     * `maximize_feedrate`, as written. The result is the best pair after the
     * number of bisection passes the increment allows; the parameters end with
     * the last midpoint tried as their chipload and are otherwise unchanged.
     * `iterations` is the number of passes.
     */
    method MaximizeFeedrate(maxFeedrate: real, chiploadIncrement: real, sqrt: real -> real)
      returns (bestFeedrate: real, bestChipload: real, ghost iterations: nat)
      requires parameters.material.Some? && parameters.toolDiameter in parameters.material.value.chiploads
      requires FeedrateDefined(parameters.woc, parameters.toolDiameter) && IsSqrt(sqrt)
      requires var range := parameters.material.value.chiploads[parameters.toolDiameter];
               chiploadIncrement > 0.0 || Abs(range.upper - range.lower) <= chiploadIncrement
      modifies parameters
      ensures var st := old(parameters.Value());
              var b0 := InitialBracket(TableRange(st));
              var b := Search(st, sqrt, b0, BestSoFar, iterations);
              && IsIterationCount(Width(b0), chiploadIncrement, iterations)
              && bestFeedrate == b.best && bestChipload == b.bestChipload
              && parameters.Value() == ParametersAfter(st, sqrt, iterations)
    {
      ghost var st := parameters.Value();
      var range := parameters.material.value.chiploads[parameters.toolDiameter];
      ghost var b0 := InitialBracket(TableRange(st));
      var lowerChipload, upperChipload := range.lower, range.upper;
      // line 12: the ceiling argument is replaced by the best feedrate so far
      var bestSoFar := 0.0;
      var maxChipload := lowerChipload;
      ghost var w0 := Width(b0);
      ghost var bound: int := if chiploadIncrement > 0.0 then (w0 / chiploadIncrement).Floor + 1 else 0;
      iterations := 0;
      while Abs(upperChipload - lowerChipload) > chiploadIncrement
        invariant Bracket(lowerChipload, upperChipload, bestSoFar, maxChipload) == Search(st, sqrt, b0, BestSoFar, iterations)
        invariant Doubled(Abs(upperChipload - lowerChipload), iterations) == w0
        invariant forall j :: 0 <= j < iterations ==> w0 > Doubled(chiploadIncrement, j)
        invariant parameters.Value() == ParametersAfter(st, sqrt, iterations)
        invariant chiploadIncrement > 0.0 ==> iterations as real <= w0 / chiploadIncrement
        decreases bound - iterations
      {
        ghost var b := Search(st, sqrt, b0, BestSoFar, iterations);
        PassKeepsCount(st, sqrt, b0, BestSoFar, chiploadIncrement, iterations);
        var midChipload := (lowerChipload + upperChipload) / 2.0;
        parameters.chipload := Some(midChipload);
        assert parameters.Value() == st.(chipload := Some(midChipload));
        var feedrate := parameters.Feedrate(sqrt);
        assert feedrate == FeedAt(st.(chipload := Some(midChipload)), midChipload, sqrt);
        FeedAtIgnoresChipload(st, Some(midChipload), midChipload, sqrt);
        assert midChipload == Midpoint(b);
        if feedrate <= bestSoFar {
          bestSoFar := feedrate;
          maxChipload := midChipload;
          lowerChipload := midChipload;
        } else {
          upperChipload := midChipload;
        }
        ghost var next := Search(st, sqrt, b0, BestSoFar, iterations + 1);
        assert Bracket(lowerChipload, upperChipload, bestSoFar, maxChipload) == Bisect(b, feedrate, b.best) == next;
        assert Doubled(Abs(upperChipload - lowerChipload), iterations + 1) == w0;
        iterations := iterations + 1;
        assert ParametersAfter(st, sqrt, iterations) == st.(chipload := Some(midChipload));
        PassesBound(w0, chiploadIncrement, iterations);
      }
      DoubledMonotone(Abs(upperChipload - lowerChipload), chiploadIncrement, iterations);
      assert IsIterationCount(w0, chiploadIncrement, iterations);
      return bestSoFar, maxChipload, iterations;
    }
  }
}
