/**
 * The linear-scan maximiser both standalone scripts run inside their
 * `maximize_feedrate` handlers: starting at the lower chipload it steps by
 * 0.0001 while the chipload is at most the upper one, records every feedrate
 * above the best so far and within the ceiling, and stops at the first
 * feedrate over the ceiling. The two scripts differ only in the unit of the
 * chipload stepped (all flutes or one flute), which they express through the
 * feed function they pass, and in the ceiling.
 */
module ScanMaximiser {
  import ChiploadService

  /** The scan's increment. */
  const ChiploadStep: real := 0.0001

  /** The chipload `k` steps above `start`. */
  function GridPoint(start: real, k: nat): real {
    start + k as real * ChiploadStep
  }

  /**
   * What a finished scan from `lower` to `upper` has done: `visited` grid
   * points were evaluated, all within the upper bound, none but possibly the
   * last over the ceiling, and the scan stopped either past the upper bound or
   * on a feedrate over the ceiling; `maxFeedrate` is at least every feasible
   * feedrate seen; `records`, the feedrates recorded in order, increase
   * strictly and lie in (0, ceiling], the last one is `maxFeedrate`, taken at
   * the grid point `maxChipload`, the first grid point reaching it (only a
   * strictly larger feedrate is recorded); with nothing recorded both are the
   * initial values 0 and `lower`.
   */
  predicate Scanned(lower: real, upper: real, ceiling: real, feed: real -> real,
                    visited: nat, records: seq<real>, maxFeedrate: real, maxChipload: real)
  {
    && (forall j :: 0 <= j < visited ==> GridPoint(lower, j) <= upper)
    && (forall j :: 0 <= j < visited - 1 ==> feed(GridPoint(lower, j)) <= ceiling)
    && (GridPoint(lower, visited) > upper || (visited > 0 && feed(GridPoint(lower, visited - 1)) > ceiling))
    && (forall j :: (0 <= j < visited && feed(GridPoint(lower, j)) <= ceiling) ==> feed(GridPoint(lower, j)) <= maxFeedrate)
    && ChiploadService.StrictlyIncreasing(records)
    && (forall i :: 0 <= i < |records| ==> 0.0 < records[i] <= ceiling)
    && (maxFeedrate == 0.0 <==> records == [])
    && (records != [] ==>
          && records[|records| - 1] == maxFeedrate
          && maxFeedrate == feed(maxChipload)
          && (exists j :: 0 <= j < visited && maxChipload == GridPoint(lower, j))
          && (forall j :: 0 <= j < visited && GridPoint(lower, j) < maxChipload ==>
                           feed(GridPoint(lower, j)) < maxFeedrate))
    && (records == [] ==> maxChipload == lower)
  }

  /**
   * The loop invariant after `visited` passes that did not stop the scan:
   * every grid point evaluated was within the upper bound and the ceiling,
   * and the best feedrate is the last record, taken at grid point `maxIndex`,
   * every earlier grid point having a smaller feedrate.
   */
  predicate Progress(lower: real, upper: real, ceiling: real, feed: real -> real,
                     visited: nat, records: seq<real>, maxFeedrate: real, maxChipload: real, maxIndex: nat)
  {
    && (forall j :: 0 <= j < visited ==> GridPoint(lower, j) <= upper)
    && (forall j :: 0 <= j < visited ==> feed(GridPoint(lower, j)) <= ceiling)
    && (forall j :: 0 <= j < visited ==> feed(GridPoint(lower, j)) <= maxFeedrate)
    && ChiploadService.StrictlyIncreasing(records)
    && (forall i :: 0 <= i < |records| ==> 0.0 < records[i] <= ceiling)
    && (maxFeedrate == 0.0 <==> records == [])
    && (records == [] ==> maxFeedrate == 0.0 && maxChipload == lower)
    && (records != [] ==> && records[|records| - 1] == maxFeedrate
                          && maxIndex < visited && maxChipload == GridPoint(lower, maxIndex)
                          && maxFeedrate == feed(maxChipload)
                          && (forall j :: 0 <= j < maxIndex ==> feed(GridPoint(lower, j)) < maxFeedrate))
  }

  /** A pass whose feedrate beats the best and is within the ceiling records it. */
  lemma RecordKeepsProgress(lower: real, upper: real, ceiling: real, feed: real -> real,
                            visited: nat, records: seq<real>, maxFeedrate: real, maxChipload: real, maxIndex: nat)
    requires Progress(lower, upper, ceiling, feed, visited, records, maxFeedrate, maxChipload, maxIndex)
    requires GridPoint(lower, visited) <= upper
    requires maxFeedrate < feed(GridPoint(lower, visited)) <= ceiling
    ensures var c := GridPoint(lower, visited);
            Progress(lower, upper, ceiling, feed, visited + 1, records + [feed(c)], feed(c), c, visited)
  {
    var f := feed(GridPoint(lower, visited));
    if records != [] {
      assert 0.0 < records[0] <= maxFeedrate;
    }
    assert f > 0.0;
  }

  /** A pass whose feedrate is at most the best changes nothing but the count. */
  lemma SkipKeepsProgress(lower: real, upper: real, ceiling: real, feed: real -> real,
                          visited: nat, records: seq<real>, maxFeedrate: real, maxChipload: real, maxIndex: nat)
    requires Progress(lower, upper, ceiling, feed, visited, records, maxFeedrate, maxChipload, maxIndex)
    requires GridPoint(lower, visited) <= upper
    requires feed(GridPoint(lower, visited)) <= maxFeedrate && feed(GridPoint(lower, visited)) <= ceiling
    ensures Progress(lower, upper, ceiling, feed, visited + 1, records, maxFeedrate, maxChipload, maxIndex)
  {
  }

  /** The scan ends because the next grid point is past the upper bound. */
  lemma PastUpperBound(lower: real, upper: real, ceiling: real, feed: real -> real,
                       visited: nat, records: seq<real>, maxFeedrate: real, maxChipload: real, maxIndex: nat)
    requires Progress(lower, upper, ceiling, feed, visited, records, maxFeedrate, maxChipload, maxIndex)
    requires GridPoint(lower, visited) > upper
    ensures Scanned(lower, upper, ceiling, feed, visited, records, maxFeedrate, maxChipload)
  {
  }

  /** The scan ends because the grid point just evaluated is over the ceiling. */
  lemma OverCeiling(lower: real, upper: real, ceiling: real, feed: real -> real,
                    visited: nat, records: seq<real>, maxFeedrate: real, maxChipload: real, maxIndex: nat)
    requires Progress(lower, upper, ceiling, feed, visited, records, maxFeedrate, maxChipload, maxIndex)
    requires GridPoint(lower, visited) <= upper && feed(GridPoint(lower, visited)) > ceiling
    ensures Scanned(lower, upper, ceiling, feed, visited + 1, records, maxFeedrate, maxChipload)
  {
    assert forall j :: 0 <= j < visited + 1 && feed(GridPoint(lower, j)) <= ceiling ==> j < visited;
  }

  /**
   * The loop. `visited` and `records` are the ghost history `Scanned` speaks
   * of. It terminates because each pass adds 0.0001 and an exact real sum
   * eventually exceeds the upper bound. The loop is the last statement of
   * the scan, so its `break` is a `return` here.
   */
  method Scan(lower: real, upper: real, ceiling: real, feed: real -> real)
    returns (maxFeedrate: real, maxChipload: real, ghost visited: nat, ghost records: seq<real>)
    ensures Scanned(lower, upper, ceiling, feed, visited, records, maxFeedrate, maxChipload)
  {
    var currentChipload := lower;
    maxFeedrate := 0.0;
    maxChipload := currentChipload;
    visited, records := 0, [];
    ghost var maxIndex: nat := 0;
    ghost var bound: int := ((upper - lower) / ChiploadStep).Floor + 1;
    while currentChipload <= upper
      invariant currentChipload == GridPoint(lower, visited)
      invariant Progress(lower, upper, ceiling, feed, visited, records, maxFeedrate, maxChipload, maxIndex)
      decreases bound - visited
    {
      var feedrate := feed(currentChipload);
      if maxFeedrate < feedrate <= ceiling {
        RecordKeepsProgress(lower, upper, ceiling, feed, visited, records, maxFeedrate, maxChipload, maxIndex);
        maxFeedrate := feedrate;
        maxChipload := currentChipload;
        records, maxIndex := records + [feedrate], visited;
      } else if feedrate > ceiling {
        OverCeiling(lower, upper, ceiling, feed, visited, records, maxFeedrate, maxChipload, maxIndex);
        visited := visited + 1;
        return;
      } else {
        SkipKeepsProgress(lower, upper, ceiling, feed, visited, records, maxFeedrate, maxChipload, maxIndex);
      }
      currentChipload := currentChipload + ChiploadStep;
      visited := visited + 1;
    }
    PastUpperBound(lower, upper, ceiling, feed, visited, records, maxFeedrate, maxChipload, maxIndex);
  }

  /**
   * A zero result is exactly the "no valid feedrate" outcome: no evaluated
   * grid point had a feedrate in (0, ceiling].
   */
  lemma ZeroMeansNoValidFeedrate(lower: real, upper: real, ceiling: real, feed: real -> real,
                                 visited: nat, records: seq<real>, maxFeedrate: real, maxChipload: real)
    requires Scanned(lower, upper, ceiling, feed, visited, records, maxFeedrate, maxChipload)
    ensures maxFeedrate == 0.0 <==> forall j :: 0 <= j < visited ==> !(0.0 < feed(GridPoint(lower, j)) <= ceiling)
  {
    if maxFeedrate != 0.0 {
      var j :| 0 <= j < visited && maxChipload == GridPoint(lower, j);
      var last := records[|records| - 1];
      assert 0.0 < last <= ceiling;
      assert feed(GridPoint(lower, j)) == maxFeedrate;
    }
  }

  /** A recorded result lies in (0, ceiling] and its chipload in [lower, upper]. */
  lemma RecordedResultBounds(lower: real, upper: real, ceiling: real, feed: real -> real,
                             visited: nat, records: seq<real>, maxFeedrate: real, maxChipload: real)
    requires Scanned(lower, upper, ceiling, feed, visited, records, maxFeedrate, maxChipload)
    requires maxFeedrate != 0.0
    ensures 0.0 < maxFeedrate <= ceiling
    ensures lower <= maxChipload <= upper
  {
    var last := records[|records| - 1];
    assert 0.0 < last <= ceiling;
    var j :| 0 <= j < visited && maxChipload == GridPoint(lower, j);
  }
}
