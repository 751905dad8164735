/**
 * The standalone Tk script `main.py`: the same formula, table and
 * interpolator as `feeds_and_speeds.py` (its `suggest_chipload` takes an extra
 * `flutes` argument it never reads), and a maximiser that scans per-flute
 * chipload with a ceiling of 6000 mm/min and then decides what to report.
 */
module MainScript {
  import opened Models
  import opened Parameters
  import FeedsAndSpeeds
  import ScanMaximiser

  /** The ceiling the maximiser stops at, and the warning threshold of the window. */
  const FeedrateCeiling: real := 6000.0

  /** `calculate_feedrate`. */
  function CalculateFeedrate(flutes: real, rpm: real, chipload: real, woc: real, toolDiameter: real,
                             sqrt: real -> real): real
    requires FeedrateDefined(woc, toolDiameter) && IsSqrt(sqrt)
  {
    FeedrateFormula(flutes, rpm, chipload, woc, toolDiameter, sqrt)
  }

  /** The same formula as `feeds_and_speeds.py`'s copy, for every input. */
  lemma SameFormulaAsFeedsAndSpeeds(flutes: real, rpm: real, chipload: real, woc: real, toolDiameter: real,
                                    sqrt: real -> real)
    requires FeedrateDefined(woc, toolDiameter) && IsSqrt(sqrt)
    ensures CalculateFeedrate(flutes, rpm, chipload, woc, toolDiameter, sqrt)
              == FeedsAndSpeeds.CalculateFeedrate(flutes, rpm, chipload, woc, toolDiameter, sqrt)
  {
  }

  /**
   * `suggest_chipload(flutes, tool_diameter, material_type)`: its body and
   * table are those of `feeds_and_speeds.py`; `flutes` is not read.
   */
  function SuggestChipload(flutes: real, toolDiameter: real, materialType: string): Range
    requires materialType in FeedsAndSpeeds.Chiploads()
  {
    FeedsAndSpeeds.SuggestChipload(toolDiameter, materialType)
  }

  /**
   * The result does not depend on `flutes`, and from 6 mm up its lower
   * endpoint is at least the 1.5 mm lower endpoint.
   */
  lemma SuggestChiploadIgnoresFlutes(flutes1: real, flutes2: real, toolDiameter: real, materialType: string)
    requires materialType in FeedsAndSpeeds.Chiploads()
    ensures SuggestChipload(flutes1, toolDiameter, materialType) == SuggestChipload(flutes2, toolDiameter, materialType)
    ensures toolDiameter >= 6.0 ==>
              SuggestChipload(flutes1, toolDiameter, materialType).lower >= FeedsAndSpeeds.Chiploads()[materialType][1.5].lower
  {
    if toolDiameter >= 6.0 {
      FeedsAndSpeeds.ExtrapolationFollowsLastTwoKnots(toolDiameter, materialType);
    }
  }

  /**
   * `update_guidelines`: its body is that of `feeds_and_speeds.py`, reading
   * the style and material from Tk variables instead of Qt comboboxes.
   */
  function UpdateGuidelines(toolDiameter: real, feedrate: real, cuttingStyle: string, material: string)
    : FeedsAndSpeeds.DisplayedGuidelines
  {
    FeedsAndSpeeds.UpdateGuidelines(toolDiameter, feedrate, cuttingStyle, material)
  }

  /** The feed at a per-flute chipload for the fixed inputs of one run. */
  function PerFluteFeed(flutes: real, rpm: real, woc: real, toolDiameter: real, sqrt: real -> real): (feed: real -> real)
    requires FeedrateDefined(woc, toolDiameter) && IsSqrt(sqrt)
  {
    chipload => CalculateFeedrate(flutes, rpm, chipload, woc, toolDiameter, sqrt)
  }

  /** With `rpm * flutes > 0` the feed strictly increases with the per-flute chipload. */
  lemma PerFluteFeedIncreasing(flutes: real, rpm: real, woc: real, toolDiameter: real, sqrt: real -> real,
                               x: real, y: real)
    requires FeedrateDefined(woc, toolDiameter) && IsSqrt(sqrt)
    requires rpm * flutes > 0.0 && x < y
    ensures PerFluteFeed(flutes, rpm, woc, toolDiameter, sqrt)(x) < PerFluteFeed(flutes, rpm, woc, toolDiameter, sqrt)(y)
  {
    FeedrateStrictlyMonotoneInChipload(flutes, rpm, x, y, woc, toolDiameter, sqrt);
  }

  /** What the handler reports once the scan is over. */
  datatype MaximizerOutcome =
    | NoValidFeedrate
    | Achieved(feedrate: real, chipload: real, offerRpmStep: bool)

  /**
   * `CNCCalculatorGUI.maximize_feedrate` on parsed inputs: scan the suggested
   * per-flute range with the ceiling 6000; report that nothing valid was found
   * exactly when no evaluated chipload gave a feedrate in (0, 6000]; otherwise
   * report the best pair, at the first chipload reaching it, offering the next
   * RPM step exactly when the best feedrate is below 6000 and was found at or
   * above the upper chipload. `visited` and `records` are the scan's ghost
   * history, fixed by `Scanned`.
   */
  method MaximizeFeedrate(flutes: real, toolDiameter: real, rpm: real, woc: real, materialType: string,
                          sqrt: real -> real)
    returns (outcome: MaximizerOutcome, ghost visited: nat, ghost records: seq<real>)
    requires materialType in FeedsAndSpeeds.Chiploads()
    requires FeedrateDefined(woc, toolDiameter) && IsSqrt(sqrt)
    ensures var range := SuggestChipload(flutes, toolDiameter, materialType);
            ScanMaximiser.Scanned(range.lower, range.upper, FeedrateCeiling,
                                  PerFluteFeed(flutes, rpm, woc, toolDiameter, sqrt), visited, records,
                                  if outcome.Achieved? then outcome.feedrate else 0.0,
                                  if outcome.Achieved? then outcome.chipload else range.lower)
    ensures var range := SuggestChipload(flutes, toolDiameter, materialType);
            var feed := PerFluteFeed(flutes, rpm, woc, toolDiameter, sqrt);
            && (outcome.NoValidFeedrate? <==>
                  forall j :: 0 <= j < visited ==> !(0.0 < feed(ScanMaximiser.GridPoint(range.lower, j)) <= FeedrateCeiling))
            && (outcome.Achieved? ==>
                  && 0.0 < outcome.feedrate <= FeedrateCeiling
                  && range.lower <= outcome.chipload <= range.upper
                  && outcome.feedrate == feed(outcome.chipload)
                  && (outcome.offerRpmStep <==> outcome.feedrate < FeedrateCeiling && outcome.chipload >= range.upper)
                  && (forall j :: (0 <= j < visited && feed(ScanMaximiser.GridPoint(range.lower, j)) <= FeedrateCeiling) ==>
                                  feed(ScanMaximiser.GridPoint(range.lower, j)) <= outcome.feedrate)
                  && forall j :: (0 <= j < visited && ScanMaximiser.GridPoint(range.lower, j) < outcome.chipload) ==>
                                 feed(ScanMaximiser.GridPoint(range.lower, j)) < outcome.feedrate)
  {
    var range := SuggestChipload(flutes, toolDiameter, materialType);
    var maxFeedrate, maxChipload;
    maxFeedrate, maxChipload, visited, records :=
      ScanMaximiser.Scan(range.lower, range.upper, FeedrateCeiling, PerFluteFeed(flutes, rpm, woc, toolDiameter, sqrt));
    ScanMaximiser.ZeroMeansNoValidFeedrate(range.lower, range.upper, FeedrateCeiling,
                                           PerFluteFeed(flutes, rpm, woc, toolDiameter, sqrt),
                                           visited, records, maxFeedrate, maxChipload);
    if maxFeedrate == 0.0 {
      return NoValidFeedrate, visited, records;
    }
    ScanMaximiser.RecordedResultBounds(range.lower, range.upper, FeedrateCeiling,
                                       PerFluteFeed(flutes, rpm, woc, toolDiameter, sqrt),
                                       visited, records, maxFeedrate, maxChipload);
    outcome := Achieved(maxFeedrate, maxChipload, maxFeedrate < FeedrateCeiling && maxChipload >= range.upper);
  }
}
