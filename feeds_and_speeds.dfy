/**
 * The standalone Qt script `feeds_and_speeds.py`: its own copy of the feedrate
 * formula, a hard-coded three-knot chipload interpolator, the numeric part of
 * the guideline display, and the linear scan of the maximiser, which works in
 * total (all-flute) chipload units with a ceiling of 10000 mm/min.
 */
module FeedsAndSpeeds {
  import opened Wrappers
  import opened Models
  import opened Parameters
  import ChiploadService
  import GuidelinesService
  import MaterialRepository
  import CuttingStyleRepository
  import ScanMaximiser

  const MaximumFeedrate: real := 10000.0

  /** `calculate_feedrate`: textually the same formula as `CuttingParameters.calculate_feedrate`. */
  function CalculateFeedrate(flutes: real, rpm: real, chiploadPerFlute: real, woc: real, toolDiameter: real,
                             sqrt: real -> real): real
    requires FeedrateDefined(woc, toolDiameter) && IsSqrt(sqrt)
  {
    FeedrateFormula(flutes, rpm, chiploadPerFlute, woc, toolDiameter, sqrt)
  }

  /** The base feed for a wide cut; at least the base feed for a cut of at most half the diameter. */
  lemma CalculateFeedrateBounds(flutes: real, rpm: real, chiploadPerFlute: real, woc: real, toolDiameter: real,
                                sqrt: real -> real)
    requires FeedrateDefined(woc, toolDiameter) && IsSqrt(sqrt)
    ensures woc > toolDiameter / 2.0 ==>
              CalculateFeedrate(flutes, rpm, chiploadPerFlute, woc, toolDiameter, sqrt) == rpm * chiploadPerFlute * flutes
    ensures 0.0 < woc <= toolDiameter / 2.0 && rpm * chiploadPerFlute * flutes >= 0.0 ==>
              CalculateFeedrate(flutes, rpm, chiploadPerFlute, woc, toolDiameter, sqrt) >= rpm * chiploadPerFlute * flutes
  {
    if woc > toolDiameter / 2.0 {
      WideCutIsBaseFeedrate(flutes, rpm, chiploadPerFlute, woc, toolDiameter, sqrt);
    } else if 0.0 < woc && rpm * chiploadPerFlute * flutes >= 0.0 {
      NarrowCutAtLeastBase(flutes, rpm, chiploadPerFlute, woc, toolDiameter, sqrt);
    }
  }

  /** The `chiploads` dictionary literal inside `suggest_chipload`. */
  function Chiploads(): map<string, map<real, Range>> {
    map[
      "Soft plastics" := map[1.5 := Range(0.05, 0.075), 3.175 := Range(0.05, 0.13), 6.0 := Range(0.05, 0.254)],
      "Soft wood & hard plastics" := map[1.5 := Range(0.025, 0.04), 3.175 := Range(0.025, 0.063), 6.0 := Range(0.025, 0.127)],
      "Hard wood & aluminium" := map[1.5 := Range(0.013, 0.013), 3.175 := Range(0.013, 0.025), 6.0 := Range(0.025, 0.05)]
    ]
  }

  /** The `diameters` list. */
  const Diameters: seq<real> := [1.5, 3.175, 6.0]

  /** The script's tables are exactly the layered package's material tables. */
  lemma TablesCoincideWithRepository()
    ensures Chiploads().Keys == MaterialRepository.Materials().Keys
    ensures forall name :: name in Chiploads() ==> Chiploads()[name] == MaterialRepository.Materials()[name].chiploads
  {
  }

  lemma TableKeys(materialType: string)
    requires materialType in Chiploads()
    ensures Chiploads()[materialType].Keys == {1.5, 3.175, 6.0}
  {
  }

  /** `[d for d in diameters if d <= x]` */
  function AtMost(ds: seq<real>, x: real): (r: seq<real>)
    ensures forall d :: d in r <==> d in ds && d <= x
  {
    if ds == [] then [] else (if ds[0] <= x then [ds[0]] else []) + AtMost(ds[1..], x)
  }

  /** `[d for d in diameters if d >= x]` */
  function AtLeast(ds: seq<real>, x: real): (r: seq<real>)
    ensures forall d :: d in r <==> d in ds && d >= x
  {
    if ds == [] then [] else (if ds[0] >= x then [ds[0]] else []) + AtLeast(ds[1..], x)
  }

  /** `max` of a non-empty list. */
  function MaxOf(s: seq<real>): (m: real)
    requires s != []
    ensures m in s && forall d :: d in s ==> d <= m
  {
    if |s| == 1 then s[0]
    else
      assert s == [s[0]] + s[1..];
      var rest := MaxOf(s[1..]);
      if s[0] >= rest then s[0] else rest
  }

  /** `min` of a non-empty list. */
  function MinOf(s: seq<real>): (m: real)
    requires s != []
    ensures m in s && forall d :: d in s ==> m <= d
  {
    if |s| == 1 then s[0]
    else
      assert s == [s[0]] + s[1..];
      var rest := MinOf(s[1..]);
      if s[0] <= rest then s[0] else rest
  }

  function Max(a: real, b: real): real {
    if a >= b then a else b
  }

  /** Inside (1.5, 6) the comprehensions pick the knots on either side of the diameter. */
  lemma BracketingKnots(d: real)
    requires 1.5 < d < 6.0
    ensures 1.5 in AtMost(Diameters, d) && 6.0 in AtLeast(Diameters, d)
    ensures var lo, hi := MaxOf(AtMost(Diameters, d)), MinOf(AtLeast(Diameters, d));
            && (d < 3.175 ==> lo == 1.5 && hi == 3.175)
            && (d == 3.175 ==> lo == 3.175 && hi == 3.175)
            && (d > 3.175 ==> lo == 3.175 && hi == 6.0)
  {
    assert 1.5 in Diameters && 3.175 in Diameters && 6.0 in Diameters;
    var lo, hi := MaxOf(AtMost(Diameters, d)), MinOf(AtLeast(Diameters, d));
    assert lo in Diameters && hi in Diameters;
    if d >= 3.175 {
      assert 3.175 in AtMost(Diameters, d);
    }
    if d <= 3.175 {
      assert 3.175 in AtLeast(Diameters, d);
    }
  }

  /**
   * `suggest_chipload`: the 1.5 mm pair at or below 1.5 mm; from 6 mm up the
   * slope of the 3.175 to 6 segment continued, with the lower endpoint kept
   * at least the 1.5 mm lower endpoint; in between the pair at an exact knot,
   * otherwise the line between the bracketing knots. An unknown material is
   * a `KeyError` in the source and excluded here.
   */
  function SuggestChipload(toolDiameter: real, materialType: string): Range
    requires materialType in Chiploads()
  {
    TableKeys(materialType);
    var data := Chiploads()[materialType];
    if toolDiameter <= 1.5 then data[1.5]
    else if toolDiameter >= 6.0 then
      var lowerDiameter, upperDiameter := 3.175, 6.0;
      var lowerRange, upperRange := data[lowerDiameter], data[upperDiameter];
      var slopeLower := (upperRange.lower - lowerRange.lower) / (upperDiameter - lowerDiameter);
      var slopeUpper := (upperRange.upper - lowerRange.upper) / (upperDiameter - lowerDiameter);
      var extrapolatedLower := upperRange.lower + slopeLower * (toolDiameter - upperDiameter);
      var extrapolatedUpper := upperRange.upper + slopeUpper * (toolDiameter - upperDiameter);
      Range(Max(extrapolatedLower, data[1.5].lower), extrapolatedUpper)
    else
      assert 1.5 in AtMost(Diameters, toolDiameter) && 6.0 in AtLeast(Diameters, toolDiameter);
      var lowerDiameter := MaxOf(AtMost(Diameters, toolDiameter));
      var upperDiameter := MinOf(AtLeast(Diameters, toolDiameter));
      if lowerDiameter == upperDiameter then data[lowerDiameter]
      else
        ChiploadService.Interpolate(toolDiameter, lowerDiameter, data[lowerDiameter], upperDiameter, data[upperDiameter])
  }

  /** At or below 1.5 mm the 1.5 mm pair comes back unchanged. */
  lemma SuggestAtMostSmallestKnot(toolDiameter: real, materialType: string)
    requires materialType in Chiploads() && toolDiameter <= 1.5
    ensures SuggestChipload(toolDiameter, materialType) == Chiploads()[materialType][1.5]
  {
  }

  /**
   * From 6 mm up both endpoints are the line through the 3.175 and 6 mm knots;
   * the lower one is then raised to the 1.5 mm lower endpoint if it falls below.
   */
  lemma ExtrapolationFollowsLastTwoKnots(toolDiameter: real, materialType: string)
    requires materialType in Chiploads() && toolDiameter >= 6.0
    ensures var data := Chiploads()[materialType];
            var r := SuggestChipload(toolDiameter, materialType);
            && r.upper == ChiploadService.Line(toolDiameter, 3.175, data[3.175].upper, 6.0, data[6.0].upper)
            && r.lower == Max(ChiploadService.Line(toolDiameter, 3.175, data[3.175].lower, 6.0, data[6.0].lower),
                              data[1.5].lower)
            && r.lower >= data[1.5].lower
  {
    TableKeys(materialType);
    var data := Chiploads()[materialType];
    SlopeFormIsLine(toolDiameter, data[3.175].lower, data[6.0].lower);
    SlopeFormIsLine(toolDiameter, data[3.175].upper, data[6.0].upper);
  }

  /** Continuing the 3.175 to 6 mm slope from the 6 mm knot is the two-point line. */
  lemma SlopeFormIsLine(x: real, y1: real, y2: real)
    ensures y2 + (y2 - y1) / (6.0 - 3.175) * (x - 6.0) == ChiploadService.Line(x, 3.175, y1, 6.0, y2)
  {
    var s := (y2 - y1) / (6.0 - 3.175);
    assert s * 2.825 == y2 - y1;
    assert ChiploadService.Line(x, 3.175, y1, 6.0, y2) == y1 + (x - 3.175) * s;
  }

  /**
   * For the three shipped tables the 3.175 to 6 mm lower slope is not
   * negative, so from 6 mm up the clamp never changes the lower endpoint.
   */
  lemma ClampNeverBites(toolDiameter: real, materialType: string)
    requires materialType in Chiploads() && toolDiameter >= 6.0
    ensures var data := Chiploads()[materialType];
            SuggestChipload(toolDiameter, materialType).lower
              == ChiploadService.Line(toolDiameter, 3.175, data[3.175].lower, 6.0, data[6.0].lower)
  {
    var data := Chiploads()[materialType];
    ExtrapolationFollowsLastTwoKnots(toolDiameter, materialType);
    var y1, y2 := data[3.175].lower, data[6.0].lower;
    assert data[1.5].lower <= y1 <= y2;
    var t := (toolDiameter - 3.175) / (6.0 - 3.175);
    assert t >= 1.0;
    assert ChiploadService.Line(toolDiameter, 3.175, y1, 6.0, y2) == y1 + t * (y2 - y1);
    assert t * (y2 - y1) >= 0.0;
  }

  /**
   * For every diameter and every shipped material the script suggests exactly
   * what `ChiploadCalculationService` suggests from the repository's table.
   */
  lemma AgreesWithChiploadService(toolDiameter: real, materialType: string)
    requires materialType in Chiploads()
    ensures var m := MaterialRepository.Materials()[materialType].chiploads;
            ChiploadService.Suggestible(m, toolDiameter)
            && SuggestChipload(toolDiameter, materialType) == ChiploadService.Suggest(m, toolDiameter)
  {
    TablesCoincideWithRepository();
    var m := MaterialRepository.Materials()[materialType].chiploads;
    assert m == Chiploads()[materialType];
    var d := toolDiameter;
    if d <= 1.5 {
      AgreeBelowTable(d, materialType, m);
    } else if d >= 6.0 {
      AgreeAboveTable(d, materialType, m);
    } else {
      AgreeInsideTable(d, materialType, m);
    }
  }

  lemma AgreeBelowTable(d: real, materialType: string, m: map<real, Range>)
    requires materialType in Chiploads() && m == Chiploads()[materialType] && d <= 1.5
    ensures ChiploadService.Suggestible(m, d) && SuggestChipload(d, materialType) == ChiploadService.Suggest(m, d)
  {
    TableKeys(materialType);
    ChiploadService.SuggestBelowSmallestKey(m, 1.5, d);
  }

  lemma AgreeAboveTable(d: real, materialType: string, m: map<real, Range>)
    requires materialType in Chiploads() && m == Chiploads()[materialType] && d >= 6.0
    ensures ChiploadService.Suggestible(m, d) && SuggestChipload(d, materialType) == ChiploadService.Suggest(m, d)
  {
    TableKeys(materialType);
    ChiploadService.SuggestAboveLargestKey(m, 3.175, 6.0, d);
    ExtrapolationFollowsLastTwoKnots(d, materialType);
    ClampNeverBites(d, materialType);
  }

  lemma AgreeInsideTable(d: real, materialType: string, m: map<real, Range>)
    requires materialType in Chiploads() && m == Chiploads()[materialType] && 1.5 < d < 6.0
    ensures ChiploadService.Suggestible(m, d) && SuggestChipload(d, materialType) == ChiploadService.Suggest(m, d)
  {
    if d == 3.175 {
      TableKeys(materialType);
      BracketingKnots(d);
      ChiploadService.SuggestAtKey(m, d);
    } else if d < 3.175 {
      AgreeInSegment(d, materialType, m, 1.5, 3.175);
    } else {
      AgreeInSegment(d, materialType, m, 3.175, 6.0);
    }
  }

  lemma AgreeInSegment(d: real, materialType: string, m: map<real, Range>, a: real, b: real)
    requires materialType in Chiploads() && m == Chiploads()[materialType]
    requires (a == 1.5 && b == 3.175) || (a == 3.175 && b == 6.0)
    requires a < d < b
    ensures ChiploadService.Suggestible(m, d) && SuggestChipload(d, materialType) == ChiploadService.Suggest(m, d)
  {
    TableKeys(materialType);
    BracketingKnots(d);
    ChiploadService.SuggestBetweenAdjacentKeys(m, a, b, d);
  }

  /**
   * Strictly between 1.5 and 6 mm: an exact knot gives its pair; otherwise each
   * endpoint lies between the endpoints of the bracketing knots.
   */
  lemma SuggestInsideTable(toolDiameter: real, materialType: string)
    requires materialType in Chiploads() && 1.5 < toolDiameter < 6.0
    ensures var data := Chiploads()[materialType];
            var r := SuggestChipload(toolDiameter, materialType);
            && (toolDiameter == 3.175 ==> r == data[3.175])
            && (toolDiameter < 3.175 ==> ChiploadService.Between(data[1.5].lower, r.lower, data[3.175].lower)
                                         && ChiploadService.Between(data[1.5].upper, r.upper, data[3.175].upper))
            && (toolDiameter > 3.175 ==> ChiploadService.Between(data[3.175].lower, r.lower, data[6.0].lower)
                                         && ChiploadService.Between(data[3.175].upper, r.upper, data[6.0].upper))
  {
    TableKeys(materialType);
    var data := Chiploads()[materialType];
    var d := toolDiameter;
    BracketingKnots(d);
    if d < 3.175 {
      ChiploadService.LineBetween(d, 1.5, data[1.5].lower, 3.175, data[3.175].lower);
      ChiploadService.LineBetween(d, 1.5, data[1.5].upper, 3.175, data[3.175].upper);
    } else if d > 3.175 {
      ChiploadService.LineBetween(d, 3.175, data[3.175].lower, 6.0, data[6.0].lower);
      ChiploadService.LineBetween(d, 3.175, data[3.175].upper, 6.0, data[6.0].upper);
    }
  }

  /** The numbers `update_guidelines` formats for display. */
  datatype DisplayedGuidelines = DisplayedGuidelines(wocRange: Range, docRange: Range, plungeRate: Range)

  /**
   * `update_guidelines`: any style other than "Wide and Shallow" reads as
   * "Narrow and Deep", and any material other than the two named reads as
   * soft plastics; the single soft-wood plunge figure is a range of one value.
   */
  function UpdateGuidelines(toolDiameter: real, feedrate: real, cuttingStyle: string, material: string): DisplayedGuidelines
  {
    var woc, doc :=
      if cuttingStyle == "Wide and Shallow" then Range(toolDiameter * 0.4, toolDiameter)
      else Range(toolDiameter * 0.1, toolDiameter * 0.25),
      if cuttingStyle == "Wide and Shallow" then Range(toolDiameter * 0.05, toolDiameter * 0.1)
      else Range(toolDiameter, toolDiameter * 3.0);
    var plunge :=
      if material == "Hard wood & aluminium" then Range(feedrate * 0.1, feedrate * 0.3)
      else if material == "Soft wood & hard plastics" then Range(feedrate * 0.3, feedrate * 0.3)
      else Range(feedrate * 0.4, feedrate * 0.5);
    DisplayedGuidelines(woc, doc, plunge)
  }

  /** For the catalogued names the displayed figures are the repositories' multipliers applied as the guidelines service applies them. */
  lemma UpdateGuidelinesAgreesWithRepositories(toolDiameter: real, feedrate: real, cuttingStyle: string, material: string)
    requires cuttingStyle in CuttingStyleRepository.CuttingStyles()
    requires material in MaterialRepository.Materials()
    ensures var style := CuttingStyleRepository.CuttingStyles()[cuttingStyle];
            UpdateGuidelines(toolDiameter, feedrate, cuttingStyle, material)
              == DisplayedGuidelines(GuidelinesService.CalculateRange(toolDiameter, style.wocMultiplier),
                                     GuidelinesService.CalculateRange(toolDiameter, style.docMultiplier),
                                     GuidelinesService.CalculateRange(feedrate, MaterialRepository.Materials()[material].plungeRateRange))
  {
  }

  /** The feed at a total chipload: the per-flute chipload is the total divided by the flute count. */
  function TotalChiploadFeed(flutes: real, rpm: real, woc: real, toolDiameter: real, sqrt: real -> real): (feed: real -> real)
    requires flutes != 0.0 && FeedrateDefined(woc, toolDiameter) && IsSqrt(sqrt)
  {
    total => CalculateFeedrate(flutes, rpm, total / flutes, woc, toolDiameter, sqrt)
  }

  /**
   * The flute count cancels out of the feed at a total chipload, so with a
   * positive rpm it strictly increases with the total (whatever the sign of
   * the flute count).
   */
  lemma TotalChiploadFeedIncreasing(flutes: real, rpm: real, woc: real, toolDiameter: real, sqrt: real -> real,
                                    x: real, y: real)
    requires flutes != 0.0 && FeedrateDefined(woc, toolDiameter) && IsSqrt(sqrt)
    requires rpm > 0.0 && x < y
    ensures TotalChiploadFeed(flutes, rpm, woc, toolDiameter, sqrt)(x)
          < TotalChiploadFeed(flutes, rpm, woc, toolDiameter, sqrt)(y)
  {
    var lowerBase, upperBase := BaseFeedrate(flutes, rpm, x / flutes), BaseFeedrate(flutes, rpm, y / flutes);
    assert lowerBase == rpm * x by {
      assert x / flutes * flutes == x;
    }
    assert upperBase == rpm * y by {
      assert y / flutes * flutes == y;
    }
    assert lowerBase < upperBase;
    if woc <= toolDiameter / 2.0 {
      var s := sqrt(Radicand(woc, toolDiameter));
      assert lowerBase / s < upperBase / s by {
        assert upperBase / s - lowerBase / s == (upperBase - lowerBase) / s;
      }
    }
  }

  /** Lines 257-261: the suggested per-flute range converted to total chipload. */
  function TotalChiploadRange(flutes: real, toolDiameter: real, materialType: string): Range
    requires materialType in Chiploads()
  {
    var range := SuggestChipload(toolDiameter, materialType);
    Range(range.lower * flutes, range.upper * flutes)
  }

  /**
   * `CNCCalculatorGUI.maximize_feedrate` on parsed inputs, up to the display:
   * the scan runs in total chipload from the suggested lower bound times the
   * flute count to the upper bound times the flute count, with the ceiling
   * `MAXIMUM_FEEDRATE`. A zero flute count divides by zero in the source and
   * is excluded here.
   */
  method MaximizeFeedrate(flutes: real, toolDiameter: real, rpm: real, woc: real, materialType: string,
                          sqrt: real -> real)
    returns (maxFeedrate: real, maxTotalChipload: real, ghost visited: nat, ghost records: seq<real>)
    requires materialType in Chiploads()
    requires FeedrateDefined(woc, toolDiameter) && IsSqrt(sqrt)
    requires flutes != 0.0
    ensures var totals := TotalChiploadRange(flutes, toolDiameter, materialType);
            ScanMaximiser.Scanned(totals.lower, totals.upper, MaximumFeedrate,
                                  TotalChiploadFeed(flutes, rpm, woc, toolDiameter, sqrt),
                                  visited, records, maxFeedrate, maxTotalChipload)
    ensures var totals := TotalChiploadRange(flutes, toolDiameter, materialType);
            var feed := TotalChiploadFeed(flutes, rpm, woc, toolDiameter, sqrt);
            && (maxFeedrate == 0.0 <==>
                  forall j :: 0 <= j < visited ==> !(0.0 < feed(ScanMaximiser.GridPoint(totals.lower, j)) <= MaximumFeedrate))
            && (maxFeedrate != 0.0 ==>
                  0.0 < maxFeedrate <= MaximumFeedrate && totals.lower <= maxTotalChipload <= totals.upper)
  {
    var totals := TotalChiploadRange(flutes, toolDiameter, materialType);
    var feed := TotalChiploadFeed(flutes, rpm, woc, toolDiameter, sqrt);
    maxFeedrate, maxTotalChipload, visited, records :=
      ScanMaximiser.Scan(totals.lower, totals.upper, MaximumFeedrate, feed);
    ScanMaximiser.ZeroMeansNoValidFeedrate(totals.lower, totals.upper, MaximumFeedrate, feed,
                                           visited, records, maxFeedrate, maxTotalChipload);
    if maxFeedrate != 0.0 {
      ScanMaximiser.RecordedResultBounds(totals.lower, totals.upper, MaximumFeedrate, feed,
                                         visited, records, maxFeedrate, maxTotalChipload);
    }
  }
}
