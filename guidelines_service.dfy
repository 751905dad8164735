/**
 * `CuttingGuidelinesService`: width-of-cut and depth-of-cut ranges scaled from
 * the tool diameter by the cutting style, and a plunge-rate range scaled from
 * the current feedrate by the material. It only reads the parameters.
 */
module GuidelinesService {
  import opened Wrappers
  import opened Models
  import opened Parameters

  datatype Guidelines = Guidelines(wocRange: Range, docRange: Range, plungeRate: Range)

  /** `_calculate_range`: one base value scaled by each multiplier of a pair. */
  function CalculateRange(baseValue: real, multipliers: Range): (r: Range)
    ensures 0.0 <= baseValue && Ordered(multipliers) ==> Ordered(r)
    ensures baseValue == 0.0 ==> r == Range(0.0, 0.0)
    ensures multipliers.lower == multipliers.upper ==> r.lower == r.upper
  {
    Range(baseValue * multipliers.lower, baseValue * multipliers.upper)
  }

  /** What `calculate_guidelines` reads: a style and a material, and a feedrate it can compute. */
  predicate CanCalculate(st: State, sqrt: real -> real) {
    && st.cuttingStyle.Some? && st.material.Some? && st.chipload.Some?
    && FeedrateDefined(st.woc, st.toolDiameter)
  }

  /**
   * `calculate_guidelines`: the WOC and DOC ranges scale the tool diameter by
   * the style's multipliers, and the plunge rate scales the feedrate of the
   * current chipload by the material's multipliers.
   */
  function CalculateGuidelines(st: State, sqrt: real -> real): (g: Guidelines)
    requires CanCalculate(st, sqrt) && IsSqrt(sqrt)
    ensures g.wocRange == Range(st.toolDiameter * st.cuttingStyle.value.wocMultiplier.lower,
                                st.toolDiameter * st.cuttingStyle.value.wocMultiplier.upper)
    ensures g.docRange == Range(st.toolDiameter * st.cuttingStyle.value.docMultiplier.lower,
                                st.toolDiameter * st.cuttingStyle.value.docMultiplier.upper)
    ensures var f := FeedAt(st, st.chipload.value, sqrt);
            g.plungeRate == Range(f * st.material.value.plungeRateRange.lower,
                                  f * st.material.value.plungeRateRange.upper)
  {
    var style := st.cuttingStyle.value;
    var material := st.material.value;
    Guidelines(CalculateRange(st.toolDiameter, style.wocMultiplier),
               CalculateRange(st.toolDiameter, style.docMultiplier),
               CalculateRange(FeedAt(st, st.chipload.value, sqrt), material.plungeRateRange))
  }

  /**
   * The guidelines depend on the geometry, the style, the material and the
   * chipload only; the depth of cut and anything else in the state do not
   * enter, so unchanged parameters give identical results.
   */
  lemma GuidelinesIgnoreDepthOfCut(st: State, doc: real, sqrt: real -> real)
    requires CanCalculate(st, sqrt) && IsSqrt(sqrt)
    ensures CalculateGuidelines(st.(doc := doc), sqrt) == CalculateGuidelines(st, sqrt)
  {
  }

  /** Ordered multipliers, a non-negative diameter and a non-negative feed give ordered ranges. */
  lemma GuidelinesOrdered(st: State, sqrt: real -> real)
    requires CanCalculate(st, sqrt) && IsSqrt(sqrt)
    requires st.toolDiameter >= 0.0 && FeedAt(st, st.chipload.value, sqrt) >= 0.0
    requires Ordered(st.cuttingStyle.value.wocMultiplier) && Ordered(st.cuttingStyle.value.docMultiplier)
    requires Ordered(st.material.value.plungeRateRange)
    ensures var g := CalculateGuidelines(st, sqrt);
            Ordered(g.wocRange) && Ordered(g.docRange) && Ordered(g.plungeRate)
  {
  }
}
