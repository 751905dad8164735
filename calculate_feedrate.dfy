/**
 * `CalculateFeedrateUseCase`: suggest a chipload range for the current tool
 * diameter, overwrite the parameters' chipload with its lower bound, and read
 * the feedrate back.
 */
module FeedrateUseCase {
  import opened Wrappers
  import opened Models
  import opened Parameters
  import opened ChiploadService
  import opened OptimizationService

  /** The feed `execute` returns, as a function of the parameters before the call. */
  function SuggestedFeedrate(st: State, sqrt: real -> real): real
    requires st.material.Some? && Suggestible(st.material.value.chiploads, st.toolDiameter)
    requires FeedrateDefined(st.woc, st.toolDiameter) && IsSqrt(sqrt)
  {
    FeedAt(st, Suggest(st.material.value.chiploads, st.toolDiameter).lower, sqrt)
  }

  /** The chipload held before the call plays no part in the result. */
  lemma SuggestedFeedrateIgnoresChipload(st: State, previous: Option<real>, sqrt: real -> real)
    requires st.material.Some? && Suggestible(st.material.value.chiploads, st.toolDiameter)
    requires FeedrateDefined(st.woc, st.toolDiameter) && IsSqrt(sqrt)
    ensures SuggestedFeedrate(st.(chipload := previous), sqrt) == SuggestedFeedrate(st, sqrt)
  {
  }

  /**
   * With a shipped-style table (lower bounds positive), positive rpm and flutes
   * and a wide cut, the use case returns the base feed of the suggested lower
   * bound; with a narrow cut it returns at least that.
   */
  lemma SuggestedFeedrateAtLeastBase(st: State, sqrt: real -> real)
    requires st.material.Some? && Suggestible(st.material.value.chiploads, st.toolDiameter)
    requires FeedrateDefined(st.woc, st.toolDiameter) && IsSqrt(sqrt)
    requires st.flutes >= 0 && st.rpm >= 0.0 && Suggest(st.material.value.chiploads, st.toolDiameter).lower >= 0.0
    requires 0.0 < st.woc
    ensures var c := Suggest(st.material.value.chiploads, st.toolDiameter).lower;
            SuggestedFeedrate(st, sqrt) >= BaseFeedrate(st.flutes as real, st.rpm, c)
  {
    var c := Suggest(st.material.value.chiploads, st.toolDiameter).lower;
    if st.woc > st.toolDiameter / 2.0 {
      WideCutIsBaseFeedrate(st.flutes as real, st.rpm, c, st.woc, st.toolDiameter, sqrt);
    } else {
      assert st.rpm * c >= 0.0;
      NarrowCutAtLeastBase(st.flutes as real, st.rpm, c, st.woc, st.toolDiameter, sqrt);
    }
  }

  class CalculateFeedrateUseCase {
    const cuttingParameters: CuttingParameters
    const chiploadService: ChiploadCalculationService
    const feedrateService: FeedrateOptimizationService

    /** `__init__`: both services are built over the given parameters. */
    constructor (cuttingParameters: CuttingParameters)
      ensures this.cuttingParameters == cuttingParameters
      ensures fresh(chiploadService) && chiploadService.material == cuttingParameters.material
      ensures chiploadService.toolDiameter == None
      ensures fresh(feedrateService) && feedrateService.parameters == cuttingParameters
    {
      this.cuttingParameters := cuttingParameters;
      chiploadService := new ChiploadCalculationService(cuttingParameters.material);
      feedrateService := new FeedrateOptimizationService(cuttingParameters);
    }

    /**
     * `execute`: only the chipload changes, to the suggested lower bound, and
     * the result is the feedrate read after that assignment.
     */
    method Execute(sqrt: real -> real) returns (feedrate: real)
      requires chiploadService.material.Some?
      requires Suggestible(chiploadService.material.value.chiploads, cuttingParameters.toolDiameter)
      requires FeedrateDefined(cuttingParameters.woc, cuttingParameters.toolDiameter) && IsSqrt(sqrt)
      modifies cuttingParameters, chiploadService
      ensures var st := old(cuttingParameters.Value());
              cuttingParameters.Value()
                == st.(chipload := Some(Suggest(chiploadService.material.value.chiploads, st.toolDiameter).lower))
      ensures cuttingParameters.chipload.Some? && feedrate == cuttingParameters.Feedrate(sqrt)
      ensures old(cuttingParameters.material) == chiploadService.material
              ==> feedrate == SuggestedFeedrate(old(cuttingParameters.Value()), sqrt)
      ensures chiploadService.toolDiameter == Some(old(cuttingParameters.toolDiameter))
    {
      var suggested := chiploadService.SuggestChipload(cuttingParameters.toolDiameter);
      cuttingParameters.chipload := Some(suggested.lower);
      feedrate := cuttingParameters.Feedrate(sqrt);
    }
  }
}
