/**
 * `CNCCalculatorViewModel`: the session state behind the window. It owns one
 * `CuttingParameters` object, applies keyed updates to it, and composes the
 * use cases into the results the window shows.
 */
module ViewModel {
  import opened Wrappers
  import opened Models
  import opened Parameters
  import opened Measurements
  import opened ChiploadService
  import opened GuidelinesService
  import opened OptimizationService
  import opened FeedrateUseCase
  import MaterialRepository
  import CuttingStyleRepository

  /** The feedrate above which `calculate_results` raises its warning flag. */
  const WarningFeedrate: real := 6000.0

  /** `update_parameter(parameter, value)`, with the value already parsed. */
  datatype Update =
    | Flutes(flutes: int)
    | ToolDiameter(toolDiameter: real)
    | Rpm(rpm: real)
    | Woc(woc: real)
    | Doc(doc: real)
    | MaterialName(materialName: string)
    | CuttingStyleName(styleName: string)
    | Chipload(chipload: real)
    | Unrecognised(key: string)

  /** The field an update may write. */
  datatype Field = FlutesField | ToolDiameterField | RpmField | WocField | DocField
                 | MaterialField | CuttingStyleField | ChiploadField | NoField

  function Target(u: Update): Field {
    match u
    case Flutes(_) => FlutesField
    case ToolDiameter(_) => ToolDiameterField
    case Rpm(_) => RpmField
    case Woc(_) => WocField
    case Doc(_) => DocField
    case MaterialName(_) => MaterialField
    case CuttingStyleName(_) => CuttingStyleField
    case Chipload(_) => ChiploadField
    case Unrecognised(_) => NoField
  }

  /** `a` and `b` agree on every field other than `f`. */
  predicate AgreeExcept(a: State, b: State, f: Field) {
    && (f == FlutesField || a.flutes == b.flutes)
    && (f == ToolDiameterField || a.toolDiameter == b.toolDiameter)
    && (f == RpmField || a.rpm == b.rpm)
    && (f == WocField || a.woc == b.woc)
    && (f == DocField || a.doc == b.doc)
    && (f == MaterialField || a.material == b.material)
    && (f == CuttingStyleField || a.cuttingStyle == b.cuttingStyle)
    && (f == ChiploadField || a.chipload == b.chipload)
  }

  /** The value object the update builds, when it builds one: rpm, woc and doc go through validation. */
  function Validated(u: Update): Option<Result<Measurement>> {
    match u
    case Rpm(v) => Some(NewRPM(v))
    case Woc(v) => Some(NewDistance(v))
    case Doc(v) => Some(NewDistance(v))
    case _ => None
  }

  /** The update raises before assigning anything. */
  predicate Rejected(u: Update) {
    Validated(u).Some? && Validated(u).value.Err?
  }

  /**
   * The state after `update_parameter`: only the named field may change; an
   * unrecognised key or a rejected value changes nothing; an unknown material
   * or style name stores `None`.
   */
  function Updated(st: State, u: Update): (r: State)
    ensures AgreeExcept(st, r, Target(u))
    ensures u.Unrecognised? || Rejected(u) ==> r == st
    ensures Rejected(u) <==> (u.Rpm? && u.rpm <= 0.0) || (u.Woc? && u.woc <= 0.0) || (u.Doc? && u.doc <= 0.0)
    ensures u.Flutes? ==> r.flutes == u.flutes
    ensures u.ToolDiameter? ==> r.toolDiameter == u.toolDiameter
    ensures u.Rpm? && u.rpm > 0.0 ==> r.rpm == u.rpm
    ensures u.Woc? && u.woc > 0.0 ==> r.woc == u.woc
    ensures u.Doc? && u.doc > 0.0 ==> r.doc == u.doc
    ensures u.Chipload? ==> r.chipload == Some(u.chipload)
    ensures u.MaterialName? ==> r.material == MaterialRepository.GetMaterial(u.materialName)
    ensures u.MaterialName? ==> (r.material.None? <==> u.materialName !in MaterialRepository.Materials())
    ensures u.CuttingStyleName? ==> r.cuttingStyle == CuttingStyleRepository.GetCuttingStyle(u.styleName)
    ensures u.CuttingStyleName? ==> (r.cuttingStyle.None? <==> u.styleName !in CuttingStyleRepository.CuttingStyles())
  {
    match u
    case Flutes(n) => st.(flutes := n)
    case ToolDiameter(d) => st.(toolDiameter := d)
    case Rpm(v) => if v > 0.0 then st.(rpm := v) else st
    case Woc(v) => if v > 0.0 then st.(woc := v) else st
    case Doc(v) => if v > 0.0 then st.(doc := v) else st
    case MaterialName(name) => st.(material := MaterialRepository.GetMaterial(name))
    case CuttingStyleName(name) => st.(cuttingStyle := CuttingStyleRepository.GetCuttingStyle(name))
    case Chipload(c) => st.(chipload := Some(c))
    case Unrecognised(_) => st
  }

  /** `__init__`'s parameters. */
  function InitialState(): State {
    State(1, 6.35, 18250.0, 6.35, 0.254,
          MaterialRepository.GetMaterial("Soft plastics"),
          CuttingStyleRepository.GetCuttingStyle("Wide and Shallow"),
          None)
  }

  /**
   * The initial session is soft plastics cut wide and shallow with a full-width
   * cut, so `calculate_results` can run on it straight away.
   */
  lemma InitialStateCanCalculate(sqrt: real -> real)
    requires IsSqrt(sqrt)
    ensures InitialState().material == Some(MaterialRepository.SoftPlastics)
    ensures InitialState().cuttingStyle == Some(CuttingStyleRepository.WideAndShallow)
    ensures Suggestible(InitialState().material.value.chiploads, InitialState().toolDiameter)
    ensures FeedrateDefined(InitialState().woc, InitialState().toolDiameter)
  {
    MaterialRepository.TablesAreSuggestible("Soft plastics", 6.35);
  }

  /** The results dictionary of `calculate_results`. */
  datatype Results = Results(feedrate: real, wocRange: Range, docRange: Range, plungeRate: Range, warning: bool)

  /** The dictionary of `maximize_feedrate`. */
  datatype MaximizeResult = MaximizeResult(maxFeedrate: real, maxChipload: real)

  class CNCCalculatorViewModel {
    const parameters: CuttingParameters

    constructor ()
      ensures fresh(parameters) && parameters.Value() == InitialState()
    {
      parameters := new CuttingParameters(1, 6.35, 18250.0, 6.35, 0.254,
                                          MaterialRepository.GetMaterial("Soft plastics"),
                                          CuttingStyleRepository.GetCuttingStyle("Wide and Shallow"));
    }

    /**
     * `update_parameter`: the parameters become `Updated(old, u)`; the call
     * fails, with the value object's message, exactly when the value is rejected.
     */
    method UpdateParameter(u: Update) returns (outcome: Outcome)
      modifies parameters
      ensures parameters.Value() == Updated(old(parameters.Value()), u)
      ensures outcome.Fail? <==> Rejected(u)
      ensures outcome.Fail? ==> outcome.message == Validated(u).value.message
    {
      outcome := Pass;
      match u
      case Flutes(n) =>
        parameters.flutes := n;
      case ToolDiameter(d) =>
        parameters.toolDiameter := d;
      case Rpm(v) =>
        var rpm := NewRPM(v);
        if rpm.Err? {
          return Fail(rpm.message);
        }
        parameters.rpm := rpm.value.value;
      case Woc(v) =>
        var woc := NewDistance(v);
        if woc.Err? {
          return Fail(woc.message);
        }
        parameters.woc := woc.value.value;
      case Doc(v) =>
        var doc := NewDistance(v);
        if doc.Err? {
          return Fail(doc.message);
        }
        parameters.doc := doc.value.value;
      case MaterialName(name) =>
        parameters.material := MaterialRepository.GetMaterial(name);
      case CuttingStyleName(name) =>
        parameters.cuttingStyle := CuttingStyleRepository.GetCuttingStyle(name);
      case Chipload(c) =>
        parameters.chipload := Some(c);
      case Unrecognised(_) =>
    }

    /**
     * `calculate_results`: the feedrate use case runs first and overwrites the
     * chipload with the suggested lower bound, so the guidelines' plunge rate
     * is computed from that feedrate; the warning is set exactly above 6000.
     */
    method CalculateResults(sqrt: real -> real) returns (results: Results)
      requires parameters.material.Some? && parameters.cuttingStyle.Some?
      requires Suggestible(parameters.material.value.chiploads, parameters.toolDiameter)
      requires FeedrateDefined(parameters.woc, parameters.toolDiameter) && IsSqrt(sqrt)
      modifies parameters
      ensures var st := old(parameters.Value());
              var lower := Suggest(st.material.value.chiploads, st.toolDiameter).lower;
              parameters.Value() == st.(chipload := Some(lower))
      ensures results.feedrate == SuggestedFeedrate(old(parameters.Value()), sqrt)
      ensures results.warning <==> results.feedrate > WarningFeedrate
      ensures results.wocRange == CalculateRange(parameters.toolDiameter, parameters.cuttingStyle.value.wocMultiplier)
      ensures results.docRange == CalculateRange(parameters.toolDiameter, parameters.cuttingStyle.value.docMultiplier)
      ensures results.plungeRate == CalculateRange(results.feedrate, parameters.material.value.plungeRateRange)
    {
      var feedrateUseCase := new CalculateFeedrateUseCase(parameters);
      var feedrate := feedrateUseCase.Execute(sqrt);
      var g := CalculateGuidelines(parameters.Value(), sqrt);
      results := Results(feedrate, g.wocRange, g.docRange, g.plungeRate, feedrate > WarningFeedrate);
    }

    /**
     * `maximize_feedrate`: the optimisation service's pair, passed through
     * unchanged; the parameters keep the last midpoint tried as their chipload.
     */
    method MaximizeFeedrate(maxFeedrate: real, chiploadIncrement: real, sqrt: real -> real)
      returns (result: MaximizeResult, ghost iterations: nat)
      requires parameters.material.Some? && parameters.toolDiameter in parameters.material.value.chiploads
      requires FeedrateDefined(parameters.woc, parameters.toolDiameter) && IsSqrt(sqrt)
      requires var range := parameters.material.value.chiploads[parameters.toolDiameter];
               chiploadIncrement > 0.0 || Abs(range.upper - range.lower) <= chiploadIncrement
      modifies parameters
      ensures var st := old(parameters.Value());
              var b0 := InitialBracket(TableRange(st));
              var b := Search(st, sqrt, b0, BestSoFar, iterations);
              && IsIterationCount(Width(b0), chiploadIncrement, iterations)
              && result == MaximizeResult(b.best, b.bestChipload)
              && parameters.Value() == ParametersAfter(st, sqrt, iterations)
              && AgreeExcept(st, parameters.Value(), ChiploadField)
    {
      var service := new FeedrateOptimizationService(parameters);
      var best, chipload;
      best, chipload, iterations := service.MaximizeFeedrate(maxFeedrate, chiploadIncrement, sqrt);
      result := MaximizeResult(best, chipload);
    }
  }
}
