/**
 * `CuttingParameters`: the mutable record of one calculation session, and the
 * feedrate formula it derives from its fields. The same formula is written out
 * again, word for word, in the two stand-alone scripts; it is defined once here.
 */
module Parameters {
  import opened Wrappers
  import opened Models

  /**
   * What the model assumes of `math.sqrt`: on a positive argument it returns
   * the positive square root. Square roots are not computable in `real`, so
   * every member that evaluates the formula takes the root function as a
   * parameter and requires this of it.
   */
  ghost predicate IsSqrt(sqrt: real -> real) {
    forall x :: 0.0 < x ==> 0.0 < sqrt(x) && sqrt(x) * sqrt(x) == x
  }

  /** The radicand `1 - (1 - 2 * woc / tool_diameter) ** 2` of the engagement correction. */
  function Radicand(woc: real, toolDiameter: real): real
    requires toolDiameter != 0.0
  {
    var u := 1.0 - 2.0 * woc / toolDiameter;
    1.0 - u * u
  }

  /**
   * The formula raises nothing: either the engagement is wider than the radius
   * (no division), or the divisor is non-zero and the radicand positive, so
   * `math.sqrt` neither fails nor returns zero.
   */
  predicate FeedrateDefined(woc: real, toolDiameter: real) {
    woc > toolDiameter / 2.0 || (toolDiameter != 0.0 && Radicand(woc, toolDiameter) > 0.0)
  }

  /** `rpm * chipload * flutes`, the feed before the engagement correction. */
  function BaseFeedrate(flutes: real, rpm: real, chipload: real): real {
    rpm * chipload * flutes
  }

  /**
   * `calculate_feedrate`: the base feed when `woc > tool_diameter / 2`, and
   * otherwise the base feed divided by the square root of the radicand.
   */
  function FeedrateFormula(flutes: real, rpm: real, chipload: real, woc: real, toolDiameter: real,
                           sqrt: real -> real): real
    requires FeedrateDefined(woc, toolDiameter) && IsSqrt(sqrt)
  {
    var base := BaseFeedrate(flutes, rpm, chipload);
    if woc > toolDiameter / 2.0 then base
    else base / sqrt(Radicand(woc, toolDiameter))
  }

  /** Engagement wider than the tool radius: the feed is exactly the base feed. */
  lemma WideCutIsBaseFeedrate(flutes: real, rpm: real, chipload: real, woc: real, toolDiameter: real,
                              sqrt: real -> real)
    requires IsSqrt(sqrt) && woc > toolDiameter / 2.0
    ensures FeedrateDefined(woc, toolDiameter)
    ensures FeedrateFormula(flutes, rpm, chipload, woc, toolDiameter, sqrt) == rpm * chipload * flutes
  {
  }

  /** For `0 < woc <= tool_diameter / 2` the radicand lies in (0, 1]. */
  lemma NarrowCutRadicand(woc: real, toolDiameter: real)
    requires 0.0 < woc <= toolDiameter / 2.0
    ensures toolDiameter > 0.0
    ensures 0.0 < Radicand(woc, toolDiameter) <= 1.0
    ensures FeedrateDefined(woc, toolDiameter)
  {
    var q := 2.0 * woc / toolDiameter;
    assert 0.0 < q <= 1.0 by {
      assert q * toolDiameter == 2.0 * woc;
    }
    var u := 1.0 - q;
    assert 0.0 <= u < 1.0;
    assert u * u < 1.0 by {
      assert u * u <= u;
    }
  }

  /** A positive number whose square is at most 1 is at most 1. */
  lemma RootOfAtMostOne(s: real)
    requires 0.0 < s && s * s <= 1.0
    ensures s <= 1.0
  {
  }

  /** For `0 < woc <= tool_diameter / 2` and a non-negative base feed, the correction never lowers the feed. */
  lemma NarrowCutAtLeastBase(flutes: real, rpm: real, chipload: real, woc: real, toolDiameter: real,
                             sqrt: real -> real)
    requires IsSqrt(sqrt) && 0.0 < woc <= toolDiameter / 2.0
    requires BaseFeedrate(flutes, rpm, chipload) >= 0.0
    ensures FeedrateDefined(woc, toolDiameter)
    ensures FeedrateFormula(flutes, rpm, chipload, woc, toolDiameter, sqrt) >= rpm * chipload * flutes
  {
    NarrowCutRadicand(woc, toolDiameter);
    var base := BaseFeedrate(flutes, rpm, chipload);
    var s := sqrt(Radicand(woc, toolDiameter));
    RootOfAtMostOne(s);
    assert base / s * s == base;
    assert base / s >= base;
  }

  /** When the correction applies, the feed squared times the radicand is the base feed squared. */
  lemma CorrectedFeedrateSquared(flutes: real, rpm: real, chipload: real, woc: real, toolDiameter: real,
                                 sqrt: real -> real)
    requires IsSqrt(sqrt) && FeedrateDefined(woc, toolDiameter) && woc <= toolDiameter / 2.0
    ensures var f := FeedrateFormula(flutes, rpm, chipload, woc, toolDiameter, sqrt);
            var base := rpm * chipload * flutes;
            f * f * Radicand(woc, toolDiameter) == base * base
  {
    var base := BaseFeedrate(flutes, rpm, chipload);
    var s := sqrt(Radicand(woc, toolDiameter));
    var f := base / s;
    assert f * s == base;
    calc {
      f * f * Radicand(woc, toolDiameter);
      f * f * (s * s);
      (f * s) * (f * s);
      base * base;
    }
  }

  /** At `woc == tool_diameter / 2` the correction factor is 1: both branches give the base feed. */
  lemma HalfDiameterIsContinuous(flutes: real, rpm: real, chipload: real, toolDiameter: real,
                                 sqrt: real -> real)
    requires IsSqrt(sqrt) && toolDiameter != 0.0
    ensures Radicand(toolDiameter / 2.0, toolDiameter) == 1.0
    ensures FeedrateDefined(toolDiameter / 2.0, toolDiameter)
    ensures FeedrateFormula(flutes, rpm, chipload, toolDiameter / 2.0, toolDiameter, sqrt) == rpm * chipload * flutes
  {
    assert 2.0 * (toolDiameter / 2.0) / toolDiameter == 1.0;
    var s := sqrt(1.0);
    assert 0.0 < s && s * s == 1.0;
    if s < 1.0 {
      assert false;
    } else if s > 1.0 {
      assert false;
    }
  }

  /** With the other inputs fixed and `rpm * flutes >= 0`, the feed does not decrease as the chipload grows. */
  lemma FeedrateMonotoneInChipload(flutes: real, rpm: real, c1: real, c2: real, woc: real, toolDiameter: real,
                                   sqrt: real -> real)
    requires IsSqrt(sqrt) && FeedrateDefined(woc, toolDiameter)
    requires rpm * flutes >= 0.0 && c1 <= c2
    ensures FeedrateFormula(flutes, rpm, c1, woc, toolDiameter, sqrt)
         <= FeedrateFormula(flutes, rpm, c2, woc, toolDiameter, sqrt)
  {
    var b1, b2 := BaseFeedrate(flutes, rpm, c1), BaseFeedrate(flutes, rpm, c2);
    assert b1 <= b2 by {
      assert b2 - b1 == (rpm * flutes) * (c2 - c1);
    }
    if woc <= toolDiameter / 2.0 {
      var s := sqrt(Radicand(woc, toolDiameter));
      assert b1 / s <= b2 / s by {
        assert b2 / s - b1 / s == (b2 - b1) / s;
      }
    }
  }

  lemma PositiveProduct(a: real, b: real)
    requires a > 0.0 && b > 0.0
    ensures a * b > 0.0
  {
  }

  /** With the other inputs fixed and `rpm * flutes > 0`, the feed strictly increases with the chipload. */
  lemma FeedrateStrictlyMonotoneInChipload(flutes: real, rpm: real, c1: real, c2: real, woc: real, toolDiameter: real,
                                           sqrt: real -> real)
    requires IsSqrt(sqrt) && FeedrateDefined(woc, toolDiameter)
    requires rpm * flutes > 0.0 && c1 < c2
    ensures FeedrateFormula(flutes, rpm, c1, woc, toolDiameter, sqrt)
          < FeedrateFormula(flutes, rpm, c2, woc, toolDiameter, sqrt)
  {
    var b1, b2 := BaseFeedrate(flutes, rpm, c1), BaseFeedrate(flutes, rpm, c2);
    assert b1 < b2 by {
      assert b2 - b1 == (rpm * flutes) * (c2 - c1);
      PositiveProduct(rpm * flutes, c2 - c1);
    }
    if woc <= toolDiameter / 2.0 {
      var s := sqrt(Radicand(woc, toolDiameter));
      assert b1 / s < b2 / s by {
        assert b2 / s - b1 / s == (b2 - b1) / s;
      }
    }
  }

  /** With positive rpm, flutes and chipload the feed is positive. */
  lemma FeedratePositive(flutes: real, rpm: real, chipload: real, woc: real, toolDiameter: real,
                         sqrt: real -> real)
    requires IsSqrt(sqrt) && FeedrateDefined(woc, toolDiameter)
    requires flutes > 0.0 && rpm > 0.0 && chipload > 0.0
    ensures FeedrateFormula(flutes, rpm, chipload, woc, toolDiameter, sqrt) > 0.0
  {
    var base := BaseFeedrate(flutes, rpm, chipload);
    assert base > 0.0 by {
      assert rpm * chipload > 0.0;
    }
    if woc <= toolDiameter / 2.0 {
      var s := sqrt(Radicand(woc, toolDiameter));
      assert base / s > 0.0;
    }
  }

  /** Full engagement: 18250 rpm, 0.0254 mm per flute, one flute, is 463.55 mm/min. */
  lemma FullEngagementExample(sqrt: real -> real)
    requires IsSqrt(sqrt)
    ensures FeedrateDefined(6.35, 6.35)
    ensures FeedrateFormula(1.0, 18250.0, 0.0254, 6.35, 6.35, sqrt) == 463.55
  {
  }

  /** Partial engagement, `woc = 3 < 6.35 / 2`: the corrected feed exceeds the base 463.55 mm/min. */
  lemma PartialEngagementExample(sqrt: real -> real)
    requires IsSqrt(sqrt)
    ensures FeedrateDefined(3.0, 6.35)
    ensures FeedrateFormula(1.0, 18250.0, 0.0254, 3.0, 6.35, sqrt) > 463.55
  {
    NarrowCutRadicand(3.0, 6.35);
    var r := Radicand(3.0, 6.35);
    var s := sqrt(r);
    assert r < 1.0;
    assert s < 1.0 by {
      RootOfAtMostOne(s);
    }
    assert 463.55 / s > 463.55 by {
      assert 463.55 / s * s == 463.55;
    }
  }

  /** A snapshot of every field of a `CuttingParameters` object. */
  datatype State = State(flutes: int, toolDiameter: real, rpm: real, woc: real, doc: real,
                         material: Option<Material>, cuttingStyle: Option<CuttingStyle>,
                         chipload: Option<real>)

  /** The feed the current geometry gives at chipload `c`, whatever chipload the state holds. */
  function FeedAt(st: State, c: real, sqrt: real -> real): real
    requires FeedrateDefined(st.woc, st.toolDiameter) && IsSqrt(sqrt)
  {
    FeedrateFormula(st.flutes as real, st.rpm, c, st.woc, st.toolDiameter, sqrt)
  }

  /** The feedrate at a given chipload does not depend on the stored chipload. */
  lemma FeedAtIgnoresChipload(st: State, stored: Option<real>, c: real, sqrt: real -> real)
    requires FeedrateDefined(st.woc, st.toolDiameter) && IsSqrt(sqrt)
    ensures FeedAt(st.(chipload := stored), c, sqrt) == FeedAt(st, c, sqrt)
  {
  }

  /**
   * `CuttingParameters`. Other components assign its fields directly. The
   * derived `feedrate` is a function of the fields, so it is recomputed on every
   * read and always reflects the latest assignment; nothing is cached.
   */
  class CuttingParameters {
    var flutes: int
    var toolDiameter: real
    var rpm: real
    var woc: real
    var doc: real
    var material: Option<Material>
    var cuttingStyle: Option<CuttingStyle>
    var chipload: Option<real>

    /** `__init__`; `chipload` defaults to `None`. */
    constructor (flutes: int, toolDiameter: real, rpm: real, woc: real, doc: real,
                 material: Option<Material>, cuttingStyle: Option<CuttingStyle>,
                 chipload: Option<real> := None)
      ensures Value() == State(flutes, toolDiameter, rpm, woc, doc, material, cuttingStyle, chipload)
    {
      this.flutes := flutes;
      this.toolDiameter := toolDiameter;
      this.rpm := rpm;
      this.woc := woc;
      this.doc := doc;
      this.material := material;
      this.cuttingStyle := cuttingStyle;
      this.chipload := chipload;
    }

    function Value(): State
      reads this
    {
      State(flutes, toolDiameter, rpm, woc, doc, material, cuttingStyle, chipload)
    }

    /** The `feedrate` property (`calculate_feedrate`); reading it with `chipload` unset is an error. */
    function Feedrate(sqrt: real -> real): real
      reads this
      requires chipload.Some? && FeedrateDefined(woc, toolDiameter) && IsSqrt(sqrt)
    {
      FeedAt(Value(), chipload.value, sqrt)
    }
  }
}
