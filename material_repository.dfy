/** `MaterialRepository`: the fixed catalogue of three materials, looked up by name. */
module MaterialRepository {
  import opened Wrappers
  import opened Models
  import ChiploadService

  const SoftPlastics := Material(
    "Soft plastics",
    map[1.5 := Range(0.05, 0.075), 3.175 := Range(0.05, 0.13), 6.0 := Range(0.05, 0.254)],
    Range(0.4, 0.5))

  const SoftWoodHardPlastics := Material(
    "Soft wood & hard plastics",
    map[1.5 := Range(0.025, 0.04), 3.175 := Range(0.025, 0.063), 6.0 := Range(0.025, 0.127)],
    Range(0.3, 0.3))

  const HardWoodAluminium := Material(
    "Hard wood & aluminium",
    map[1.5 := Range(0.013, 0.013), 3.175 := Range(0.013, 0.025), 6.0 := Range(0.025, 0.05)],
    Range(0.1, 0.3))

  /** The dictionary built in `__init__`. */
  function Materials(): map<string, Material> {
    map[
      "Soft plastics" := SoftPlastics,
      "Soft wood & hard plastics" := SoftWoodHardPlastics,
      "Hard wood & aluminium" := HardWoodAluminium
    ]
  }

  /** `get_material`: `dict.get`, so an unknown name gives `None`. */
  function GetMaterial(name: string): (r: Option<Material>)
    ensures r.None? <==> name !in Materials()
    ensures r.Some? ==> r.value == Materials()[name] && r.value.name == name
  {
    if name in Materials() then Some(Materials()[name]) else None
  }

  /**
   * A table the interpolation can always answer from: diameter keys 1.5 <
   * 3.175 < 6, ordered pairs, and each endpoint non-decreasing in diameter.
   */
  predicate WellFormed(m: Material) {
    && m.chiploads.Keys == {1.5, 3.175, 6.0}
    && (forall d :: d in m.chiploads ==> Ordered(m.chiploads[d]))
    && m.chiploads[1.5].lower <= m.chiploads[3.175].lower <= m.chiploads[6.0].lower
    && m.chiploads[1.5].upper <= m.chiploads[3.175].upper <= m.chiploads[6.0].upper
    && Ordered(m.plungeRateRange)
  }

  lemma TablesWellFormed()
    ensures WellFormed(SoftPlastics) && WellFormed(SoftWoodHardPlastics) && WellFormed(HardWoodAluminium)
  {
  }

  /** Exactly three materials, each named by its key, each well formed. */
  lemma CatalogueWellFormed()
    ensures Materials().Keys == {"Soft plastics", "Soft wood & hard plastics", "Hard wood & aluminium"}
    ensures |Materials()| == 3
    ensures forall name :: name in Materials() ==> Materials()[name].name == name && WellFormed(Materials()[name])
  {
    TablesWellFormed();
    var keys := Materials().Keys;
    assert keys == {"Soft plastics", "Soft wood & hard plastics", "Hard wood & aluminium"};
    assert |keys| == 3;
  }

  /** Every shipped table meets the interpolation's demands for every diameter, and is sorted as listed. */
  lemma TablesAreSuggestible(name: string, d: real)
    requires name in Materials()
    ensures ChiploadService.Suggestible(Materials()[name].chiploads, d)
    ensures ChiploadService.Diameters(Materials()[name].chiploads) == [1.5, 3.175, 6.0]
  {
    var m := Materials()[name].chiploads;
    assert m.Keys == {1.5, 3.175, 6.0};
    ChiploadService.DiametersOfStandardTable(m);
  }

  /** Soft plastics at 3.175 mm: exactly the tabulated (0.05, 0.13). */
  lemma SoftPlasticsAtKnot()
    ensures ChiploadService.Suggest(SoftPlastics.chiploads, 3.175) == Range(0.05, 0.13)
  {
    ChiploadService.SuggestAtKey(SoftPlastics.chiploads, 3.175);
  }

  /** Soft plastics at 10 mm: extrapolated past the largest key, the upper bound exceeds 0.254. */
  lemma SoftPlasticsExtrapolated()
    ensures ChiploadService.Suggest(SoftPlastics.chiploads, 10.0).upper > 0.254
  {
    var m := SoftPlastics.chiploads;
    ChiploadService.SuggestAboveLargestKey(m, 3.175, 6.0, 10.0);
  }
}
