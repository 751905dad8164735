/** `CuttingStyleRepository`: the fixed catalogue of two cutting styles, looked up by name. */
module CuttingStyleRepository {
  import opened Wrappers
  import opened Models

  const WideAndShallow := CuttingStyle("Wide and Shallow", Range(0.4, 1.0), Range(0.05, 0.1))

  const NarrowAndDeep := CuttingStyle("Narrow and Deep", Range(0.1, 0.25), Range(1.0, 3.0))

  /** The dictionary built in `__init__`. */
  function CuttingStyles(): map<string, CuttingStyle> {
    map["Wide and Shallow" := WideAndShallow, "Narrow and Deep" := NarrowAndDeep]
  }

  /** `get_cutting_style`: `dict.get`, so an unknown name gives `None`. */
  function GetCuttingStyle(name: string): (r: Option<CuttingStyle>)
    ensures r.None? <==> name !in CuttingStyles()
    ensures r.Some? ==> r.value == CuttingStyles()[name] && r.value.name == name
  {
    if name in CuttingStyles() then Some(CuttingStyles()[name]) else None
  }

  /** Exactly two styles, each named by its key, with ordered multiplier pairs. */
  lemma CatalogueWellFormed()
    ensures CuttingStyles().Keys == {"Wide and Shallow", "Narrow and Deep"}
    ensures |CuttingStyles()| == 2
    ensures forall name :: name in CuttingStyles() ==>
              && CuttingStyles()[name].name == name
              && Ordered(CuttingStyles()[name].wocMultiplier)
              && Ordered(CuttingStyles()[name].docMultiplier)
  {
  }
}
