/** The record types the calculation engine reads: chipload ranges, materials and cutting styles. */
module Models {
  import opened Wrappers

  /** A Python `(lower, upper)` tuple of reals. */
  datatype Range = Range(lower: real, upper: real)

  predicate Ordered(r: Range) {
    r.lower <= r.upper
  }

  /** `Material`: chipload ranges keyed by tool diameter, and the plunge-rate multipliers. */
  datatype Material = Material(name: string, chiploads: map<real, Range>, plungeRateRange: Range)

  /** `CuttingStyle`: width- and depth-of-cut multipliers of the tool diameter. */
  datatype CuttingStyle = CuttingStyle(name: string, wocMultiplier: Range, docMultiplier: Range)
}
