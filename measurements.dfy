/**
 * The validating value objects `RPM`, `Feedrate` and `Distance`. Each wraps one
 * number, refuses non-positive values and compares equal only to an object of
 * the same class holding an equal value.
 */
module Measurements {
  import opened Wrappers

  /** The three classes; the constructor tag plays the role of the Python class. */
  datatype Measurement = RPM(value: real) | Feedrate(value: real) | Distance(value: real)

  /** What every constructed object satisfies. */
  predicate Valid(m: Measurement) {
    m.value > 0.0
  }

  /** `RPM(value)`: raises `ValueError` unless the value is positive. */
  function NewRPM(value: real): (r: Result<Measurement>)
    ensures r.Ok? <==> value > 0.0
    ensures r.Ok? ==> r.value.RPM? && r.value.value == value && Valid(r.value)
    ensures r.Err? ==> r.message == "RPM must be a positive integer"
  {
    if value <= 0.0 then Err("RPM must be a positive integer") else Ok(RPM(value))
  }

  /** `Feedrate(value)`: raises `ValueError` unless the value is positive. */
  function NewFeedrate(value: real): (r: Result<Measurement>)
    ensures r.Ok? <==> value > 0.0
    ensures r.Ok? ==> r.value.Feedrate? && r.value.value == value && Valid(r.value)
    ensures r.Err? ==> r.message == "Feedrate must be a positive float"
  {
    if value <= 0.0 then Err("Feedrate must be a positive float") else Ok(Feedrate(value))
  }

  /** `Distance(value)`: raises `ValueError` unless the value is positive. */
  function NewDistance(value: real): (r: Result<Measurement>)
    ensures r.Ok? <==> value > 0.0
    ensures r.Ok? ==> r.value.Distance? && r.value.value == value && Valid(r.value)
    ensures r.Err? ==> r.message == "Distance must be a positive float"
  {
    if value <= 0.0 then Err("Distance must be a positive float") else Ok(Distance(value))
  }

  /** `self.__eq__(other)`: an `isinstance` test on the class of `self`, then a value comparison. */
  function Equals(self: Measurement, other: Measurement): (r: bool)
    ensures r <==> self == other
  {
    match self
    case RPM(v) => other.RPM? && other.value == v
    case Feedrate(v) => other.Feedrate? && other.value == v
    case Distance(v) => other.Distance? && other.value == v
  }

  /** Objects of different classes never compare equal, whatever their values. */
  lemma DifferentClassesNeverEqual(v: real, w: real)
    ensures !Equals(RPM(v), Distance(w)) && !Equals(Distance(v), RPM(w))
    ensures !Equals(RPM(v), Feedrate(w)) && !Equals(Feedrate(v), RPM(w))
    ensures !Equals(Feedrate(v), Distance(w)) && !Equals(Distance(v), Feedrate(w))
  {
  }

  /** Equality is reflexive and symmetric. */
  lemma EqualsIsReflexiveAndSymmetric(a: Measurement, b: Measurement)
    ensures Equals(a, a)
    ensures Equals(a, b) == Equals(b, a)
  {
  }
}
