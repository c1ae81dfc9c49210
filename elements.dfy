/**
 * The pure-element property tables the material code looks up (atomic
 * number by symbol, symbol, name, atomic weight, mass density).  Their
 * contents are data outside the model: they are a parameter of every
 * operation that consults them.
 */
module Elements {
  import opened Wrappers

  /** Atomic weights and mass densities of the elements are positive. */
  type Positive = r: real | r > 0.0 witness 1.0

  datatype Table = Table(
    atomicNumber: string -> Option<int>,  // None for a symbol that names no element
    symbol: int -> string,
    name: int -> string,
    atomicWeight: int -> Positive,        // g/mol
    massDensity: int -> Positive)         // kg/m3
}
