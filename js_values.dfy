/**
 * JavaScript values as the globe front-end sees them: numbers that may be NaN,
 * arguments that may be missing, JavaScript's `===` and truthiness, and the
 * start-up configuration that several components fall back to.
 */
module JsValues {

  /** A possibly missing value (JavaScript `undefined`). */
  datatype Option<+T> = None | Some(value: T)

  /** The outcome of an operation that may throw. */
  datatype Result<+T> = Ok(value: T) | Err(error: Error)

  /** The exceptions the modelled code throws: WorldWind's ArgumentError, and the
      TypeError JavaScript raises when a missing callback is called. */
  datatype Error = ArgumentError | TypeError

  /** A JavaScript number: NaN or a finite value (infinities are not modelled). */
  datatype Num = NaN | Fin(v: real)

  predicate IsNaN(n: Num) {
    n.NaN?
  }

  /** JavaScript `a === b` on numbers: NaN is equal to nothing, itself included. */
  predicate StrictEq(a: Num, b: Num) {
    a.Fin? && b.Fin? && a.v == b.v
  }

  /** JavaScript truthiness of a number: false for 0 and NaN. */
  predicate Truthy(n: Num) {
    n.Fin? && n.v != 0.0
  }

  /** Truthiness of a possibly missing number: `undefined` is falsy. */
  predicate TruthyArg(n: Option<Num>) {
    n.Some? && Truthy(n.value)
  }

  /** JavaScript `a * b`: NaN is absorbing. */
  function Mul(a: Num, b: Num): Num {
    if a.Fin? && b.Fin? then Fin(a.v * b.v) else NaN
  }

  /** JavaScript `a + b` on numbers: NaN is absorbing. */
  function Add(a: Num, b: Num): Num {
    if a.Fin? && b.Fin? then Fin(a.v + b.v) else NaN
  }

  // The start-up view shared by the application configuration objects.
  const StartupLatitude: Num := Fin(34.29)
  const StartupLongitude: Num := Fin(-119.29)
  const StartupAltitude: Num := Fin(1000000.0)
  const StartupHeading: Num := Fin(0.0)
  const StartupTilt: Num := Fin(0.0)
  const StartupRoll: Num := Fin(0.0)
}
