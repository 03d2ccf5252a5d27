/** Values and conversions that come from the JavaScript runtime or from libraries whose code
    is not part of this model. Library conversions (viem's parseUnits, parseEther and
    formatEther, BigInt of a string, Number of a string, parseFloat, JSON) are passed to the
    operations that use them as function-valued parameters; only the facts stated here about
    numbers are fixed. */
module Foreign {
  import opened Common

  /** A JavaScript number: NaN, a finite value, or one of the two infinities. */
  datatype JsNumber = NaN | Finite(value: real) | Infinite(negative: bool)

  /** `Number.isInteger(n)`. */
  predicate IsInteger(n: JsNumber) {
    n.Finite? && n.value.Floor as real == n.value
  }

  /** The test of a positive integer: `!isNaN(n) && n > 0 && Number.isInteger(n)`. */
  predicate IsPositiveInteger(n: JsNumber) {
    IsInteger(n) && n.value > 0.0
  }

  /** `a >= b` on JavaScript numbers: false whenever either side is NaN. */
  predicate AtLeast(a: JsNumber, b: JsNumber) {
    match (a, b)
    case (NaN, _) => false
    case (_, NaN) => false
    case (Infinite(na), Infinite(nb)) => !na || nb
    case (Infinite(na), Finite(_)) => !na
    case (Finite(_), Infinite(nb)) => nb
    case (Finite(x), Finite(y)) => x >= y
  }

  /** `BigInt(n)` for a number: the integer it denotes; it throws (None) for NaN, the
      infinities and non-integral values. */
  function NumberToBigInt(n: JsNumber): (r: Option<int>)
    ensures r.Some? <==> IsInteger(n)
    ensures r.Some? ==> r.value as real == n.value
  {
    if IsInteger(n) then Some(n.value.Floor) else None
  }

  /** A positive integer converts to a positive BigInt. */
  lemma PositiveIntegerToBigInt(n: JsNumber)
    requires IsPositiveInteger(n)
    ensures NumberToBigInt(n).Some? && NumberToBigInt(n).value > 0
  {
  }

  /** `JSON.stringify(value)` always produces a non-empty string for the records and arrays
      of this model, and `JSON.parse` either throws (None) or yields a value. A codec is
      faithful on `v` when parsing what was written gives `v` back. */
  predicate RoundTrips<T(==)>(encode: T -> string, decode: string -> Option<T>, v: T) {
    encode(v) != "" && decode(encode(v)) == Some(v)
  }
}
