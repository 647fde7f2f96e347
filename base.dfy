/** Small shared vocabulary: an optional value, the numeric helpers the
    ladder and the option-chain filter use, and the server's known-price test. */
module Base {

  datatype Option<+T> = None | Some(value: T)

  function Max(a: int, b: int): int { if a < b then b else a }

  function Min(a: int, b: int): int { if a < b then a else b }

  function AbsReal(x: real): real { if x < 0.0 then -x else x }

  /** The server's test of a reported underlying price (`if price:`): it counts
      only when present and not zero. The page itself only tests for absence. */
  predicate PriceKnown(spy: Option<real>) { spy.Some? && spy.value != 0.0 }
}
