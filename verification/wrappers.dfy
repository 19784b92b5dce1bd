/** Rust's `Option<T>` and the few arithmetic helpers the other modules share. */
module Wrappers {

  /** A value that may be missing: `Some(v)` holds `v`, `None` holds nothing. */
  datatype Option<T> = Some(value: T) | None {

    /** Rust's `unwrap_or`: the value inside, falling back to `fallback` on `None`. */
    function GetOr(fallback: T): T {
      if Some? then value else fallback
    }
  }

  function Min(a: int, b: int): int {
    if a <= b then a else b
  }

  function Max(a: int, b: int): int {
    if a <= b then b else a
  }

  /** Multiplying by a natural number preserves `<=`. */
  lemma MulMono(a: nat, b: nat, m: nat)
    requires a <= b
    ensures a * m <= b * m
  {
  }
}
