/** Shared vocabulary: optional values, results, bytes and the 64-bit saturating counter. */
module Base {
  datatype Option<+T> = None | Some(value: T)

  datatype Result<+T, +E> = Ok(value: T) | Err(error: E)

  type byte = b: int | 0 <= b < 256

  const U64_MAX: nat := 0xFFFF_FFFF_FFFF_FFFF

  function Min(a: nat, b: nat): nat {
    if a <= b then a else b
  }

  function SaturatingSub(a: nat, b: nat): nat {
    if a >= b then a - b else 0
  }

  /** `u64::saturating_add` after the clamping conversion of a length to `u64`. */
  function SaturatingCount(counter: nat, added: nat): nat {
    Min(counter + Min(added, U64_MAX), U64_MAX)
  }

  /** `Option::get_or_insert`: the first value recorded is the one kept. */
  function KeepFirst<T>(current: Option<T>, candidate: T): Option<T> {
    if current.Some? then current else Some(candidate)
  }
}
