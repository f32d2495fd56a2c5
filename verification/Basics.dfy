/** Types shared by every part of the model. */
module Basics {

  datatype Option<+T> = None | Some(value: T)

  /** Instants and durations, in microseconds: the resolution of a Postgres timestamp. */
  type Time = int

  const SECOND: Time := 1_000_000

  /** Identifiers are opaque: only equality of two of them ever matters. */
  type BackendId = nat

  type DroneId = nat

  datatype Address = Address(ip: nat, port: nat)

  function Max(a: int, b: int): int {
    if a < b then b else a
  }

  function Min(a: int, b: int): int {
    if a < b then a else b
  }

  const STATIC_TOKEN_PREFIX: string := "s."

  /** A static token belongs to a backend for good; other tokens are made per connect request. */
  predicate IsStatic(token: string) {
    STATIC_TOKEN_PREFIX <= token
  }
}
