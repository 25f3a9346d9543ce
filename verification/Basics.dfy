/** Vocabulary shared by every component of the gateway model. */
module Basics {

  datatype Option<+T> = None | Some(value: T)

  /** A clock reading, in microseconds (the resolution of the source's datetime values). */
  type Time = int

  const SECOND: Time := 1_000_000

  /** `s.startswith(p)`. */
  predicate StartsWith(s: string, p: string) { p <= s }

  /** `s.endswith(p)`. */
  predicate EndsWith(s: string, p: string) { |p| <= |s| && s[|s| - |p|..] == p }

  function Max(x: int, y: int): int { if x < y then y else x }

  function Min(x: int, y: int): int { if x < y then x else y }

  function MaxR(x: real, y: real): real { if x < y then y else x }

  function MinR(x: real, y: real): real { if y < x then y else x }
}
