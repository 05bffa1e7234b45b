/** Values shared by every layer of the backend model. */
module Common {

  /** A value that may be absent (`undefined` or SQL NULL in the backend). */
  datatype Option<T> = None | Some(value: T)

  /** The outcome of an operation that may throw: `Err` carries the thrown error's message. */
  datatype Result<T> = Ok(value: T) | Err(message: string)

  /** Row identifiers. The database issues UUIDs; the model issues fresh naturals. */
  type Id = nat

  /** `CURRENT_TIMESTAMP`, supplied by the caller as a plain number. */
  type Timestamp = int

  /** `s.startsWith(prefix)` */
  predicate StartsWith(s: string, prefix: string) {
    |prefix| <= |s| && s[..|prefix|] == prefix
  }

  /** `s.includes(sub)`: case-sensitive substring search. */
  predicate Includes(s: string, sub: string)
    decreases |s|
  {
    StartsWith(s, sub) || (|s| > 0 && Includes(s[1..], sub))
  }
}
