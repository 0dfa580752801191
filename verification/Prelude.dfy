/** Values shared by every part of the model. */
module Prelude {

  datatype Option<+T> = None | Some(value: T)

  /** A field of a partial update: absent from the request body, sent as null, or given a value. */
  datatype Field<+T> = Unset | Null | Set(value: T)

  newtype Byte = x: int | 0 <= x < 256
  type Bytes = seq<Byte>

  /**
   * What a caller sees of one call to an external service:
   *  - Ok: the call took effect and returned;
   *  - Lost: it raised, or the caller died, before anything happened;
   *  - Late: it took effect, but the caller saw an exception or died before the answer arrived.
   */
  datatype Outcome = Ok | Lost | Late
  {
    predicate Landed() { this != Lost }
  }

  predicate StartsWith(s: string, prefix: string) {
    |prefix| <= |s| && s[..|prefix|] == prefix
  }

  predicate EndsWith(s: string, suffix: string) {
    |suffix| <= |s| && s[|s| - |suffix|..] == suffix
  }

  predicate SlashFree(s: string) {
    '/' !in s
  }
}
