/** Shared vocabulary: opaque identifiers and the optional value. */
module Prelude {

  /** An opaque identifier (a UUID, a hash, a SHA). Only equality is ever used; `BLANK` is the empty string. */
  type Id = nat

  const BLANK: Id := 0

  /**
   A random presence token, renamed to the draw that made it and the session that got it: two draws never give the
   same token, and only equality is ever used.
   */
  datatype Token = NoToken | Token(stamp: nat, worker: Id, session: Id)

  datatype Option<+T> = None | Some(value: T)
}
