/** The capability concepts of libstream/concepts/stream.hpp. A stream type is
  * described by the three members the base concepts look for. */
module Capabilities {

  /** `hasWrite`: a `write` member; `readSubmits`: `s.read().submit()` is
    * well-formed; `hasReadWrite`: a `readwrite` member. */
  datatype Caps = Caps(hasWrite: bool, readSubmits: bool, hasReadWrite: bool)

  predicate PureWriteStreamable(c: Caps)
  {
    c.hasWrite
  }

  predicate PureReadStreamable(c: Caps)
  {
    c.readSubmits
  }

  predicate ReadWriteStreamable(c: Caps)
  {
    c.hasReadWrite
  }

  predicate ReadStreamable(c: Caps)
  {
    PureReadStreamable(c) || ReadWriteStreamable(c)
  }

  predicate WriteStreamable(c: Caps)
  {
    PureWriteStreamable(c) || ReadWriteStreamable(c)
  }

  predicate Streamable(c: Caps)
  {
    PureReadStreamable(c) || PureWriteStreamable(c) || ReadWriteStreamable(c)
  }

  /** How the derived concepts relate: a read-write stream can be read from and
    * written to, and a stream is streamable exactly when it can do either. */
  lemma CapabilityLattice(c: Caps)
    ensures ReadWriteStreamable(c) ==> ReadStreamable(c) && WriteStreamable(c)
    ensures Streamable(c) <==> ReadStreamable(c) || WriteStreamable(c)
    ensures ReadStreamable(c) && !ReadWriteStreamable(c) ==> PureReadStreamable(c)
    ensures WriteStreamable(c) && !ReadWriteStreamable(c) ==> PureWriteStreamable(c)
    ensures !Streamable(c) <==> c == Caps(false, false, false)
  {
  }
}
