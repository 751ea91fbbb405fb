/** Bytes, fixed-width integers, generations and identifiers: the vocabulary every
    other module speaks. */
module Basics {

  datatype Option<+T> = None | Some(value: T) {
    predicate IsFailure() { None? }

    function PropagateFailure<U>(): Option<U>
      requires None?
    { None }

    function Extract(): T
      requires Some?
    { value }
  }

  /** One element of a `std::string`: an eight bit code unit. */
  type byte = c: char | c as int < 256

  /** A `std::string`: text, an identifier or a whole encoded document. */
  type Text = seq<byte>

  type u8 = n: int | 0 <= n < 0x100
  type u16 = n: int | 0 <= n < 0x1_0000
  type u32 = n: int | 0 <= n < 0x1_0000_0000
  type u64 = n: int | 0 <= n < 0x1_0000_0000_0000_0000

  const MAX_U64: u64 := 0xffff_ffff_ffff_ffff

  const MAX_IDENTIFIER_LENGTH := 128
  const MAX_NAME_LENGTH := 128
  const MAX_DESCRIPTION_LENGTH := 1024
  const MAX_CAPABILITY_ENTRIES := 64
  const MAX_MODE_ENTRIES := 32
  const MAX_PROFILES := 65536
  const MAX_PROFILE_GENERATIONS := 64
  const MAX_PUBLISHERS := 65536
  const MAX_PERSISTED_RECORDS := 1000000
  const MAX_DEVICES := 262144
  const MAX_QUEUE_COUNT := 4096
  const MAX_FRAME_BYTES := 1048576
  const MAX_PERSISTENCE_BYTES := 536870912

  /** A counter of one semantic domain. Zero is the null generation. */
  type Generation = u64

  /** The successor of a generation. The largest value has none and stays put. */
  function Next(g: Generation): Generation {
    if g == MAX_U64 then g else g + 1
  }

  predicate Exhaustible(g: Generation) { g == MAX_U64 }

  /** What every planner does to a counter: start it at one, or move it on. */
  function Advance(g: Generation): (r: Generation)
    ensures g <= r
    ensures g < r <==> !Exhaustible(g)
    ensures r != 0
  {
    if g != 0 then Next(g) else 1
  }

  // -------------------------------------------------------------------------
  // Identifiers
  // -------------------------------------------------------------------------

  predicate IsAlphanumeric(c: byte) {
    '0' <= c <= '9' || 'A' <= c <= 'Z' || 'a' <= c <= 'z'
  }

  predicate IsInterior(c: byte) {
    IsAlphanumeric(c) || c == '-' || c == '_' || c == '.' || c == ':' || c == '/'
  }

  /** The identifier grammar: bounded, alphanumeric at both ends, and never a path traversal. */
  predicate ValidIdentifier(s: Text) {
    && 0 < |s| <= MAX_IDENTIFIER_LENGTH
    && (forall i :: 0 <= i < |s| - 1 ==> !(s[i] == '.' && s[i + 1] == '.'))
    && IsAlphanumeric(s[0])
    && IsAlphanumeric(s[|s| - 1])
    && forall i :: 0 <= i < |s| ==> IsInterior(s[i])
  }

  /** A strong identifier. The class keeps its text private and only ever stores a
      validated encoding, so a value is either null (empty) or grammatical. */
  type Id = s: Text | s == [] || ValidIdentifier(s)

  predicate Named(id: Id) { id != [] }
}
