/** Value types shared by every part of the client: Java's 32-bit `int`,
    nullable references as `Option`, and opaque JSON payloads. */
module Types {

  const MinInt: int := -0x8000_0000
  const MaxInt: int := 0x7fff_ffff

  /** A Java `int`. */
  newtype Int32 = x: int | MinInt <= x <= MaxInt

  /** A Java reference that may be null. */
  datatype Option<+T> = None | Some(value: T)

  /** An argument or response payload as the JSON mapper would see it;
      its structure is never inspected by the client. */
  type Json = string

  /** Identity of a per-call `CmdListener` object supplied by the caller. */
  type CmdListenerRef = nat

  /** Identity of a `ClubbyListener` observer object. */
  type ObserverRef = nat
}
