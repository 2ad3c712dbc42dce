/** Small vocabulary shared by every module of the project. */
module Common {

  datatype Option<+T> = None | Some(value: T)

  /** Largest value of a PostgreSQL bigint and of Go's int64. */
  const MAX_INT64: nat := 0x7fff_ffff_ffff_ffff

  /** Clock readings are integers counting nanoseconds, as Go's time package does. */
  const SECOND: int := 1_000_000_000
  const MILLISECOND: int := 1_000_000
  const MICROSECOND: int := 1_000

  /** A database call commits and says so, commits without the caller learning it, or does nothing. */
  datatype Commit = Committed | Unknown | Refused

  type Byte = x: nat | x < 256

  /** The day from which the shadow file refuses a login that may last until `expires`. */
  function ShadowDay(expires: nat): nat { (expires + 86399) / 86400 }

  /** A hexadecimal digit of either case. */
  function HexValue(c: nat): (v: Option<nat>)
    ensures v.Some? ==> v.value < 16
  {
    if 48 <= c <= 57 then Some(c - 48) else if 97 <= c <= 102 then Some(c - 87) else if 65 <= c <= 70
    then Some(c - 55) else None
  }

  function HexDigit(v: nat): (c: Byte)
    requires v < 16
    ensures HexValue(c) == Some(v)
  {
    if v < 10 then 48 + v else 87 + v
  }

  /** The private IPv4 ranges, by the first two octets. */
  predicate PrivateRange(a: nat, b: nat) { a == 10 || (a == 172 && 16 <= b < 32) || (a == 192 && b == 168) }
}
