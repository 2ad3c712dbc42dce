/**
 The one frame the control plane hands to the headless session worker: its layout, what each side
 accepts, and how the worker's reading relates to what was written.  Text is bytes on both sides.
 */
module SessionFrame {
  import opened Common

  type Text = seq<Byte>

  // Numbers on the wire ----------------------------------------------------------------------------

  function Big(s: Text): nat { if s == [] then 0 else Big(s[..|s| - 1]) * 256 + s[|s| - 1] }

  function ToBig(n: nat, length: nat): (s: Text)
    ensures |s| == length
  {
    if length == 0 then [] else ToBig(n / 256, length - 1) + [n % 256]
  }

  function Capacity(length: nat): nat { if length == 0 then 1 else 256 * Capacity(length - 1) }

  lemma {:induction false} BigOfToBig(n: nat, length: nat)
    requires n < Capacity(length)
    ensures Big(ToBig(n, length)) == n
  {
    if length > 0 {
      BigOfToBig(n / 256, length - 1);
      assert ToBig(n, length)[..length - 1] == ToBig(n / 256, length - 1);
    }
  }

  lemma {:induction false} ToBigOfBig(s: Text)
    ensures ToBig(Big(s), |s|) == s && Big(s) < Capacity(|s|)
  {
    if s != [] {
      ToBigOfBig(s[..|s| - 1]);
      assert s == s[..|s| - 1] + [s[|s| - 1]];
    }
  }

  // Addresses --------------------------------------------------------------------------------------

  const DOT: Byte := 46
  const ZERO: Byte := 48

  function Decimal(n: nat): Text {
    if n < 10 then [ZERO + n] else Decimal(n / 10) + [ZERO + n % 10]
  }

  type Octets = o: seq<nat> | |o| == 4 && forall i :: 0 <= i < 4 ==> o[i] < 256 witness [0, 0, 0, 0]

  function Format(o: Octets): Text {
    Decimal(o[0]) + [DOT] + Decimal(o[1]) + [DOT] + Decimal(o[2]) + [DOT] + Decimal(o[3])
  }

  /** The reader of dotted addresses, one character at a time: finished octets and the one being read. */
  datatype Reader = Reading(past: seq<nat>, current: Option<nat>) | Malformed

  function Read(r: Reader, c: Byte): Reader {
    if r.Malformed? then r
    else if ZERO <= c <= ZERO + 9 then
      var d := c - ZERO;
      if r.current.None? then (if |r.past| == 4 then Malformed else Reading(r.past, Some(d)))
      else if r.current.value == 0 || r.current.value * 10 + d > 255 then Malformed
      else Reading(r.past, Some(r.current.value * 10 + d))
    else if c == DOT && r.current.Some? && |r.past| < 3 then Reading(r.past + [r.current.value], None)
    else Malformed
  }

  function ReadAll(r: Reader, s: Text): Reader {
    if s == [] then r else Read(ReadAll(r, s[..|s| - 1]), s[|s| - 1])
  }

  /** `inet_pton` for IPv4. */
  function ParseAddress(s: Text): Option<seq<nat>> {
    var r := ReadAll(Reading([], None), s);
    if r.Reading? && |r.past| == 3 && r.current.Some? then Some(r.past + [r.current.value]) else None
  }

  lemma {:induction false} ReadConcat(r: Reader, a: Text, b: Text)
    ensures ReadAll(r, a + b) == ReadAll(ReadAll(r, a), b)
  {
    if b == [] {
      assert a + b == a;
    } else {
      ReadConcat(r, a, b[..|b| - 1]);
      assert (a + b)[..|a + b| - 1] == a + b[..|b| - 1];
    }
  }

  lemma ReadNothing(r: Reader)
    ensures ReadAll(r, []) == r
  {
  }

  lemma ReadOne(r: Reader, c: Byte)
    ensures ReadAll(r, [c]) == Read(r, c)
  {
  }

  lemma {:induction false} ReadDecimal(past: seq<nat>, n: nat)
    requires n < 256 && |past| < 4
    ensures ReadAll(Reading(past, None), Decimal(n)) == Reading(past, Some(n))
  {
    if n < 10 {
      ReadOne(Reading(past, None), ZERO + n);
    } else {
      ReadDecimal(past, n / 10);
      ReadConcat(Reading(past, None), Decimal(n / 10), [ZERO + n % 10]);
      ReadOne(Reading(past, Some(n / 10)), ZERO + n % 10);
    }
  }

  /** What has been read so far is the canonical text of what it was read as. */
  function Written(past: seq<nat>): Text {
    if past == [] then [] else Written(past[..|past| - 1]) + Decimal(past[|past| - 1]) + [DOT]
  }

  predicate ReadFrom(r: Reader, s: Text) {
    r.Reading? ==>
      && |r.past| <= 3 && (forall i :: 0 <= i < |r.past| ==> r.past[i] < 256)
      && (r.current.Some? ==> r.current.value < 256)
      && s == Written(r.past) + (if r.current.Some? then Decimal(r.current.value) else [])
  }

  lemma DigitIsCanonical(r: Reader, s: Text, c: Byte)
    requires ReadFrom(r, s) && ZERO <= c <= ZERO + 9
    ensures ReadFrom(Read(r, c), s + [c])
  {
  }

  lemma DotIsCanonical(r: Reader, s: Text)
    requires ReadFrom(r, s)
    ensures ReadFrom(Read(r, DOT), s + [DOT])
  {
  }

  lemma {:induction false} ReadIsCanonical(s: Text)
    ensures ReadFrom(ReadAll(Reading([], None), s), s)
  {
    hide Read, ReadFrom;
    if s == [] {
      assert ReadFrom(Reading([], None), []) by { EmptyIsCanonical(); }
    } else {
      var init, c := s[..|s| - 1], s[|s| - 1];
      ReadIsCanonical(init);
      assert s == init + [c];
      if ZERO <= c <= ZERO + 9 {
        DigitIsCanonical(ReadAll(Reading([], None), init), init, c);
      } else if c == DOT {
        DotIsCanonical(ReadAll(Reading([], None), init), init);
      } else {
        OtherIsMalformed(ReadAll(Reading([], None), init), s, c);
      }
    }
  }

  lemma EmptyIsCanonical()
    ensures ReadFrom(Reading([], None), [])
  {
  }

  lemma OtherIsMalformed(r: Reader, s: Text, c: Byte)
    requires !(ZERO <= c <= ZERO + 9) && c != DOT
    ensures ReadFrom(Read(r, c), s)
  {
  }

  /** An address text is accepted exactly when it is the canonical form of four octets. */
  lemma ParsesExactlyFormatted(s: Text)
    ensures ParseAddress(s).Some? ==>
              && |ParseAddress(s).value| == 4 && (forall i :: 0 <= i < 4 ==> ParseAddress(s).value[i] < 256)
              && s == Format(ParseAddress(s).value)
  {
    ReadIsCanonical(s);
    if ParseAddress(s).Some? {
      var r := ReadAll(Reading([], None), s);
      var p := r.past;
      assert p[..2][..1] == p[..1] && p[..1][..0] == [];
      assert Written(p[..1]) == Decimal(p[0]) + [DOT];
      assert Written(p[..2]) == Decimal(p[0]) + [DOT] + Decimal(p[1]) + [DOT];
      assert p[..3] == p;
    }
  }

  lemma ReadDotted(prefix: Text, past: seq<nat>, n: nat)
    requires n < 256 && |past| < 3 && ReadAll(Reading([], None), prefix) == Reading(past, None)
    ensures ReadAll(Reading([], None), prefix + Decimal(n) + [DOT]) == Reading(past + [n], None)
  {
    ReadDecimal(past, n);
    ReadConcat(Reading([], None), prefix, Decimal(n));
    ReadConcat(Reading([], None), prefix + Decimal(n), [DOT]);
    ReadOne(Reading(past, Some(n)), DOT);
  }

  lemma ParseOfFormat(o: Octets)
    ensures ParseAddress(Format(o)) == Some(o)
  {
    hide ReadAll, Decimal;
    assert ReadAll(Reading([], None), []) == Reading([], None) by { ReadNothing(Reading([], None)); }
    ReadDotted([], [], o[0]);
    var a := Decimal(o[0]) + [DOT];
    assert [] + Decimal(o[0]) + [DOT] == a && [] + [o[0]] == o[..1];
    ReadDotted(a, o[..1], o[1]);
    var b := a + Decimal(o[1]) + [DOT];
    assert o[..1] + [o[1]] == o[..2];
    ReadDotted(b, o[..2], o[2]);
    var c := b + Decimal(o[2]) + [DOT];
    assert o[..2] + [o[2]] == o[..3];
    ReadDecimal(o[..3], o[3]);
    ReadConcat(Reading([], None), c, Decimal(o[3]));
    assert Format(o) == c + Decimal(o[3]);
    assert o[..3] + [o[3]] == o;
  }

  lemma {:induction false} DecimalShape(n: nat)
    requires n < 256
    ensures 1 <= |Decimal(n)| <= 3 && forall i :: 0 <= i < |Decimal(n)| ==> ZERO <= Decimal(n)[i] <= ZERO + 9
  {
    if n >= 10 {
      DecimalShape(n / 10);
      if n / 10 >= 10 {
        DecimalShape(n / 100);
        assert Decimal(n / 10) == Decimal(n / 10 / 10) + [ZERO + n / 10 % 10];
      }
    }
  }

  lemma FormatShape(o: Octets)
    ensures 7 <= |Format(o)| <= 15 && 0 !in Format(o)
  {
    DecimalShape(o[0]);
    DecimalShape(o[1]);
    DecimalShape(o[2]);
    DecimalShape(o[3]);
  }

  /** The three private ranges. */
  predicate Private(o: seq<nat>)
    requires |o| == 4
  {
    PrivateRange(o[0], o[1])
  }

  // Hexadecimal ------------------------------------------------------------------------------------

  predicate LowerHex(c: Byte) { 48 <= c <= 57 || 97 <= c <= 102 }
  predicate UpperHex(c: Byte) { 65 <= c <= 70 }
  predicate Alnum(c: Byte) { 97 <= c <= 122 || 65 <= c <= 90 || 48 <= c <= 57 }

  function Lowered(c: Byte): Byte { if UpperHex(c) then c + 32 else c }

  /** `hex.DecodeString`: either case, pairs only. */
  function FromHex(s: Text): Option<Text> {
    if s == [] then Some([])
    else if |s| == 1 || HexValue(s[0]).None? || HexValue(s[1]).None? then None
    else
      var rest := FromHex(s[2..]);
      if rest.None? then None else Some([HexValue(s[0]).value * 16 + HexValue(s[1]).value] + rest.value)
  }

  function ToHex(s: Text): (h: Text)
    ensures |h| == 2 * |s|
  {
    if s == [] then [] else [HexDigit(s[0] / 16), HexDigit(s[0] % 16)] + ToHex(s[1..])
  }

  function LoweredAll(s: Text): Text { seq(|s|, i requires 0 <= i < |s| => Lowered(s[i])) }

  lemma HexPair(a: Byte, b: Byte)
    requires HexValue(a).Some? && HexValue(b).Some?
    ensures var v := HexValue(a).value * 16 + HexValue(b).value;
            HexDigit(v / 16) == Lowered(a) && HexDigit(v % 16) == Lowered(b)
  {
  }

  lemma {:induction false} ToHexOfFromHex(s: Text)
    requires FromHex(s).Some?
    ensures ToHex(FromHex(s).value) == LoweredAll(s) && |s| == 2 * |FromHex(s).value|
  {
    hide HexDigit, HexValue, Lowered, LowerHex, UpperHex;
    if s != [] {
      HexPair(s[0], s[1]);
      ToHexOfFromHex(s[2..]);
      assert FromHex(s).value[1..] == FromHex(s[2..]).value;
      assert LoweredAll(s) == [Lowered(s[0]), Lowered(s[1])] + LoweredAll(s[2..]);
    }
  }

  lemma {:induction false} FromHexOfToHex(s: Text)
    ensures FromHex(ToHex(s)) == Some(s)
  {
    if s != [] {
      FromHexOfToHex(s[1..]);
      assert ToHex(s)[2..] == ToHex(s[1..]);
      assert s == [s[0]] + s[1..];
    }
  }
}
