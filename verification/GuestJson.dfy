/**
 JSON for the Guest's text channel: every character outside ASCII becomes a \u escape, and what the
 text means stays the same.  Meaning is the output of a reader that turns string contents into
 UTF-16 code units (section 7 of RFC 8259) and code units into characters (RFC 2781).
 */
module GuestJson {
  import opened Common

  /** A Unicode scalar value. */
  type Rune = x: nat | x < 0x11_0000 && !(0xD800 <= x < 0xE000)
  type Unit = x: nat | x < 0x1_0000

  const LIMIT := 65_536

  function Utf8Size(r: Rune): nat { if r < 0x80 then 1 else if r < 0x800 then 2 else if r < 0x1_0000 then 3 else 4 }

  function TextSize(s: seq<Rune>): nat { if s == [] then 0 else TextSize(s[..|s| - 1]) + Utf8Size(s[|s| - 1]) }

  // UTF-16 -----------------------------------------------------------------------------------------

  predicate IsHigh(u: Unit) { 0xD800 <= u < 0xDC00 }
  predicate IsLow(u: Unit) { 0xDC00 <= u < 0xE000 }

  /** Section 2.1 of RFC 2781. */
  function Units(r: Rune): seq<Unit> {
    if r < 0x1_0000 then [r] else [0xD800 + (r - 0x1_0000) / 0x400, 0xDC00 + (r - 0x1_0000) % 0x400]
  }

  const REPLACEMENT: Rune := 0xFFFD

  /** Section 2.2 of RFC 2781; a surrogate without its partner reads as the replacement character. */
  function Characters(u: seq<Unit>): seq<Rune> {
    if u == [] then []
    else if IsHigh(u[0]) && |u| > 1 && IsLow(u[1]) then
      [0x1_0000 + (u[0] - 0xD800) * 0x400 + (u[1] - 0xDC00)] + Characters(u[2..])
    else [if IsHigh(u[0]) || IsLow(u[0]) then REPLACEMENT else u[0]] + Characters(u[1..])
  }

  function AllUnits(s: seq<Rune>): seq<Unit> { if s == [] then [] else Units(s[0]) + AllUnits(s[1..]) }

  lemma {:induction false} CharactersOfUnits(s: seq<Rune>)
    ensures Characters(AllUnits(s)) == s
  {
    if s != [] {
      CharactersOfUnits(s[1..]);
      var u := AllUnits(s);
      if s[0] < 0x1_0000 {
        assert u[1..] == AllUnits(s[1..]);
      } else {
        assert u[2..] == AllUnits(s[1..]);
        var c: nat := s[0];
        var n := c - 0x1_0000;
        assert n == n / 0x400 * 0x400 + n % 0x400;
      }
      assert s == [s[0]] + s[1..];
    }
  }

  // Escaping ---------------------------------------------------------------------------------------

  const QUOTE: Rune := 34
  const BACKSLASH: Rune := 92
  const LOWER_U: Rune := 117

  /** Four lower-case hexadecimal digits behind \u. */
  function EscapeUnit(u: Unit): seq<Rune> {
    [BACKSLASH, LOWER_U, HexDigit(u / 0x1000), HexDigit(u / 0x100 % 16), HexDigit(u / 16 % 16), HexDigit(u % 16)]
  }

  function EscapeRune(r: Rune): seq<Rune> {
    if r < 0x80 then [r]
    else if r < 0x1_0000 then EscapeUnit(Units(r)[0])
    else EscapeUnit(Units(r)[0]) + EscapeUnit(Units(r)[1])
  }

  function Escape(s: seq<Rune>): seq<Rune> {
    if s == [] then [] else Escape(s[..|s| - 1]) + EscapeRune(s[|s| - 1])
  }

  // Reading ----------------------------------------------------------------------------------------

  /** What a reader gets out of a text: its structure, and the code units of its strings. */
  datatype Item = Plain(rune: Rune) | Open | Content(unit: Unit) | Close

  datatype Mode = Outside | Inside | Escaped | Hex(left: nat, value: nat) | Broken

  datatype Reader = Reader(mode: Mode, items: seq<Item>)

  /** The single-character escapes. */
  function Simple(r: Rune): Option<Unit> {
    if r == QUOTE || r == BACKSLASH || r == 47 then Some(r)
    else if r == 98 then Some(8) else if r == 102 then Some(12) else if r == 110 then Some(10)
    else if r == 114 then Some(13) else if r == 116 then Some(9) else None
  }

  function Contents(units: seq<Unit>): seq<Item> { seq(|units|, i requires 0 <= i < |units| => Content(units[i])) }

  /** JSON outside strings is ASCII; inside, control characters must be escaped. */
  function Read(t: Reader, r: Rune): Reader {
    match t.mode
    case Broken => t
    case Outside =>
      if r == QUOTE then Reader(Inside, t.items + [Open])
      else if r < 0x80 then Reader(Outside, t.items + [Plain(r)]) else t.(mode := Broken)
    case Inside =>
      if r == QUOTE then Reader(Outside, t.items + [Close])
      else if r == BACKSLASH then t.(mode := Escaped)
      else if r < 0x20 then t.(mode := Broken)
      else t.(items := t.items + Contents(Units(r)))
    case Escaped =>
      if r == LOWER_U then t.(mode := Hex(4, 0))
      else if Simple(r).Some? then Reader(Inside, t.items + [Content(Simple(r).value)])
      else t.(mode := Broken)
    case Hex(left, value) =>
      if HexValue(r).None? || left == 0 || value * 16 + HexValue(r).value >= 0x1_0000 then t.(mode := Broken)
      else if left == 1 then Reader(Inside, t.items + [Content(value * 16 + HexValue(r).value)])
      else t.(mode := Hex(left - 1, value * 16 + HexValue(r).value))
  }

  function ReadAll(t: Reader, s: seq<Rune>): Reader {
    if s == [] then t else Read(ReadAll(t, s[..|s| - 1]), s[|s| - 1])
  }

  lemma {:induction false} ReadConcat(t: Reader, a: seq<Rune>, b: seq<Rune>)
    ensures ReadAll(t, a + b) == ReadAll(ReadAll(t, a), b)
  {
    if b == [] {
      assert a + b == a;
    } else {
      ReadConcat(t, a, b[..|b| - 1]);
      assert (a + b)[..|a + b| - 1] == a + b[..|b| - 1];
    }
  }

  lemma ReadOne(t: Reader, a: Rune)
    ensures ReadAll(t, [a]) == Read(t, a)
  {
  }

  lemma ReadTwo(t: Reader, a: Rune, b: Rune)
    ensures ReadAll(t, [a, b]) == Read(Read(t, a), b)
  {
    hide Read;
    ReadOne(t, a);
    assert [a, b][..1] == [a];
  }

  lemma ReadDigit(t: Reader, v: nat)
    requires t.mode.Hex? && t.mode.left > 0 && v < 16 && t.mode.value * 16 + v < 0x1_0000
    ensures HexValue(HexDigit(v)) == Some(v)
    ensures Read(t, HexDigit(v)) == if t.mode.left == 1 then Reader(Inside, t.items + [Content(t.mode.value * 16 + v)])
                                 else t.(mode := Hex(t.mode.left - 1, t.mode.value * 16 + v))
  {
  }

  lemma ReadLead(t: Reader)
    requires t.mode == Inside
    ensures Read(Read(t, BACKSLASH), LOWER_U) == t.(mode := Hex(4, 0))
  {
  }

  lemma FourBits(u: nat)
    ensures u / 0x1000 * 16 + u / 0x100 % 16 == u / 0x100
    ensures (u / 0x1000 * 16 + u / 0x100 % 16) * 16 + u / 16 % 16 == u / 16 && u / 16 * 16 + u % 16 == u
  {
    assert u / 0x100 / 16 == u / 0x1000 && u / 16 / 16 == u / 0x100;
  }

  /** An escape inside a string reads as exactly its code unit. */
  lemma ReadEscape(t: Reader, u: Unit)
    requires t.mode == Inside
    ensures ReadAll(t, EscapeUnit(u)) == t.(items := t.items + [Content(u)])
  {
    hide Read, ReadAll, HexDigit, HexValue;
    var a, b, c, d := u / 0x1000, u / 0x100 % 16, u / 16 % 16, u % 16;
    FourBits(u);
    var x, y, z := [BACKSLASH, LOWER_U], [HexDigit(a), HexDigit(b)], [HexDigit(c), HexDigit(d)];
    assert EscapeUnit(u) == x + (y + z);
    ReadConcat(t, x, y + z);
    ReadTwo(t, BACKSLASH, LOWER_U);
    ReadLead(t);
    var h := t.(mode := Hex(4, 0));
    ReadConcat(h, y, z);
    ReadTwo(h, HexDigit(a), HexDigit(b));
    ReadDigit(h, a);
    ReadDigit(h.(mode := Hex(3, a)), b);
    var k := t.(mode := Hex(2, a * 16 + b));
    ReadTwo(k, HexDigit(c), HexDigit(d));
    ReadDigit(k, c);
    ReadDigit(k.(mode := Hex(1, u / 16)), d);
  }

  /** One character and its escape read alike, wherever the character is legal. */
  lemma ReadEscapedRune(t: Reader, r: Rune)
    requires Read(t, r).mode != Broken
    ensures ReadAll(t, EscapeRune(r)) == Read(t, r)
  {
    if r < 0x80 {
      assert [r][..0] == [];
    } else {
      assert t.mode == Inside;
      var u := Units(r);
      ReadEscape(t, u[0]);
      if r < 0x1_0000 {
        assert Contents(u) == [Content(u[0])];
      } else {
        ReadConcat(t, EscapeUnit(u[0]), EscapeUnit(u[1]));
        ReadEscape(t.(items := t.items + [Content(u[0])]), u[1]);
        assert t.items + Contents(u) == t.items + [Content(u[0])] + [Content(u[1])];
      }
    }
  }

  /** Escaping preserves the meaning of every JSON text, surrogate pairs and existing escapes included. */
  lemma {:induction false} EscapePreservesMeaning(t: Reader, s: seq<Rune>)
    requires ReadAll(t, s).mode != Broken
    ensures ReadAll(t, Escape(s)) == ReadAll(t, s)
  {
    if s != [] {
      var init, r := s[..|s| - 1], s[|s| - 1];
      EscapePreservesMeaning(t, init);
      ReadConcat(t, Escape(init), EscapeRune(r));
      ReadEscapedRune(ReadAll(t, init), r);
    }
  }

  lemma EscapedRuneIsAscii(r: Rune)
    ensures forall i :: 0 <= i < |EscapeRune(r)| ==> EscapeRune(r)[i] < 0x80
  {
  }

  lemma {:induction false} EscapeIsIdempotent(s: seq<Rune>)
    ensures (forall i :: 0 <= i < |s| ==> s[i] < 0x80) ==> Escape(s) == s
    ensures forall i :: 0 <= i < |Escape(s)| ==> Escape(s)[i] < 0x80
  {
    hide Units, EscapeUnit;
    if s != [] {
      EscapeIsIdempotent(s[..|s| - 1]);
      EscapedRuneIsAscii(s[|s| - 1]);
      assert s == s[..|s| - 1] + [s[|s| - 1]];
    }
  }

  lemma {:induction false} EscapeAtMostTriples(s: seq<Rune>)
    ensures TextSize(s) >= |s| && |Escape(s)| <= 3 * TextSize(s)
  {
    if s != [] {
      EscapeAtMostTriples(s[..|s| - 1]);
    }
  }

  lemma {:induction false} EscapeGrows(s: seq<Rune>, i: nat)
    requires i <= |s|
    ensures |Escape(s[..i])| <= |Escape(s)|
  {
    if i == |s| {
      assert s[..i] == s;
    } else {
      EscapeGrows(s[..|s| - 1], i);
      assert s[..|s| - 1][..i] == s[..i];
    }
  }

  // UTF-8 as Go's range loop reads it -----------------------------------------------------------------

  predicate Continues(b: Byte) { 0x80 <= b < 0xC0 }

  function Low(b: Byte): nat
    requires Continues(b)
  {
    b - 0x80
  }

  /** One character and its length; a byte that starts none reads as the replacement character. */
  function DecodeOne(s: seq<Byte>): (Rune, nat)
    requires s != []
  {
    var b: nat := s[0];
    if b < 0x80 then (b, 1)
    else if 0xC2 <= b < 0xE0 && |s| > 1 && Continues(s[1]) then ((b - 0xC0) * 64 + Low(s[1]), 2)
    else if 0xE0 <= b < 0xF0 && |s| > 2 && Continues(s[1]) && Continues(s[2])
            && (b == 0xE0 ==> s[1] >= 0xA0) && (b == 0xED ==> s[1] < 0xA0)
    then ((b - 0xE0) * 4096 + Low(s[1]) * 64 + Low(s[2]), 3)
    else if 0xF0 <= b < 0xF5 && |s| > 3 && Continues(s[1]) && Continues(s[2]) && Continues(s[3])
            && (b == 0xF0 ==> s[1] >= 0x90) && (b == 0xF4 ==> s[1] < 0x90)
    then ((b - 0xF0) * 262144 + Low(s[1]) * 4096 + Low(s[2]) * 64 + Low(s[3]), 4)
    else (REPLACEMENT, 1)
  }

  lemma DecodeAdvances(s: seq<Byte>)
    requires s != []
    ensures 0 < DecodeOne(s).1 <= |s|
  {
  }

  function Runes(s: seq<Byte>): seq<Rune>
    decreases |s|
  {
    if s == [] then []
    else
      var d := DecodeOne(s);
      DecodeAdvances(s);
      [d.0] + Runes(s[d.1..])
  }

  function EncodeOne(r: Rune): (s: seq<Byte>)
    ensures |s| == Utf8Size(r)
  {
    if r < 0x80 then [r]
    else if r < 0x800 then [0xC0 + r / 64, 0x80 + r % 64]
    else if r < 0x1_0000 then [0xE0 + r / 4096, 0x80 + r / 64 % 64, 0x80 + r % 64]
    else [0xF0 + r / 262144, 0x80 + r / 4096 % 64, 0x80 + r / 64 % 64, 0x80 + r % 64]
  }

  function Utf8(s: seq<Rune>): seq<Byte> { if s == [] then [] else EncodeOne(s[0]) + Utf8(s[1..]) }

  lemma SixBits(c: nat)
    ensures c == c / 64 * 64 + c % 64 && c / 64 / 64 == c / 4096 && c / 4096 / 64 == c / 262144
    ensures c / 64 == c / 4096 * 64 + c / 64 % 64 && c / 4096 == c / 262144 * 64 + c / 4096 % 64
  {
  }

  lemma DecodeTwo(c: nat, rest: seq<Byte>)
    requires 0x80 <= c < 0x800
    ensures DecodeOne([0xC0 + c / 64, 0x80 + c % 64] + rest) == (c, 2)
  {
  }

  lemma DecodeThree(c: nat, rest: seq<Byte>)
    requires 0x800 <= c < 0x1_0000 && !(0xD800 <= c < 0xE000)
    ensures DecodeOne([0xE0 + c / 4096, 0x80 + c / 64 % 64, 0x80 + c % 64] + rest) == (c, 3)
  {
    SixBits(c);
  }

  lemma DecodeFour(c: nat, rest: seq<Byte>)
    requires 0x1_0000 <= c < 0x11_0000
    ensures DecodeOne([0xF0 + c / 262144, 0x80 + c / 4096 % 64, 0x80 + c / 64 % 64, 0x80 + c % 64] + rest) == (c, 4)
  {
    SixBits(c);
  }

  lemma DecodeOfEncode(r: Rune, rest: seq<Byte>)
    ensures DecodeOne(EncodeOne(r) + rest) == (r, Utf8Size(r))
  {
    if r < 0x80 {
      assert ([r] + rest)[0] == r;
    } else {
      hide DecodeOne;
      if r < 0x800 {
        DecodeTwo(r, rest);
      } else if r < 0x1_0000 {
        DecodeThree(r, rest);
      } else {
        DecodeFour(r, rest);
      }
    }
  }

  /** Valid UTF-8 is read as exactly the characters it encodes. */
  lemma {:induction false} RunesOfUtf8(s: seq<Rune>)
    ensures Runes(Utf8(s)) == s
  {
    hide DecodeOne, EncodeOne;
    if s != [] {
      RunesOfUtf8(s[1..]);
      DecodeOfEncode(s[0], Utf8(s[1..]));
      assert (EncodeOne(s[0]) + Utf8(s[1..]))[Utf8Size(s[0])..] == Utf8(s[1..]);
      assert s == [s[0]] + s[1..];
    }
  }

  lemma {:induction false} Utf8Snoc(s: seq<Rune>)
    ensures |Utf8(s)| == TextSize(s)
    ensures s != [] ==> |Utf8(s)| == |Utf8(s[..|s| - 1])| + Utf8Size(s[|s| - 1])
  {
    if |s| == 1 {
      assert s[1..] == [] && s[..0] == [];
    } else if |s| > 1 {
      Utf8Snoc(s[1..]);
      Utf8Snoc(s[..|s| - 1]);
      assert s[1..][..|s| - 2] == s[..|s| - 1][1..];
    }
  }

  /** What the re-escaped form of valid UTF-8 is worth. */
  lemma ValidText(s: seq<Rune>)
    ensures Runes(Utf8(s)) == s && |Escape(s)| <= 3 * |Utf8(s)|
    ensures ReadAll(Reader(Outside, []), s).mode != Broken ==>
              ReadAll(Reader(Outside, []), Escape(s)) == ReadAll(Reader(Outside, []), s)
  {
    hide Read, ReadAll, DecodeOne, EncodeOne;
    RunesOfUtf8(s);
    Utf8Snoc(s);
    EscapeAtMostTriples(s);
    if ReadAll(Reader(Outside, []), s).mode != Broken {
      EscapePreservesMeaning(Reader(Outside, []), s);
    }
  }

  /** The three branches of the loop. */
  method Append(result: seq<Rune>, c: Rune) returns (longer: seq<Rune>)
    ensures longer == result + EscapeRune(c)
  {
    hide EscapeUnit;
    var r: nat := c;
    if r < 128 {
      longer := result + [r];
    } else if r <= 0xFFFF {
      longer := result + EscapeUnit(r);
    } else {
      var high: nat, low: nat := 0xD800 + (r - 0x1_0000) / 0x400, 0xDC00 + (r - 0x1_0000) % 0x400;
      longer := result + (EscapeUnit(high) + EscapeUnit(low));
    }
  }

  lemma NothingYet()
    ensures Escape([]) == [] && Runes([]) == []
  {
  }

  lemma OneMore(raw: seq<Byte>, i: nat, done: seq<Rune>)
    requires i < |raw|
    ensures var d := DecodeOne(raw[i..]);
            && i + d.1 <= |raw| && Runes(raw[i..]) == [d.0] + Runes(raw[i + d.1..])
            && Escape(done + [d.0]) == Escape(done) + EscapeRune(d.0)
  {
    hide DecodeOne, EscapeRune;
    var d := DecodeOne(raw[i..]);
    DecodeAdvances(raw[i..]);
    assert raw[i..][d.1..] == raw[i + d.1..];
    assert (done + [d.0])[..|done|] == done;
  }

  /** The loop over the characters: success exactly when both forms fit the channel. */
  method EscapeBytes(raw: seq<Byte>) returns (r: Option<seq<Rune>>)
    ensures r.Some? <==> |raw| <= LIMIT && |Escape(Runes(raw))| <= LIMIT
    ensures r.Some? ==> r.value == Escape(Runes(raw))
  {
    hide DecodeOne, EscapeRune, Escape, Runes;
    if |raw| > LIMIT {
      return None;
    }
    var result := [];
    var i := 0;
    ghost var done: seq<Rune> := [];
    NothingYet();
    assert raw[0..] == raw;
    while i < |raw|
      invariant i <= |raw| && Runes(raw) == done + Runes(raw[i..])
      invariant result == Escape(done) && |result| <= LIMIT
    {
      var d := DecodeOne(raw[i..]);
      DecodeAdvances(raw[i..]);
      OneMore(raw, i, done);
      result := Append(result, d.0);
      done := done + [d.0];
      i := i + d.1;
      assert Runes(raw)[..|done|] == done;
      EscapeGrows(Runes(raw), |done|);
      if |result| > LIMIT {
        return None;
      }
    }
    assert raw[i..] == [] && done + [] == done;
    return Some(result);
  }

  /**
   `MarshalGuestJSON` from the marshalled bytes on.  The result is pure ASCII; for valid UTF-8, which
   is all the marshaller produces, it is at most three times as long and reads as the same JSON.
   */
  method MarshalGuestJson(raw: seq<Byte>) returns (r: Option<seq<Rune>>)
    ensures r.Some? <==> |raw| <= LIMIT && |Escape(Runes(raw))| <= LIMIT
    ensures r.Some? ==> r.value == Escape(Runes(raw)) && forall i :: 0 <= i < |r.value| ==> r.value[i] < 0x80
    ensures forall s :: r.Some? && raw == Utf8(s) ==> r.value == Escape(s) && |r.value| <= 3 * |raw|
    ensures forall s :: r.Some? && raw == Utf8(s) && ReadAll(Reader(Outside, []), s).mode != Broken ==>
              ReadAll(Reader(Outside, []), r.value) == ReadAll(Reader(Outside, []), s)
  {
    hide Read, ReadAll, DecodeOne, EscapeRune, Escape, Runes, Utf8;
    r := EscapeBytes(raw);
    EscapeIsIdempotent(Runes(raw));
    forall s { ValidText(s); }
  }
}
