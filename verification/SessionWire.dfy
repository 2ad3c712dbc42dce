/**
 The two programs behind the frame: the encoder writing one buffer at moving offsets, and the decoder
 filling a zeroed record from it.  Both are proved against the functions of `SessionCodec`.
 */
module SessionWire {
  import opened Common
  import opened SessionFrame
  import opened SessionCodec

  /** Writes `bytes` at `at`, behind what is already written of the region that begins at `from`. */
  method Put(buffer: array<Byte>, ghost from: nat, at: nat, bytes: Text) returns (end: nat)
    requires from <= at && at + |bytes| <= buffer.Length
    modifies buffer
    ensures end == at + |bytes| && buffer[from..end] == old(buffer[from..at]) + bytes
    ensures buffer[..from] == old(buffer[..from])
  {
    for i := 0 to |bytes|
      invariant buffer[from..at + i] == old(buffer[from..at]) + bytes[..i]
      invariant buffer[..from] == old(buffer[..from])
    {
      buffer[at + i] := bytes[i];
    }
    return at + |bytes|;
  }

  method PutHead(buffer: array<Byte>, p: Parts) returns (end: nat)
    requires Sized(p) && buffer.Length >= 4 + HEAD
    modifies buffer
    ensures end == 4 + HEAD && buffer[4..end] == Head(p) && buffer[..4] == old(buffer[..4])
  {
    hide ToBig, Capacity;
    end := Put(buffer, 4, 4, MAGIC);
    end := Put(buffer, 4, end, ToBig(p.expires, 8));
    end := Put(buffer, 4, end, ToBig(p.port, 2));
    end := Put(buffer, 4, end, ToBig(p.width, 2));
    end := Put(buffer, 4, end, ToBig(p.height, 2));
    end := Put(buffer, 4, end, [|p.host|, |p.username|, |p.domain|]);
    end := Put(buffer, 4, end, ToBig(|p.password|, 2));
    end := Put(buffer, 4, end, p.digest);
  }

  method PutBody(buffer: array<Byte>, p: Parts)
    requires Sized(p) && buffer.Length == 4 + HEAD + |p.host| + |p.username| + |p.domain| + |p.password|
    modifies buffer
    ensures buffer[4..] == Body(p) && buffer[..4] == old(buffer[..4])
  {
    hide Head, ToBig, Capacity;
    var end := PutHead(buffer, p);
    end := Put(buffer, 4, end, p.host);
    end := Put(buffer, 4, end, p.username);
    end := Put(buffer, 4, end, p.domain);
    end := Put(buffer, 4, end, p.password);
    assert buffer[4..] == buffer[4..end];
  }

  /** The checks of `frame`, in its order. */
  method Check(c: Config, now: Instant) returns (ok: bool)
    ensures ok <==> Accepts(c, now)
  {
    if !c.v4 || !Private(c.address) || c.port == 0 || c.port >= 0x1_0000 || !AccountName(c.username)
       || !DomainName(c.domain)
       || |c.password| < 24 || |c.password| > 256 || c.width < 640 || c.width > 1920 || c.height < 480
       || c.height > 1200
       || c.expiresAt <= now || c.expiresAt > now + 28_800 * SECOND {
      return false;
    }
    for i := 0 to |c.password|
      invariant forall j :: 0 <= j < i ==> 33 <= c.password[j] <= 126
    {
      if c.password[i] < 33 || c.password[i] > 126 {
        return false;
      }
    }
    return FromHex(c.certificate).Some? && |FromHex(c.certificate).value| == 32;
  }

  /** `frame`. */
  method Frame(c: Config, now: Instant) returns (r: Option<array<Byte>>)
    ensures r.Some? <==> Accepts(c, now)
    ensures r.Some? ==> fresh(r.value) && Sized(PartsOf(c)) && r.value[..] == Payload(PartsOf(c))
  {
    hide ToBig, Head, Sized;
    var ok := Check(c, now);
    if !ok {
      return None;
    }
    AcceptedIsSized(c, now);
    var p := PartsOf(c);
    var size := HEAD + |p.host| + |p.username| + |p.domain| + |p.password|;
    var payload := new Byte[4 + size];
    var end := Put(payload, 0, 0, ToBig(size, 4));
    PutBody(payload, p);
    assert payload[..] == payload[..4] + payload[4..];
    assert payload[..4] == payload[0..4];
    return Some(payload);
  }

  // The worker's record ------------------------------------------------------------------------------

  function Zeros(n: nat): Text { seq(n, _ => 0) }

  /** A text copied to the front of a zeroed buffer. */
  function Padded(s: Text, n: nat): Text
    requires |s| <= n
  {
    s + Zeros(n - |s|)
  }

  /** `vcw_request`: the scalars and the fixed buffers. */
  class Record {
    var expires: nat
    var port: nat
    var width: nat
    var height: nat
    const host: array<Byte>
    const username: array<Byte>
    const domain: array<Byte>
    const password: array<Byte>
    const fingerprint: array<Byte>

    constructor ()
      ensures Shaped() && fresh(host) && fresh(username) && fresh(domain) && fresh(password) && fresh(fingerprint)
      ensures Blank()
    {
      expires, port, width, height := 0, 0, 0, 0;
      host := new Byte[16](_ => 0);
      username := new Byte[16](_ => 0);
      domain := new Byte[16](_ => 0);
      password := new Byte[257](_ => 0);
      fingerprint := new Byte[72](_ => 0);
    }

    ghost predicate Shaped() {
      && host.Length == 16 && username.Length == 16 && domain.Length == 16 && password.Length == 257
      && fingerprint.Length == 72
      && host != username && host != domain && username != domain && password != fingerprint
    }

    ghost predicate Blank()
      requires Shaped()
      reads this, host, username, domain, password, fingerprint
    {
      && expires == port == width == height == 0
      && host[..] == Zeros(16) && username[..] == Zeros(16) && domain[..] == Zeros(16) && password[..] == Zeros(257)
      && fingerprint[..] == Zeros(72)
    }

    /** The record holds exactly this request, its texts zero-terminated. */
    ghost predicate Holds(q: Request)
      requires Shaped()
      reads this, host, username, domain, password, fingerprint
    {
      && expires == q.expires && port == q.port && width == q.width && height == q.height
      && |q.host| < 16 && |q.username| < 16 && |q.domain| < 16 && |q.password| < 257 && |q.fingerprint| < 72
      && host[..] == Padded(q.host, 16) && username[..] == Padded(q.username, 16) && domain[..] == Padded(q.domain, 16)
      && password[..] == Padded(q.password, 257) && fingerprint[..] == Padded(q.fingerprint, 72)
    }
  }

  /** `memset` to zero of one buffer. */
  method Clear(buffer: array<Byte>)
    modifies buffer
    ensures buffer[..] == Zeros(buffer.Length)
  {
    for i := 0 to buffer.Length
      invariant forall j :: 0 <= j < i ==> buffer[j] == 0
    {
      buffer[i] := 0;
    }
  }

  /** `memcpy` into a zeroed buffer, within both. */
  method Copy(buffer: array<Byte>, data: array<Byte>, offset: nat, length: nat)
    requires offset + length <= data.Length && length <= buffer.Length && buffer != data
    requires buffer[..] == Zeros(buffer.Length)
    modifies buffer
    ensures buffer[..] == Padded(data[offset..offset + length], buffer.Length)
  {
    for i := 0 to length
      invariant buffer[..] == Padded(data[offset..offset + i], buffer.Length)
    {
      buffer[i] := data[offset + i];
      assert data[offset..offset + i + 1] == data[offset..offset + i] + [data[offset + i]];
    }
  }

  /** A big-endian number at `[from, to)`, folded byte by byte. */
  method Number(data: array<Byte>, from: nat, to: nat) returns (n: nat)
    requires from <= to <= data.Length
    ensures n == Big(data[from..to])
  {
    n := 0;
    for i := from to to
      invariant n == Big(data[from..i])
    {
      assert data[from..i + 1][..i - from] == data[from..i];
      n := n * 256 + data[i];
    }
  }

  const PREFIX: Text := [115, 104, 97, 50, 53, 54, 58]

  /** Two lower-case digits for each digest byte, behind the seven bytes already there. */
  method FillHex(buffer: array<Byte>, data: array<Byte>)
    requires buffer.Length == 72 && data.Length >= 55 && buffer != data && forall j :: 7 <= j < 72 ==> buffer[j] == 0
    modifies buffer
    ensures buffer[..7] == old(buffer[..7]) && buffer[7..71] == ToHex(data[23..55]) && buffer[71] == 0
  {
    hide ToHex, HexDigit;
    HexNone();
    assert data[23..23] == [];
    for i := 0 to 32
      invariant buffer[..7] == old(buffer[..7]) && buffer[7..7 + 2 * i] == ToHex(data[23..23 + i])
      invariant forall j :: 7 + 2 * i <= j < 72 ==> buffer[j] == 0
    {
      HexGrows(data[23..23 + i], data[23 + i]);
      assert data[23..23 + i + 1] == data[23..23 + i] + [data[23 + i]];
      buffer[7 + 2 * i] := HexDigit(data[23 + i] / 16);
      buffer[8 + 2 * i] := HexDigit(data[23 + i] % 16);
    }
  }

  lemma HexNone()
    ensures ToHex([]) == []
  {
  }

  method FillFingerprint(buffer: array<Byte>, data: array<Byte>)
    requires buffer.Length == 72 && data.Length >= 55 && buffer != data && buffer[..] == Zeros(72)
    modifies buffer
    ensures buffer[..] == Padded(Fingerprint(data[23..55]), 72)
  {
    hide ToHex;
    for i := 0 to 7
      invariant forall j :: 0 <= j < i ==> buffer[j] == PREFIX[j]
      invariant forall j :: 7 <= j < 72 ==> buffer[j] == 0
    {
      buffer[i] := PREFIX[i];
    }
    assert buffer[..7] == PREFIX;
    FillHex(buffer, data);
    assert buffer[..] == buffer[..7] + buffer[7..71] + [buffer[71]];
  }

  lemma {:induction false} HexGrows(s: Text, b: Byte)
    ensures ToHex(s + [b]) == ToHex(s) + [HexDigit(b / 16), HexDigit(b % 16)]
  {
    if s == [] {
      assert [b][1..] == [];
    } else {
      HexGrows(s[1..], b);
      assert (s + [b])[1..] == s[1..] + [b];
    }
  }

  /** `strlen` of a buffer that ends in a zero. */
  method StringLength(buffer: array<Byte>) returns (n: nat)
    requires buffer.Length > 0 && buffer[buffer.Length - 1] == 0
    ensures n < buffer.Length && buffer[n] == 0 && 0 !in buffer[..n]
  {
    n := 0;
    while buffer[n] != 0
      invariant n < buffer.Length && 0 !in buffer[..n]
      decreases buffer.Length - n
    {
      n := n + 1;
    }
  }

  method AccountNamed(buffer: array<Byte>, length: nat) returns (ok: bool)
    requires length == 15 < buffer.Length
    ensures ok <==> AccountName(buffer[..length])
  {
    if buffer[0] != 118 || buffer[1] != 99 || buffer[2] != 97 {
      assert buffer[..length][0] == buffer[0] && buffer[..length][1] == buffer[1] && buffer[..length][2] == buffer[2];
      return false;
    }
    assert buffer[..length][..3] == [118, 99, 97];
    for i := 3 to length
      invariant forall j :: 3 <= j < i ==> LowerHex(buffer[..length][j])
    {
      if !LowerHex(buffer[i]) {
        assert !LowerHex(buffer[..length][i]);
        return false;
      }
    }
    return true;
  }

  method DomainNamed(buffer: array<Byte>, length: nat) returns (ok: bool)
    requires 1 <= length <= 15 < buffer.Length
    ensures ok <==> DomainName(buffer[..length])
  {
    for i := 0 to length
      invariant forall j :: 0 <= j < i ==> Alnum(buffer[..length][j]) || buffer[..length][j] == 45
    {
      if !Alnum(buffer[i]) && buffer[i] != 45 {
        assert buffer[..length][i] == buffer[i];
        return false;
      }
    }
    return true;
  }

  method AllPrintable(buffer: array<Byte>, length: nat) returns (ok: bool)
    requires length <= buffer.Length
    ensures ok <==> Printable(buffer[..length])
  {
    for i := 0 to length
      invariant forall j :: 0 <= j < i ==> 33 <= buffer[..length][j] <= 126
    {
      if buffer[i] < 33 || buffer[i] > 126 {
        assert buffer[..length][i] == buffer[i];
        return false;
      }
    }
    return true;
  }

  /** The checks on the copied texts. */
  method CheckTexts(parsed: Record, ghost p: Parts, host: nat, user: nat, domain: nat, password: nat) returns (ok: bool)
    requires host == |p.host| && user == |p.username| && domain == |p.domain| && password == |p.password|
    requires parsed.Shaped() && 7 <= |p.host| <= 15 && |p.username| == 15 && 1 <= |p.domain| <= 15
    requires 24 <= |p.password| <= 256
    requires parsed.host[..] == Padded(p.host, 16) && parsed.username[..] == Padded(p.username, 16)
    requires parsed.domain[..] == Padded(p.domain, 16) && parsed.password[..] == Padded(p.password, 257)
    ensures ok <==> TextsWelcome(p)
  {
    hide ParseAddress, AccountName, DomainName, Printable;
    assert parsed.host[..|p.host|] == p.host && parsed.username[..|p.username|] == p.username;
    assert parsed.domain[..|p.domain|] == p.domain && parsed.password[..|p.password|] == p.password;
    var n := StringLength(parsed.host);
    assert n <= |p.host|;
    if n != host {
      assert p.host[n] == parsed.host[n];
      return false;
    }
    assert NoZero(p.host);
    var address := ParseAddress(parsed.host[..n]);
    if address.None? || |address.value| != 4 || !Private(address.value) {
      return false;
    }
    ok := AccountNamed(parsed.username, user);
    if !ok {
      return false;
    }
    ok := DomainNamed(parsed.domain, domain);
    if !ok {
      return false;
    }
    ok := AllPrintable(parsed.password, password);
  }

  /** Length, magic and lifetime. */
  predicate Timely(frame: Text, now: nat) {
    && HEAD <= |frame| <= MAX_FRAME && frame[..4] == MAGIC
    && now < Big(frame[4..12]) <= now + LIFETIME_MS
  }

  /** Ports, sizes and the lengths of the texts. */
  predicate Proportioned(frame: Text)
    requires |frame| >= HEAD
  {
    && Big(frame[12..14]) != 0 && 640 <= Big(frame[14..16]) <= 1920 && 480 <= Big(frame[16..18]) <= 1200
    && 7 <= frame[18] <= 15 && frame[19] == 15 && 1 <= frame[20] <= 15 && 24 <= Big(frame[21..23]) <= 256
    && |frame| == HEAD + frame[18] + frame[19] + frame[20] + Big(frame[21..23])
  }

  lemma HeaderConditions(frame: Text, now: nat)
    ensures |frame| <= MAX_FRAME && Fits(frame) && frame[..4] == MAGIC && HeaderWelcome(Split(frame), now) <==>
              Timely(frame, now) && Proportioned(frame)
  {
    hide Big;
  }

  method ParseLifetime(data: array<Byte>, now: nat, parsed: Record) returns (ok: bool)
    modifies parsed`expires
    ensures ok <==> Timely(data[..], now)
    ensures ok ==> parsed.expires == Big(data[..][4..12])
  {
    hide Big;
    if data.Length < HEAD || data.Length > MAX_FRAME || data[0] != 86 || data[1] != 67 || data[2] != 87
       || data[3] != 49 {
      return false;
    }
    assert data[..][..4] == MAGIC && data[..][4..12] == data[4..12];
    parsed.expires := Number(data, 4, 12);
    return parsed.expires > now && parsed.expires - now <= LIFETIME_MS;
  }

  method ParseNumbers(data: array<Byte>, parsed: Record) returns (ok: bool)
    requires data.Length >= HEAD
    modifies parsed`port, parsed`width, parsed`height
    ensures ok <==> Proportioned(data[..])
    ensures parsed.port == Big(data[..][12..14]) && parsed.width == Big(data[..][14..16])
    ensures parsed.height == Big(data[..][16..18])
  {
    hide Big;
    ghost var frame := data[..];
    assert frame[12..14] == data[12..14] && frame[14..16] == data[14..16] && frame[16..18] == data[16..18];
    assert frame[21..23] == data[21..23];
    parsed.port := Number(data, 12, 14);
    parsed.width := Number(data, 14, 16);
    parsed.height := Number(data, 16, 18);
    var host: nat, user: nat, domain: nat := data[18], data[19], data[20];
    var password := Number(data, 21, 23);
    return !(|| parsed.port == 0 || parsed.width < 640 || parsed.height < 480
             || parsed.width > 1920 || parsed.height > 1200
             || host < 7 || host > 15 || user != 15 || domain == 0 || domain > 15 || password < 24 || password > 256
             || data.Length != HEAD + host + user + domain + password);
  }

  /** The fixed part of the frame, checked in the worker's order. */
  method ParseHeader(data: array<Byte>, now: nat, parsed: Record) returns (ok: bool)
    modifies parsed
    ensures ok <==>
              && data.Length <= MAX_FRAME && Fits(data[..]) && data[..][..4] == MAGIC
              && HeaderWelcome(Split(data[..]), now)
    ensures ok ==>
              var p := Split(data[..]);
              && parsed.expires == p.expires && parsed.port == p.port
              && parsed.width == p.width && parsed.height == p.height
  {
    hide Big, Timely, Proportioned;
    HeaderConditions(data[..], now);
    ok := ParseLifetime(data, now, parsed);
    if ok {
      assert data.Length >= HEAD by { TimelyIsLongEnough(data[..], now); }
      ok := ParseNumbers(data, parsed);
    }
  }

  lemma TimelyIsLongEnough(frame: Text, now: nat)
    requires Timely(frame, now)
    ensures |frame| >= HEAD
  {
  }

  /** The texts and the fingerprint, copied one behind the other. */
  method CopyTexts(data: array<Byte>, parsed: Record, host: nat, user: nat, domain: nat, password: nat)
    requires parsed.Shaped() && parsed.host[..] == Zeros(16) && parsed.username[..] == Zeros(16)
    requires parsed.domain[..] == Zeros(16)
    requires parsed.password[..] == Zeros(257) && parsed.fingerprint[..] == Zeros(72)
    requires data != parsed.host && data != parsed.username && data != parsed.domain && data != parsed.password
    requires data != parsed.fingerprint
    requires data.Length == HEAD + host + user + domain + password && host <= 16 && user <= 16 && domain <= 16
    requires password <= 257
    modifies parsed.host, parsed.username, parsed.domain, parsed.password, parsed.fingerprint
    ensures parsed.host[..] == Padded(data[HEAD..HEAD + host], 16)
    ensures parsed.username[..] == Padded(data[HEAD + host..HEAD + host + user], 16)
    ensures parsed.domain[..] == Padded(data[HEAD + host + user..HEAD + host + user + domain], 16)
    ensures parsed.password[..] == Padded(data[HEAD + host + user + domain..data.Length], 257)
    ensures parsed.fingerprint[..] == Padded(Fingerprint(data[23..55]), 72)
  {
    hide Zeros, Padded, Fingerprint;
    FillFingerprint(parsed.fingerprint, data);
    var offset := HEAD;
    Copy(parsed.host, data, offset, host);
    offset := offset + host;
    Copy(parsed.username, data, offset, user);
    offset := offset + user;
    Copy(parsed.domain, data, offset, domain);
    offset := offset + domain;
    Copy(parsed.password, data, offset, password);
  }

  /** The body of `vcw_decode` up to its end label, on the worker's own zeroed record. */
  method Parse(data: array<Byte>, now: nat, parsed: Record) returns (ok: bool)
    requires parsed.Shaped() && parsed.Blank()
    requires data != parsed.host && data != parsed.username && data != parsed.domain && data != parsed.password
    requires data != parsed.fingerprint
    modifies parsed, parsed.host, parsed.username, parsed.domain, parsed.password, parsed.fingerprint
    ensures ok <==> Decode(data[..], now).Some?
    ensures ok ==> parsed.Holds(Decode(data[..], now).value)
  {
    hide TextsWelcome, Big, Zeros;
    ok := ParseHeader(data, now, parsed);
    if !ok {
      return false;
    }
    ghost var p := Split(data[..]);
    var host: nat, user: nat, domain: nat := data[18], data[19], data[20];
    var password := data.Length - HEAD - host - user - domain;
    CopyTexts(data, parsed, host, user, domain, password);
    assert data[..][23..55] == data[23..55] == p.digest;
    assert data[HEAD..HEAD + host] == p.host && data[HEAD + host..HEAD + host + user] == p.username;
    assert data[HEAD + host + user..HEAD + host + user + domain] == p.domain;
    assert data[HEAD + host + user + domain..data.Length] == p.password;
    ok := CheckTexts(parsed, p, host, user, domain, password);
  }

  /** ... in a record of the worker's own. */
  method ParseOwn(data: array<Byte>, now: nat) returns (ok: bool, parsed: Record)
    ensures fresh(parsed) && fresh(parsed.host) && fresh(parsed.username) && fresh(parsed.domain)
    ensures fresh(parsed.password) && fresh(parsed.fingerprint) && parsed.Shaped()
    ensures ok <==> Decode(data[..], now).Some?
    ensures ok ==> parsed.Holds(Decode(data[..], now).value)
  {
    hide Decode, Zeros, Padded, Record.Holds;
    parsed := new Record();
    ok := Parse(data, now, parsed);
  }

  method Wipe(r: Record)
    requires r.Shaped()
    modifies r, r.host, r.username, r.domain, r.password, r.fingerprint
    ensures r.Blank()
  {
    r.expires, r.port, r.width, r.height := 0, 0, 0, 0;
    Clear(r.host);
    Clear(r.username);
    Clear(r.domain);
    Clear(r.password);
    Clear(r.fingerprint);
  }

  /**
   `vcw_decode`: the caller's record is zeroed first and written only as a whole, so a rejected frame
   leaves it zero; the worker's own copy is wiped on every path.
   */
  method DecodeFrame(data: array<Byte>, now: nat, out: Record) returns (ok: bool)
    requires out.Shaped()
    requires data != out.host && data != out.username && data != out.domain && data != out.password
    requires data != out.fingerprint
    modifies out, out.host, out.username, out.domain, out.password, out.fingerprint
    ensures ok <==> Decode(data[..], now).Some?
    ensures if ok then out.Holds(Decode(data[..], now).value) else out.Blank()
  {
    hide Decode, Zeros, Padded, Record.Holds, Record.Blank;
    Wipe(out);
    var parsed;
    ok, parsed := ParseOwn(data, now);
    if ok {
      Assign(out, parsed, Decode(data[..], now).value);
    }
    Wipe(parsed);
  }

  /** The assignment of one record to another. */
  method Assign(out: Record, parsed: Record, ghost q: Request)
    requires out.Shaped() && parsed.Shaped() && parsed.Holds(q) && out != parsed
    requires {out.host, out.username, out.domain, out.password, out.fingerprint} !!
             {parsed.host, parsed.username, parsed.domain, parsed.password, parsed.fingerprint}
    modifies out, out.host, out.username, out.domain, out.password, out.fingerprint
    ensures out.Holds(q)
  {
    hide Zeros, Padded;
    out.expires, out.port, out.width, out.height := parsed.expires, parsed.port, parsed.width, parsed.height;
    CopyAll(out.host, parsed.host);
    CopyAll(out.username, parsed.username);
    CopyAll(out.domain, parsed.domain);
    CopyAll(out.password, parsed.password);
    CopyAll(out.fingerprint, parsed.fingerprint);
  }

  method CopyAll(target: array<Byte>, source: array<Byte>)
    requires target.Length == source.Length && target != source
    modifies target
    ensures target[..] == source[..]
  {
    for i := 0 to target.Length
      invariant target[..i] == source[..i]
    {
      target[i] := source[i];
    }
  }
}
