/**
 Encoder and decoder of the session frame as functions, and what connects them: every accepted
 configuration is read back exactly, and every accepted frame is the frame of such a configuration.
 */
module SessionCodec {
  import opened Common
  import opened SessionFrame

  const MAGIC: Text := [86, 67, 87, 49]
  const LIFETIME_MS := 28_800_000
  const MAX_FRAME := 1024
  const HEAD := 55

  /** A point in time whose unix milliseconds fit Go's int64. */
  type Instant = t: nat | t / MILLISECOND < 0x8000_0000_0000_0000

  datatype Config = Config(
    v4: bool, address: Octets, port: nat, username: Text, domain: Text, password: Text,
    certificate: Text, width: int, height: int, expiresAt: Instant)

  /** The values of one frame body. */
  datatype Parts = Parts(
    expires: nat, port: nat, width: nat, height: nat, digest: Text, host: Text, username: Text, domain: Text,
    password: Text)

  /** What the worker ends up with. */
  datatype Request = Request(
    expires: nat, port: nat, width: nat, height: nat,
    host: Text, username: Text, domain: Text, password: Text, fingerprint: Text)

  predicate AccountName(s: Text) {
    |s| == 15 && s[..3] == [118, 99, 97] && forall i :: 3 <= i < 15 ==> LowerHex(s[i])
  }

  predicate DomainName(s: Text) { 1 <= |s| <= 15 && forall i :: 0 <= i < |s| ==> Alnum(s[i]) || s[i] == 45 }

  predicate Printable(s: Text) { forall i :: 0 <= i < |s| ==> 33 <= s[i] <= 126 }

  /** What `frame` accepts at `now`. */
  predicate Accepts(c: Config, now: Instant) {
    && c.v4 && Private(c.address) && 0 < c.port < 0x1_0000
    && AccountName(c.username) && DomainName(c.domain) && 24 <= |c.password| <= 256
    && 640 <= c.width <= 1920 && 480 <= c.height <= 1200
    && now < c.expiresAt <= now + 28_800 * SECOND
    && Printable(c.password)
    && FromHex(c.certificate).Some? && |FromHex(c.certificate).value| == 32
  }

  function Millis(t: Instant): nat { t / MILLISECOND }

  function PartsOf(c: Config): Parts
    requires FromHex(c.certificate).Some? && c.width >= 0 && c.height >= 0
  {
    Parts(Millis(c.expiresAt), c.port, c.width, c.height, FromHex(c.certificate).value, Format(c.address),
          c.username, c.domain, c.password)
  }

  predicate Sized(p: Parts) {
    && p.expires < Capacity(8) && p.port < Capacity(2) && p.width < Capacity(2) && p.height < Capacity(2)
    && |p.digest| == 32
    && |p.host| < 256 && |p.username| < 256 && |p.domain| < 256 && |p.password| < Capacity(2)
  }

  function Head(p: Parts): (s: Text)
    requires Sized(p)
    ensures |s| == HEAD
  {
    MAGIC + ToBig(p.expires, 8) + ToBig(p.port, 2) + ToBig(p.width, 2) + ToBig(p.height, 2)
    + [|p.host|, |p.username|, |p.domain|] + ToBig(|p.password|, 2) + p.digest
  }

  function Body(p: Parts): Text
    requires Sized(p)
  {
    Head(p) + p.host + p.username + p.domain + p.password
  }

  /** The frame on the worker's input: the body behind its length. */
  function Payload(p: Parts): Text
    requires Sized(p)
  {
    ToBig(|Body(p)|, 4) + Body(p)
  }

  /** The lengths in the header add up to the frame. */
  predicate Fits(data: Text) { |data| >= HEAD && |data| == HEAD + data[18] + data[19] + data[20] + Big(data[21..23]) }

  function Split(data: Text): Parts
    requires Fits(data)
  {
    var h: nat, u: nat, d: nat := data[18], data[19], data[20];
    Parts(Big(data[4..12]), Big(data[12..14]), Big(data[14..16]), Big(data[16..18]), data[23..55],
          data[55..55 + h], data[55 + h..55 + h + u], data[55 + h + u..55 + h + u + d], data[55 + h + u + d..])
  }

  /** `strlen` over a zero-terminated copy sees the whole text. */
  predicate NoZero(s: Text) { 0 !in s }

  /** What `vcw_decode` demands of the header at `now`, in unix milliseconds. */
  predicate HeaderWelcome(p: Parts, now: nat) {
    && now < p.expires <= now + LIFETIME_MS
    && p.port != 0 && 640 <= p.width <= 1920 && 480 <= p.height <= 1200
    && 7 <= |p.host| <= 15 && |p.username| == 15 && 1 <= |p.domain| <= 15 && 24 <= |p.password| <= 256
  }

  /** ... and of the texts. */
  predicate TextsWelcome(p: Parts) {
    && NoZero(p.host) && ParseAddress(p.host).Some? && |ParseAddress(p.host).value| == 4
    && Private(ParseAddress(p.host).value)
    && AccountName(p.username) && DomainName(p.domain) && Printable(p.password)
  }

  predicate Welcome(p: Parts, now: nat) { HeaderWelcome(p, now) && TextsWelcome(p) }

  function Fingerprint(digest: Text): Text { [115, 104, 97, 50, 53, 54, 58] + ToHex(digest) }

  function RequestOf(p: Parts): Request {
    Request(p.expires, p.port, p.width, p.height, p.host, p.username, p.domain, p.password, Fingerprint(p.digest))
  }

  /** `vcw_decode`. */
  function Decode(data: Text, now: nat): Option<Request> {
    if |data| <= MAX_FRAME && Fits(data) && data[..4] == MAGIC && Welcome(Split(data), now)
    then Some(RequestOf(Split(data))) else None
  }

  // Layout -----------------------------------------------------------------------------------------

  lemma HeadSlices(p: Parts)
    requires Sized(p)
    ensures var h := Head(p);
            && h[..4] == MAGIC && h[4..12] == ToBig(p.expires, 8) && h[12..14] == ToBig(p.port, 2)
            && h[14..16] == ToBig(p.width, 2)
            && h[16..18] == ToBig(p.height, 2) && h[18] == |p.host| && h[19] == |p.username| && h[20] == |p.domain|
            && h[21..23] == ToBig(|p.password|, 2) && h[23..] == p.digest
  {
    hide ToBig;
  }

  lemma Capacities()
    ensures Capacity(2) == 0x1_0000 && Capacity(8) == 0x1_0000_0000_0000_0000
  {
  }

  lemma TailSlices(head: Text, a: Text, b: Text, c: Text, d: Text)
    ensures var s := head + a + b + c + d;
            var i, j, k := |head| + |a|, |head| + |a| + |b|, |head| + |a| + |b| + |c|;
            s[|head|..i] == a && s[i..j] == b && s[j..k] == c && s[k..] == d && s[..|head|] == head
  {
  }

  lemma BodyFits(p: Parts)
    requires Sized(p)
    ensures Fits(Body(p)) && Body(p)[..4] == MAGIC && Split(Body(p)) == p
  {
    hide Head, ToBig, Big, Capacity;
    var s, h := Body(p), Head(p);
    HeadSlices(p);
    TailSlices(h, p.host, p.username, p.domain, p.password);
    assert s[..HEAD] == h;
    assert s[..4] == h[..4] && s[4..12] == h[4..12] && s[12..14] == h[12..14] && s[14..16] == h[14..16];
    assert s[16..18] == h[16..18];
    assert s[21..23] == h[21..23] && s[23..55] == h[23..] && s[18] == h[18] && s[19] == h[19] && s[20] == h[20];
    BigOfToBig(p.expires, 8);
    BigOfToBig(p.port, 2);
    BigOfToBig(p.width, 2);
    BigOfToBig(p.height, 2);
    BigOfToBig(|p.password|, 2);
  }

  lemma SplitIsSized(data: Text)
    requires Fits(data)
    ensures Sized(Split(data))
  {
    hide ToBig, Big;
    ToBigOfBig(data[4..12]);
    ToBigOfBig(data[12..14]);
    ToBigOfBig(data[14..16]);
    ToBigOfBig(data[16..18]);
    ToBigOfBig(data[21..23]);
  }

  lemma BodyOfSplit(data: Text)
    requires Fits(data) && data[..4] == MAGIC
    ensures Sized(Split(data)) && Body(Split(data)) == data
  {
    hide ToBig, Big, Capacity;
    SplitIsSized(data);
    ToBigOfBig(data[4..12]);
    ToBigOfBig(data[12..14]);
    ToBigOfBig(data[14..16]);
    ToBigOfBig(data[16..18]);
    ToBigOfBig(data[21..23]);
    var p := Split(data);
    assert [|p.host|, |p.username|, |p.domain|] == data[18..21];
    assert Head(p) == data[..55];
  }

  // The two sides agree ----------------------------------------------------------------------------

  lemma AcceptedIsSized(c: Config, now: Instant)
    requires Accepts(c, now)
    ensures Sized(PartsOf(c))
  {
    Capacities();
    FormatShape(c.address);
  }

  /** Every frame written is read back exactly, from the moment it was written up to its floored expiry. */
  lemma RoundTrip(c: Config, now: Instant, later: nat)
    requires Accepts(c, now) && Millis(now) <= later < Millis(c.expiresAt)
    ensures Sized(PartsOf(c)) && Decode(Body(PartsOf(c)), later) == Some(RequestOf(PartsOf(c)))
    ensures RequestOf(PartsOf(c)).fingerprint == [115, 104, 97, 50, 53, 54, 58] + LoweredAll(c.certificate)
  {
    hide ToBig, Big, Capacity, Head, FromHex, ToHex, Format;
    AcceptedIsSized(c, now);
    BodyFits(PartsOf(c));
    ParseOfFormat(c.address);
    FormatShape(c.address);
    ToHexOfFromHex(c.certificate);
  }

  /** The fields determine the frame: nothing in an accepted frame goes unread. */
  lemma Injective(a: Text, b: Text, now: nat, later: nat)
    requires Decode(a, now).Some? && Decode(a, now) == Decode(b, later)
    ensures a == b
  {
    hide ToBig, Big, Capacity, Head, ToHex, ParseAddress, Welcome;
    BodyOfSplit(a);
    BodyOfSplit(b);
    var p, q := Split(a), Split(b);
    FromHexOfToHex(p.digest);
    FromHexOfToHex(q.digest);
    assert Fingerprint(p.digest)[7..] == ToHex(p.digest) && Fingerprint(q.digest)[7..] == ToHex(q.digest);
  }

  /** The configuration a frame stands for. */
  function ConfigOf(p: Parts): Config
    requires ParseAddress(p.host).Some? && |ParseAddress(p.host).value| == 4
    requires (forall i :: 0 <= i < 4 ==> ParseAddress(p.host).value[i] < 256)
    requires p.expires < 0x8000_0000_0000_0000
  {
    Config(true, ParseAddress(p.host).value, p.port, p.username, p.domain, p.password,
           ToHex(p.digest), p.width, p.height, p.expires * MILLISECOND)
  }

  /** The worker accepts nothing but frames the control plane could have written. */
  lemma NothingElseAccepted(data: Text, now: nat)
    requires Decode(data, now).Some? && Split(data).expires < 0x8000_0000_0000_0000
    ensures |ParseAddress(Split(data).host).value| == 4
    ensures (forall i :: 0 <= i < 4 ==> ParseAddress(Split(data).host).value[i] < 256)
    ensures var c := ConfigOf(Split(data));
            Accepts(c, now * MILLISECOND) && Sized(PartsOf(c)) && Body(PartsOf(c)) == data
  {
    hide ToBig, Big, Capacity, Head, FromHex, ToHex, Format, Body;
    var p := Split(data);
    ParsesExactlyFormatted(p.host);
    BodyOfSplit(data);
    FromHexOfToHex(p.digest);
    var c := ConfigOf(p);
    assert PartsOf(c) == p;
    Capacities();
  }
}
