/** Which addresses a relay may dial: the check of its configured prefixes, and what that check buys. */
module RelayTargets {
  import opened Common

  /** An IPv4 address as a number, and a prefix of its leading bits. */
  newtype Bits = b: int | 0 <= b <= 32

  datatype Prefix = Prefix(address: nat, bits: Bits, v4: bool)

  function Power(n: nat): nat
    ensures Power(n) > 0
  {
    if n == 0 then 1 else 2 * Power(n - 1)
  }

  /** The size of the block of addresses that share the leading `bits`. */
  function Block(bits: Bits): nat
    ensures Block(bits) > 0
  {
    Power((32 - bits) as nat)
  }

  predicate Contains(p: Prefix, address: nat) { p.v4 && address / Block(p.bits) == p.address / Block(p.bits) }

  predicate Masked(p: Prefix) { p.address % Block(p.bits) == 0 }

  const SCOPES: seq<Prefix> := [
    Prefix(0x0A00_0000, 8, true), Prefix(0xAC10_0000, 12, true), Prefix(0xC0A8_0000, 16, true)]

  /** An address of one of the three private ranges. */
  predicate Private(address: nat) { PrivateRange(address / 0x100_0000, address / 0x1_0000 % 256) }

  predicate Within(p: Prefix, scope: Prefix) { p.v4 && Masked(p) && p.bits >= scope.bits && Contains(scope, p.address) }

  predicate InScope(p: Prefix) { exists j :: 0 <= j < |SCOPES| && Within(p, SCOPES[j]) }

  /** `validTargetPrefixes`. */
  method ValidTargetPrefixes(prefixes: seq<Prefix>) returns (ok: bool)
    ensures ok <==> 0 < |prefixes| <= 128 && forall i :: 0 <= i < |prefixes| ==> InScope(prefixes[i])
  {
    if |prefixes| == 0 || |prefixes| > 128 {
      return false;
    }
    for i := 0 to |prefixes|
      invariant forall k :: 0 <= k < i ==> InScope(prefixes[k])
    {
      var valid := false;
      for j := 0 to |SCOPES|
        invariant valid <==> exists k :: 0 <= k < j && Within(prefixes[i], SCOPES[k])
      {
        valid := valid || Within(prefixes[i], SCOPES[j]);
      }
      if !valid {
        return false;
      }
    }
    return true;
  }

  lemma {:induction false} PowerAdds(a: nat, b: nat)
    ensures Power(a + b) == Power(a) * Power(b)
  {
    if a > 0 {
      PowerAdds(a - 1, b);
      assert Power(a + b) == 2 * Power(a - 1 + b);
    }
  }

  /** Numbers equal after dropping some low bits are equal after dropping more. */
  lemma DivTwice(x: nat, a: nat, b: nat)
    requires a > 0 && b > 0
    ensures a * b > 0 && x / (a * b) == (x / a) / b
  {
    assert a * b > 0 by { MulPositive(a, b); }
    var q := x / a;
    var r := q / b;
    assert x == q * a + x % a && q == r * b + q % b;
    var low := (q % b) * a + x % a;
    assert x == r * (a * b) + low by { assert q * a == (r * b + q % b) * a == r * (a * b) + (q % b) * a; }
    assert 0 <= low < a * b by {
      assert q % b <= b - 1;
      MulMonotone(q % b, b - 1, a);
    }
    QuotientUnique(x, a * b, r, low);
  }

  lemma MulPositive(a: nat, b: nat)
    requires a > 0 && b > 0
    ensures a * b > 0
  {
  }

  lemma MulMonotone(x: int, y: int, a: nat)
    requires x <= y
    ensures x * a <= y * a
  {
  }

  lemma QuotientUnique(x: nat, d: nat, q: nat, r: nat)
    requires d > 0 && x == q * d + r && r < d
    ensures x / d == q
  {
    var p := x / d;
    assert x == p * d + x % d;
    if p < q {
      MulMonotone(p + 1, q, d);
    } else if p > q {
      MulMonotone(q + 1, p, d);
    }
  }

  lemma Nested(p: Prefix, scope: Prefix, address: nat)
    requires Within(p, scope) && Contains(p, address)
    ensures scope.v4 && Contains(scope, address)
  {
    var fine, rest := Block(p.bits), Power((p.bits - scope.bits) as nat);
    PowerAdds((32 - p.bits) as nat, (p.bits - scope.bits) as nat);
    assert Block(scope.bits) == fine * rest;
    DivTwice(address, fine, rest);
    DivTwice(p.address, fine, rest);
  }

  lemma Powers()
    ensures Power(16) == 0x1_0000 && Power(20) == 0x10_0000 && Power(24) == 0x100_0000
  {
    assert Power(4) == 16;
    PowerAdds(4, 4);
    PowerAdds(8, 8);
    PowerAdds(16, 4);
    PowerAdds(16, 8);
  }

  lemma ScopesArePrivate(j: nat, address: nat)
    requires j < |SCOPES| && Contains(SCOPES[j], address)
    ensures Private(address)
  {
    hide Power;
    Powers();
    if j == 0 {
      assert Block(8) == 0x100_0000;
    } else if j == 1 {
      assert Block(12) == 0x10_0000;
    } else {
      assert Block(16) == 0x1_0000;
    }
  }

  /** Whatever prefixes a relay was allowed to start with, an address inside one of them is private. */
  lemma AllowedIsPrivate(prefixes: seq<Prefix>, i: nat, address: nat)
    requires i < |prefixes| && InScope(prefixes[i]) && Contains(prefixes[i], address)
    ensures Private(address)
  {
    var j :| 0 <= j < |SCOPES| && Within(prefixes[i], SCOPES[j]);
    Nested(prefixes[i], SCOPES[j], address);
    ScopesArePrivate(j, address);
  }
}
