/**
 The store's gateway transactions.  The row is written first and the audit event after it, so a
 failure in between takes the write back; a commit whose outcome is lost burns the ticket without
 handing out its grant.
 */
module GatewayStore {
  import opened Common
  import opened GatewayTicket
  import G = Gateway

  lemma RedeemNeedsFresh(s: G.State, g: GatewayId, token: Token, id: TunnelId)
    requires G.Inv(s)
    ensures token in s.redeemed || (token in s.tickets && s.tickets[token].tunnel.Some?) ==>
              G.Redeem(s, g, token, id) == (s, None)
    ensures G.Redeem(s, g, token, id).1.Some? ==>
              && G.Redeem(s, g, token, id).0.redeemed == s.redeemed + [token]
              && token in s.tickets && Admits(G.AccessOf(s, s.tickets[token].connection), Stamp(s.clock))
    ensures G.Redeem(s, g, token, id).1.None? ==> G.Redeem(s, g, token, id).0 == s
  {
  }

  class Store {
    var s: G.State

    /** `RedeemNativeGatewayTicket`. */
    method Redeem(g: GatewayId, token: Token, id: TunnelId, audited: bool, commit: Commit)
      returns (grant: Option<Grant>)
      requires G.Inv(s)
      modifies this
      ensures G.Inv(s)
      ensures token in old(s).redeemed ==> grant.None? && s == old(s)
      ensures grant.Some? ==>
                && grant == G.Redeem(old(s), g, token, id).1 && s == G.Redeem(old(s), g, token, id).0
                && token in s.redeemed
      ensures commit == Unknown && audited && G.Redeem(old(s), g, token, id).1.Some? ==>
                grant.None? && token in s.redeemed
      ensures !audited || commit == Refused ==> grant.None? && s == old(s)
      ensures grant.Some? ==> grant.value.stamp < grant.value.lease <= grant.value.stamp + WINDOW
    {
      RedeemNeedsFresh(s, g, token, id);
      G.RedeemFacts(s, g, token, id, s.clock);
      var before := s;
      var out := G.Redeem(s, g, token, id);
      if out.1.None? {
        return None;
      }
      s := out.0;
      if !audited || commit == Refused {
        s := before;
        return None;
      }
      return if commit == Committed then out.1 else None;
    }

    /** `RenewNativeGatewayGrant`: a lapsed or closed tunnel is never renewed. */
    method Renew(g: GatewayId, token: Token, id: TunnelId, commit: Commit) returns (grant: Option<Grant>)
      requires G.Inv(s)
      modifies this
      ensures G.Inv(s) && s.redeemed == old(s).redeemed && s.tickets.Keys == old(s).tickets.Keys
      ensures forall t :: t in s.tickets ==>
                GuardAllows(old(s).tickets[t], s.tickets[t]) && (t != token ==> s.tickets[t] == old(s).tickets[t])
      ensures token in s.tickets && Over(old(s).tickets[token], s.clock) ==> grant.None? && s == old(s)
      ensures grant.Some? ==>
                && token in s.tickets && Admits(G.AccessOf(s, s.tickets[token].connection), Stamp(s.clock))
                && s.clock == old(s).clock
      ensures grant.Some? ==>
                && s.tickets[token].tunnel.Some?
                && grant.value.lease == s.tickets[token].tunnel.value.lease <= s.tickets[token].session
    {
      hide G.ValidFor, G.RelayOk;
      G.RenewFacts(s, g, token, id, s.clock);
      var out := G.Renew(s, g, token, id);
      if out.1.None? || commit == Refused {
        return None;
      }
      assert G.TicketOk(s.tickets[token], s.clock);
      s := out.0;
      return if commit == Committed then out.1 else None;
    }

    /** `CloseNativeGatewayGrant`: idempotent, and final for the tunnel. */
    method Close(g: GatewayId, token: Token, commit: Commit)
      requires G.Inv(s)
      modifies this
      ensures G.Inv(s)
      ensures s == old(s) || s == G.Next(old(s), G.RunClose(g, token))
      ensures commit != Refused && token in old(s).tickets
              && old(s).tickets[token].tunnel.Some? && old(s).tickets[token].gateway == g ==>
                token in s.tickets && Over(s.tickets[token], s.clock)
    {
      G.TicketKeepsInv(s, G.RunClose(g, token));
      if commit != Refused {
        s := G.Next(s, G.RunClose(g, token));
      }
    }
  }
}
