/**
 Rows of `gateway_session_tickets` and the four statements that write them.  Times are nanoseconds;
 the database stamps a statement with the microsecond it falls into.
 */
module GatewayTicket {
  import opened Common
  import N = NativeAccount

  const WINDOW := 5 * SECOND

  type ConnectionId = N.ConnId
  type GatewayId = string
  type TunnelId = nat
  type Token = nat

  /** The microsecond a statement at `t` is stamped with. */
  function Stamp(t: nat): nat { t - t % MICROSECOND }

  /**
   The access view's row for a connection: the earlier of its own and its session's expiry, and the
   applied policy.
   */
  datatype Access = Access(deadline: nat, policy: nat)

  datatype Tunnel = Tunnel(id: TunnelId, consumed: nat, lease: nat, closed: Option<nat>)

  datatype Ticket = Ticket(
    connection: ConnectionId, gateway: GatewayId, policy: nat, created: nat, expires: nat, session: nat,
    tunnel: Option<Tunnel>)

  /** What the statement returns; `lease` and `stamp` are the committed values behind `micros`. */
  datatype Grant = Grant(
    connection: ConnectionId, gateway: GatewayId, tunnel: TunnelId, policy: nat, micros: nat, lease: nat, stamp: nat)

  function Min(a: nat, b: nat): nat { if a < b then a else b }

  predicate Admits(access: Option<Access>, stamp: nat) { access.Some? && access.value.deadline > stamp }

  function LeaseEnd(k: Ticket, a: Access, stamp: nat): nat { Min(Min(k.session, a.deadline), stamp + WINDOW) }

  /** `scanGatewayGrant` refuses a grant outside the window. */
  function GrantOf(k: Ticket, stamp: nat): Option<Grant>
    requires k.tunnel.Some? && k.tunnel.value.lease >= stamp
  {
    var micros := (k.tunnel.value.lease - stamp) / MICROSECOND;
    if 0 < micros * MICROSECOND <= WINDOW
    then Some(Grant(k.connection, k.gateway, k.tunnel.value.id, k.policy, micros, k.tunnel.value.lease, stamp))
    else None
  }

  /** `createNativeGatewayTicket`: `None` when the connection is not admitted under exactly this policy. */
  function Minted(c: ConnectionId, g: GatewayId, policy: nat, access: Option<Access>, now: nat): Option<Ticket> {
    var stamp := Stamp(now);
    if Admits(access, stamp) && access.value.policy == policy
    then Some(Ticket(c, g, policy, stamp, Min(access.value.deadline, stamp + 30 * SECOND), access.value.deadline, None))
    else None
  }

  /** `RedeemNativeGatewayTicket`. */
  function Redeemed(k: Ticket, g: GatewayId, id: TunnelId, access: Option<Access>, now: nat): Option<Ticket> {
    var stamp := Stamp(now);
    if !Admits(access, stamp) || k.gateway != g || k.tunnel.Some? || k.expires <= stamp || k.session <= stamp
       || k.policy != access.value.policy
    then None
    else Some(k.(tunnel := Some(Tunnel(id, stamp, LeaseEnd(k, access.value, stamp), None))))
  }

  /** `RenewNativeGatewayGrant`. */
  function Renewed(k: Ticket, g: GatewayId, id: TunnelId, access: Option<Access>, now: nat): Option<Ticket> {
    var stamp := Stamp(now);
    if !Admits(access, stamp) || k.gateway != g || k.tunnel.None? || k.tunnel.value.id != id
       || k.tunnel.value.closed.Some?
       || k.tunnel.value.lease <= stamp || k.session <= stamp || k.policy != access.value.policy
    then None
    else Some(k.(tunnel := Some(k.tunnel.value.(lease := LeaseEnd(k, access.value, stamp)))))
  }

  /** `CloseNativeGatewayGrant`. */
  function Closed(k: Ticket, g: GatewayId, id: TunnelId, now: nat): Ticket {
    if k.gateway == g && k.tunnel.Some? && k.tunnel.value.id == id && k.tunnel.value.closed.None?
    then k.(tunnel := Some(k.tunnel.value.(closed := Some(Stamp(now))))) else k
  }

  /** The CHECK constraints of the table. */
  predicate WellFormed(k: Ticket) {
    && k.created < k.expires <= k.created + 30 * SECOND && k.expires <= k.session
    && (k.tunnel.Some? ==>
          && k.created <= k.tunnel.value.consumed <= k.tunnel.value.lease <= k.session
          && (k.tunnel.value.closed.Some? ==> k.tunnel.value.consumed <= k.tunnel.value.closed.value))
  }

  /** The row guard: authority is immutable, a ticket is consumed once, a closed tunnel stays closed. */
  predicate GuardAllows(a: Ticket, b: Ticket) {
    && b == a.(tunnel := b.tunnel)
    && (a.tunnel.Some? ==>
          && b.tunnel.Some? && b.tunnel.value.id == a.tunnel.value.id
          && b.tunnel.value.consumed == a.tunnel.value.consumed)
    && (a.tunnel.Some? && a.tunnel.value.closed.Some? ==> b.tunnel == a.tunnel)
  }

  lemma StampFacts(a: nat, b: nat)
    requires a <= b
    ensures Stamp(a) <= Stamp(b) && Stamp(a) <= a < Stamp(a) + MICROSECOND
  {
  }

  lemma MintIsWellFormed(c: ConnectionId, g: GatewayId, policy: nat, access: Option<Access>, now: nat)
    requires Minted(c, g, policy, access, now).Some?
    ensures WellFormed(Minted(c, g, policy, access, now).value)
  {
  }

  /** No statement runs into the table's constraints or its guard. */
  lemma StatementsPassGuard(k: Ticket, g: GatewayId, id: TunnelId, access: Option<Access>, now: nat)
    requires WellFormed(k) && k.created <= Stamp(now) && (k.tunnel.Some? ==> k.tunnel.value.consumed <= Stamp(now))
    ensures forall b ::
              (|| Redeemed(k, g, id, access, now) == Some(b)
               || Renewed(k, g, id, access, now) == Some(b)
               || Closed(k, g, id, now) == b) ==>
              WellFormed(b) && GuardAllows(k, b)
  {
  }

  /** The tunnel may carry traffic as far as the database is concerned. */
  predicate Live(k: Ticket, now: nat) {
    k.tunnel.Some? && k.tunnel.value.closed.None? && k.tunnel.value.lease > Stamp(now)
  }

  /** A consumed ticket whose tunnel lapsed or was closed. */
  predicate Over(k: Ticket, now: nat) { k.tunnel.Some? && !Live(k, now) }

  /** Once over, always over: neither time nor any statement brings a tunnel back. */
  lemma OverIsFinal(k: Ticket, g: GatewayId, id: TunnelId, access: Option<Access>, then_: nat, now: nat)
    requires Over(k, then_) && then_ <= now
    ensures Over(k, now) && Over(Closed(k, g, id, now), now)
    ensures Redeemed(k, g, id, access, now).None? && Renewed(k, g, id, access, now).None?
  {
  }
}
