/**
 Ticket rows, relays and the passage of time together.  A relay sends a request, the database runs
 it at some later moment or never, the reply arrives later still or never, and access changes at any
 point in between.  Database and relay only share the rate at which time passes: a relay never
 compares its clock with a database stamp.
 */
module Gateway {
  import opened Common
  import opened GatewayTicket
  import N = NativeAccount

  type RelayId = nat

  /** The grant's window as it reaches the relay: whole milliseconds, checked on both ends of the wire. */
  function ValidFor(g: Grant): Option<nat> {
    var millis := g.micros / 1000;
    if 1 <= millis <= 5000 && g.micros * MICROSECOND <= WINDOW then Some(millis * MILLISECOND) else None
  }

  datatype Renewal = NoRenewal | Asked(started: nat) | Answered(started: nat, reply: Option<Grant>)

  datatype Relay =
    | Redeeming(gateway: GatewayId, token: Token, started: nat)
    | Replied(gateway: GatewayId, token: Token, started: nat, reply: Option<Grant>)
    | Running(gateway: GatewayId, token: Token, grant: Grant, started: nat, deadline: nat, renewal: Renewal)
    | Stopped

  datatype Carried = Carried(connection: ConnectionId, at: nat, grant: Grant)

  datatype State = State(
    clock: nat,
    access: map<ConnectionId, Access>,
    tickets: map<Token, Ticket>,
    relays: map<RelayId, Relay>,
    redeemed: seq<Token>,  // every redemption that ever committed
    bytes: seq<Carried>)   // every byte that ever crossed a relay

  datatype Step =
    | Tick(nanos: nat)
    | SetAccess(connection: ConnectionId, access: Option<Access>)
    | Mint(token: Token, connection: ConnectionId, gateway: GatewayId, policy: nat)
    | Serve(relay: RelayId, gateway: GatewayId, token: Token)
    | RunRedeem(relay: RelayId, tunnel: TunnelId)
    | StrayRedeem(gateway: GatewayId, token: Token, tunnel: TunnelId) // a redemption whose reply nobody receives
    | TakeRedeem(relay: RelayId)
    | AskRenew(relay: RelayId)
    | RunRenew(relay: RelayId)
    | TakeRenew(relay: RelayId)
    | Carry(relay: RelayId)
    | Stop(relay: RelayId)
    | RunClose(gateway: GatewayId, token: Token)

  function AccessOf(s: State, c: ConnectionId): Option<Access> { if c in s.access then Some(s.access[c]) else None }

  /** The redemption statement, and the grant it returns. */
  function Redeem(s: State, g: GatewayId, token: Token, id: TunnelId): (State, Option<Grant>) {
    if token !in s.tickets then (s, None)
    else
      var k := s.tickets[token];
      var next := Redeemed(k, g, id, AccessOf(s, k.connection), s.clock);
      if next.None? || GrantOf(next.value, Stamp(s.clock)).None? then (s, None)
      else
        (s.(tickets := s.tickets[token := next.value], redeemed := s.redeemed + [token]),
         GrantOf(next.value, Stamp(s.clock)))
  }

  function Renew(s: State, g: GatewayId, token: Token, id: TunnelId): (State, Option<Grant>) {
    if token !in s.tickets then (s, None)
    else
      var k := s.tickets[token];
      var next := Renewed(k, g, id, AccessOf(s, k.connection), s.clock);
      if next.None? || GrantOf(next.value, Stamp(s.clock)).None? then (s, None)
      else (s.(tickets := s.tickets[token := next.value]), GrantOf(next.value, Stamp(s.clock)))
  }

  /** The relay's reading of its redemption reply: a deadline counted from the moment it asked. */
  function Opened(k: Relay, now: nat): Relay
    requires k.Replied?
  {
    if k.reply.None? || ValidFor(k.reply.value).None? || k.reply.value.gateway != k.gateway then Stopped
    else
      var deadline := k.started + ValidFor(k.reply.value).value;
      if now < deadline then Running(k.gateway, k.token, k.reply.value, k.started, deadline, NoRenewal) else Stopped
  }

  predicate SameTunnel(a: Grant, b: Grant) {
    a.tunnel == b.tunnel && a.connection == b.connection && a.policy == b.policy && a.gateway == b.gateway
  }

  /** The relay's reading of a renewal reply: anything unexpected or late ends the tunnel. */
  function Extended(k: Relay, now: nat): Relay
    requires k.Running? && k.renewal.Answered?
  {
    var reply := k.renewal.reply;
    if reply.None? || ValidFor(reply.value).None? || !SameTunnel(reply.value, k.grant) then Stopped
    else
      var deadline := k.renewal.started + ValidFor(reply.value).value;
      if now < k.deadline && now < deadline
      then k.(grant := reply.value, started := k.renewal.started, deadline := deadline, renewal := NoRenewal)
      else Stopped
  }

  function Next(s: State, step: Step): State {
    match step
    case Tick(d) => s.(clock := s.clock + d)
    case SetAccess(c, a) => s.(access := if a.Some? then s.access[c := a.value] else s.access - {c})
    case Mint(t, c, g, p) =>
      if t in s.tickets || (exists u :: u in s.tickets && s.tickets[u].connection == c) then s
      else
        var k := Minted(c, g, p, AccessOf(s, c), s.clock);
        if k.Some? then s.(tickets := s.tickets[t := k.value]) else s
    case Serve(r, g, t) => if r in s.relays then s else s.(relays := s.relays[r := Redeeming(g, t, s.clock)])
    case RunRedeem(r, id) =>
      if r in s.relays && s.relays[r].Redeeming? then
        var k := s.relays[r];
        var out := Redeem(s, k.gateway, k.token, id);
        out.0.(relays := s.relays[r := Replied(k.gateway, k.token, k.started, out.1)])
      else s
    case StrayRedeem(g, t, id) => Redeem(s, g, t, id).0
    case TakeRedeem(r) =>
      if r in s.relays && s.relays[r].Replied? then s.(relays := s.relays[r := Opened(s.relays[r], s.clock)]) else s
    case AskRenew(r) =>
      if r in s.relays && s.relays[r].Running? && s.relays[r].renewal.NoRenewal?
      then s.(relays := s.relays[r := s.relays[r].(renewal := Asked(s.clock))]) else s
    case RunRenew(r) =>
      if r in s.relays && s.relays[r].Running? && s.relays[r].renewal.Asked? then
        var k := s.relays[r];
        var out := Renew(s, k.gateway, k.token, k.grant.tunnel);
        out.0.(relays := s.relays[r := k.(renewal := Answered(k.renewal.started, out.1))])
      else s
    case TakeRenew(r) =>
      if r in s.relays && s.relays[r].Running? && s.relays[r].renewal.Answered?
      then s.(relays := s.relays[r := Extended(s.relays[r], s.clock)]) else s
    case Carry(r) =>
      if r in s.relays && s.relays[r].Running? && s.clock < s.relays[r].deadline
      then s.(bytes := s.bytes + [Carried(s.relays[r].grant.connection, s.clock, s.relays[r].grant)]) else s
    case Stop(r) => if r in s.relays then s.(relays := s.relays[r := Stopped]) else s
    case RunClose(g, t) =>
      if t in s.tickets && s.tickets[t].tunnel.Some?
      then s.(tickets := s.tickets[t := Closed(s.tickets[t], g, s.tickets[t].tunnel.value.id, s.clock)]) else s
  }

  function Start(clock: nat): State { State(clock, map[], map[], map[], [], []) }

  function Run(s: State, steps: seq<Step>): State {
    if steps == [] then s else Next(Run(s, steps[..|steps| - 1]), steps[|steps| - 1])
  }

  // The deadline of one grant ----------------------------------------------------------------------

  /** A grant answered to a request made at `started`, with the committed lease behind it. */
  predicate Answers(g: Grant, started: nat, now: nat) {
    && started < g.stamp + MICROSECOND && g.stamp <= now
    && g.stamp < g.lease <= g.stamp + WINDOW && g.micros == (g.lease - g.stamp) / MICROSECOND
  }

  /**
   The relay's deadline: within five seconds of its own request, and within a stamp's rounding of the
   committed lease.
   */
  lemma DeadlineBounds(g: Grant, started: nat, now: nat)
    requires Answers(g, started, now) && ValidFor(g).Some? && started <= now
    ensures started + ValidFor(g).value <= started + WINDOW
    ensures started + ValidFor(g).value < g.lease + MICROSECOND
    ensures g.stamp >= started ==> started + ValidFor(g).value <= g.lease
  {
  }

  /**
   Exactly when the relay's deadline stays within the committed lease: the part of the window lost to
   whole milliseconds covers what the database stamp fell behind the request.
   */
  lemma DeadlineWithinLease(g: Grant, started: nat, now: nat)
    requires Answers(g, started, now) && ValidFor(g).Some?
    ensures started + ValidFor(g).value <= g.lease <==> started - g.stamp <= (g.lease - g.stamp) % MILLISECOND
  {
  }

  /** A request half a microsecond after the stamp it is answered under, granted a full window. */
  const LATE_GRANT := Grant(N.Connection(1), "g", 0, 1, 5_000_000, 5_000_001_000, 1_000)
  const LATE_STEPS: seq<Step> :=
    [SetAccess(N.Connection(1), Some(Access(10 * SECOND, 1))), Mint(0, N.Connection(1), "g", 1), Serve(1, "g", 0),
     RunRedeem(1, 0), TakeRedeem(1)]

  lemma RunOneMore(s: State, steps: seq<Step>, step: Step)
    ensures Run(s, steps + [step]) == Next(Run(s, steps), step)
  {
    hide Next;
    assert (steps + [step])[..|steps|] == steps;
  }

  lemma LateRequest()
    ensures var s := Run(Start(1_500), LATE_STEPS[..3]);
            && s.clock == 1_500 && s.relays == map[1 := Redeeming("g", 0, 1_500)] && s.redeemed == []
            && AccessOf(s, N.Connection(1)) == Some(Access(10 * SECOND, 1))
            && s.tickets == map[0 := Ticket(N.Connection(1), "g", 1, 1_000, 10 * SECOND, 10 * SECOND, None)]
  {
    var x := LATE_STEPS;
    RunOneMore(Start(1_500), [], x[0]);
    RunOneMore(Start(1_500), x[..1], x[1]);
    RunOneMore(Start(1_500), x[..2], x[2]);
    assert [] + [x[0]] == x[..1] && x[..1] + [x[1]] == x[..2] && x[..2] + [x[2]] == x[..3];
    assert Run(Start(1_500), []) == Start(1_500);
  }

  /** In that run the relay serves under a deadline beyond the lease committed for the grant it holds. */
  lemma DeadlineCanPassLease()
    ensures var s := Run(Start(1_500), LATE_STEPS);
            && 1 in s.relays && s.relays[1].Running? && s.relays[1].grant == LATE_GRANT
            && 0 in s.tickets && s.tickets[0].tunnel.Some? && s.tickets[0].tunnel.value.lease == LATE_GRANT.lease
            && s.relays[1].deadline == 1_500 + WINDOW > LATE_GRANT.lease
  {
    var x := LATE_STEPS;
    LateRequest();
    RunOneMore(Start(1_500), x[..3], x[3]);
    RunOneMore(Start(1_500), x[..4], x[4]);
    assert x[..3] + [x[3]] == x[..4] && x[..4] + [x[4]] == x;
    var s := Run(Start(1_500), x[..4]);
    assert s.relays[1] == Replied("g", 0, 1_500, Some(LATE_GRANT));
  }

  // Invariants ------------------------------------------------------------------------------------

  predicate ReplyOk(g: Option<Grant>, started: nat, now: nat) {
    started <= now && (g.Some? ==> Answers(g.value, started, now))
  }

  predicate RelayOk(k: Relay, now: nat) {
    match k
    case Redeeming(_, _, started) => started <= now
    case Replied(_, _, started, reply) => ReplyOk(reply, started, now)
    case Running(_, _, grant, started, deadline, renewal) =>
      && ReplyOk(Some(grant), started, now) && ValidFor(grant).Some? && deadline == started + ValidFor(grant).value
      && (renewal.Asked? ==> renewal.started <= now)
      && (renewal.Answered? ==> ReplyOk(renewal.reply, renewal.started, now))
    case Stopped => true
  }

  predicate TicketOk(k: Ticket, now: nat) {
    WellFormed(k) && k.created <= Stamp(now) && (k.tunnel.Some? ==> k.tunnel.value.consumed <= Stamp(now))
  }

  ghost predicate RelaysOk(s: State) { forall r :: r in s.relays ==> RelayOk(s.relays[r], s.clock) }

  ghost predicate TicketsOk(s: State) { forall t :: t in s.tickets ==> TicketOk(s.tickets[t], s.clock) }

  ghost predicate RedeemedOnce(s: State) {
    && (forall t :: t in s.redeemed ==> t in s.tickets && s.tickets[t].tunnel.Some?)
    && (forall i, j :: 0 <= i < j < |s.redeemed| ==> s.redeemed[i] != s.redeemed[j])
  }

  ghost predicate BytesOk(s: State) {
    forall i :: 0 <= i < |s.bytes| ==> s.bytes[i].at < s.bytes[i].grant.lease + MICROSECOND
  }

  ghost predicate Inv(s: State) { RelaysOk(s) && TicketsOk(s) && RedeemedOnce(s) && BytesOk(s) }

  lemma TickKeepsInv(s: State, d: nat)
    requires Inv(s)
    ensures Inv(Next(s, Tick(d)))
  {
    hide WellFormed, ValidFor;
    StampFacts(s.clock, s.clock + d);
    forall r | r in s.relays ensures RelayOk(s.relays[r], s.clock + d) { assert RelayOk(s.relays[r], s.clock); }
    forall t | t in s.tickets ensures TicketOk(s.tickets[t], s.clock + d) { assert TicketOk(s.tickets[t], s.clock); }
  }

  /**
   One redemption statement: the row stays sound, the token is fresh in the log, the grant answers any
   earlier request.
   */
  lemma RedeemFacts(s: State, g: GatewayId, token: Token, id: TunnelId, started: nat)
    requires TicketsOk(s) && RedeemedOnce(s) && started <= s.clock
    ensures var out := Redeem(s, g, token, id);
            && TicketsOk(out.0) && RedeemedOnce(out.0)
            && out.0.clock == s.clock && out.0.relays == s.relays && out.0.bytes == s.bytes && out.0.access == s.access
            && ReplyOk(out.1, started, s.clock)
            && (out.1.Some? ==>
                  && token in s.tickets && out.1.value.connection == s.tickets[token].connection
                  && Admits(AccessOf(s, s.tickets[token].connection), Stamp(s.clock)))
  {
  }

  lemma RenewFacts(s: State, g: GatewayId, token: Token, id: TunnelId, started: nat)
    requires TicketsOk(s) && RedeemedOnce(s) && started <= s.clock
    ensures var out := Renew(s, g, token, id);
            && TicketsOk(out.0) && RedeemedOnce(out.0)
            && out.0.clock == s.clock && out.0.relays == s.relays && out.0.bytes == s.bytes && out.0.access == s.access
            && ReplyOk(out.1, started, s.clock)
            && (out.1.Some? ==>
                  && token in s.tickets && out.1.value.connection == s.tickets[token].connection
                  && Admits(AccessOf(s, s.tickets[token].connection), Stamp(s.clock)))
  {
  }

  lemma RunKeepsRelay(s: State, step: Step)
    requires Inv(s) && (step.RunRedeem? || step.RunRenew? || step.StrayRedeem?)
    ensures Inv(Next(s, step))
  {
    hide Redeem, Renew, Answers, ValidFor, TicketOk;
    match step
    case StrayRedeem(g, t, id) => RedeemFacts(s, g, t, id, s.clock);
    case RunRedeem(r, id) =>
      if r in s.relays && s.relays[r].Redeeming? {
        assert RelayOk(s.relays[r], s.clock);
        RedeemFacts(s, s.relays[r].gateway, s.relays[r].token, id, s.relays[r].started);
      }
    case RunRenew(r) =>
      if r in s.relays && s.relays[r].Running? && s.relays[r].renewal.Asked? {
        assert RelayOk(s.relays[r], s.clock);
        RenewFacts(s, s.relays[r].gateway, s.relays[r].token, s.relays[r].grant.tunnel, s.relays[r].renewal.started);
      }
  }

  lemma RelayKeepsInv(s: State, step: Step)
    requires Inv(s)
    requires step.Serve? || step.TakeRedeem? || step.AskRenew? || step.TakeRenew? || step.Stop? || step.SetAccess?
    ensures Inv(Next(s, step))
  {
    hide Answers, ValidFor, TicketOk;
  }

  lemma CarryKeepsInv(s: State, r: RelayId)
    requires Inv(s)
    ensures Inv(Next(s, Carry(r)))
  {
    hide ValidFor, TicketOk;
    if r in s.relays && s.relays[r].Running? {
      var k := s.relays[r];
      assert RelayOk(k, s.clock);
      DeadlineBounds(k.grant, k.started, s.clock);
    }
  }

  lemma TicketKeepsInv(s: State, step: Step)
    requires Inv(s) && (step.Mint? || step.RunClose?)
    ensures Inv(Next(s, step))
  {
    hide Answers, ValidFor, RelayOk;
    match step
    case Mint(t, c, g, p) =>
      if Minted(c, g, p, AccessOf(s, c), s.clock).Some? {
        MintIsWellFormed(c, g, p, AccessOf(s, c), s.clock);
      }
    case RunClose(g, t) =>
      if t in s.tickets && s.tickets[t].tunnel.Some? {
        assert TicketOk(s.tickets[t], s.clock);
      }
  }

  lemma StepKeepsInv(s: State, step: Step)
    requires Inv(s)
    ensures Inv(Next(s, step))
  {
    hide Inv;
    match step
    case Tick(d) => TickKeepsInv(s, d);
    case RunRedeem(_, _) => RunKeepsRelay(s, step);
    case StrayRedeem(_, _, _) => RunKeepsRelay(s, step);
    case RunRenew(_) => RunKeepsRelay(s, step);
    case Carry(r) => CarryKeepsInv(s, r);
    case Mint(_, _, _, _) => TicketKeepsInv(s, step);
    case RunClose(_, _) => TicketKeepsInv(s, step);
    case _ => RelayKeepsInv(s, step);
  }

  lemma {:induction false} RunKeepsInv(s: State, steps: seq<Step>)
    requires Inv(s)
    ensures Inv(Run(s, steps))
  {
    hide Inv, Next;
    if steps != [] {
      RunKeepsInv(s, steps[..|steps| - 1]);
      StepKeepsInv(Run(s, steps[..|steps| - 1]), steps[|steps| - 1]);
    }
  }

  // Tickets over whole runs ------------------------------------------------------------------------

  lemma StepKeepsTicket(s: State, step: Step, t: Token)
    requires t in s.tickets && TicketsOk(s)
    ensures var u := Next(s, step);
            t in u.tickets && GuardAllows(s.tickets[t], u.tickets[t]) && s.clock <= u.clock
            && (Over(s.tickets[t], s.clock) ==> Over(u.tickets[t], u.clock))
  {
    var k := s.tickets[t];
    var u := Next(s, step);
    if Over(k, s.clock) {
      StampFacts(s.clock, u.clock);
    }
  }

  /**
   Over every run: a ticket's authority never changes, it is redeemed at most once, its lease never
   passes the session deadline fixed when it was minted, and a tunnel that lapsed or closed stays over.
   */
  lemma {:induction false} TicketsAreForever(s: State, steps: seq<Step>, t: Token)
    requires Inv(s) && t in s.tickets
    ensures var u := Run(s, steps);
            && t in u.tickets && GuardAllows(s.tickets[t], u.tickets[t]) && RedeemedOnce(u) && s.clock <= u.clock
            && (u.tickets[t].tunnel.Some? ==> u.tickets[t].tunnel.value.lease <= s.tickets[t].session)
            && (Over(s.tickets[t], s.clock) ==> Over(u.tickets[t], u.clock))
  {
    hide Next, GuardAllows, Over;
    RunKeepsInv(s, steps);
    if steps == [] {
      GuardFacts(s.tickets[t], s.tickets[t], s.tickets[t]);
      assert TicketOk(s.tickets[t], s.clock);
    } else {
      var before := Run(s, steps[..|steps| - 1]);
      TicketsAreForever(s, steps[..|steps| - 1], t);
      RunKeepsInv(s, steps[..|steps| - 1]);
      StepKeepsTicket(before, steps[|steps| - 1], t);
      GuardFacts(s.tickets[t], before.tickets[t], Run(s, steps).tickets[t]);
      GuardFacts(s.tickets[t], Run(s, steps).tickets[t], Run(s, steps).tickets[t]);
      assert TicketOk(Run(s, steps).tickets[t], Run(s, steps).clock);
    }
  }

  lemma GuardFacts(a: Ticket, b: Ticket, c: Ticket)
    ensures GuardAllows(a, a)
    ensures GuardAllows(a, b) && GuardAllows(b, c) ==> GuardAllows(a, c)
    ensures GuardAllows(a, b) ==> b.session == a.session
  {
  }

  // Traffic after access is withdrawn ----------------------------------------------------------------

  /** The connection has no access now. */
  predicate Ineligible(s: State, c: ConnectionId) { !Admits(AccessOf(s, c), Stamp(s.clock)) }

  predicate CappedReply(g: Option<Grant>, started: nat, c: ConnectionId, bound: nat) {
    g.Some? && g.value.connection == c && ValidFor(g.value).Some? ==> started + ValidFor(g.value).value <= bound
  }

  predicate CappedRelay(k: Relay, c: ConnectionId, bound: nat) {
    match k
    case Replied(_, _, started, reply) => CappedReply(reply, started, c, bound)
    case Running(_, _, grant, _, deadline, renewal) =>
      && (grant.connection == c ==> deadline <= bound)
      && (renewal.Answered? ==> CappedReply(renewal.reply, renewal.started, c, bound))
    case _ => true
  }

  /** No relay holds, or is about to be told, a deadline beyond `bound` for the connection. */
  ghost predicate Capped(s: State, c: ConnectionId, bound: nat) {
    forall r :: r in s.relays ==> CappedRelay(s.relays[r], c, bound)
  }

  lemma AlwaysCapped(s: State, c: ConnectionId)
    requires Inv(s)
    ensures Capped(s, c, s.clock + WINDOW)
  {
  }

  lemma StepKeepsCapped(s: State, step: Step, c: ConnectionId, bound: nat)
    requires Inv(s) && Capped(s, c, bound) && Ineligible(s, c)
    ensures Capped(Next(s, step), c, bound)
    ensures !(step.SetAccess? && step.connection == c) ==> Ineligible(Next(s, step), c)
  {
    hide Redeem, Renew, ValidFor, TicketOk;
    match step
    case Tick(d) => StampFacts(s.clock, s.clock + d);
    case StrayRedeem(g, t, id) => RedeemFacts(s, g, t, id, s.clock);
    case RunRedeem(r, id) =>
      if r in s.relays && s.relays[r].Redeeming? {
        assert RelayOk(s.relays[r], s.clock);
        RedeemFacts(s, s.relays[r].gateway, s.relays[r].token, id, s.relays[r].started);
      }
    case RunRenew(r) =>
      if r in s.relays && s.relays[r].Running? && s.relays[r].renewal.Asked? {
        assert RelayOk(s.relays[r], s.clock);
        RenewFacts(s, s.relays[r].gateway, s.relays[r].token, s.relays[r].grant.tunnel, s.relays[r].renewal.started);
      }
    case _ =>
  }

  /** No statement of the run reads the connection's access as granted. */
  ghost predicate StaysOut(s: State, steps: seq<Step>, c: ConnectionId) {
    forall n :: 0 <= n < |steps| ==> Ineligible(Run(s, steps[..n]), c)
  }

  lemma {:induction false} RunKeepsCapped(s: State, steps: seq<Step>, c: ConnectionId)
    requires Inv(s) && StaysOut(s, steps, c)
    ensures Capped(Run(s, steps), c, s.clock + WINDOW)
    ensures |s.bytes| <= |Run(s, steps).bytes|
    ensures forall i :: |s.bytes| <= i < |Run(s, steps).bytes| && Run(s, steps).bytes[i].connection == c ==>
              Run(s, steps).bytes[i].at < s.clock + WINDOW
  {
    hide Next, Inv, Capped, Ineligible;
    if steps == [] {
      AlwaysCapped(s, c);
    } else {
      var init, last := steps[..|steps| - 1], steps[|steps| - 1];
      assert forall n :: 0 <= n < |init| ==> init[..n] == steps[..n];
      RunKeepsCapped(s, init, c);
      RunKeepsInv(s, init);
      StepKeepsCapped(Run(s, init), last, c, s.clock + WINDOW);
      StepAddsBytes(Run(s, init), last, c, s.clock + WINDOW);
    }
  }

  /** A connection without access that no decision touches stays out, whatever time it is given. */
  lemma {:induction false} UntouchedStaysOut(s: State, steps: seq<Step>, c: ConnectionId)
    requires Inv(s) && Ineligible(s, c)
    requires forall i :: 0 <= i < |steps| ==> !(steps[i].SetAccess? && steps[i].connection == c)
    ensures StaysOut(s, steps, c) && Ineligible(Run(s, steps), c)
  {
    hide Next, Inv, Capped, Ineligible;
    if steps != [] {
      var init, last := steps[..|steps| - 1], steps[|steps| - 1];
      assert forall n :: 0 <= n < |init| ==> init[..n] == steps[..n];
      UntouchedStaysOut(s, init, c);
      RunKeepsInv(s, init);
      AlwaysCapped(Run(s, init), c);
      StepKeepsCapped(Run(s, init), last, c, Run(s, init).clock + WINDOW);
    }
  }

  lemma StepAddsBytes(s: State, step: Step, c: ConnectionId, bound: nat)
    requires Capped(s, c, bound)
    ensures var u := Next(s, step);
            && |s.bytes| <= |u.bytes| <= |s.bytes| + 1 && u.bytes[..|s.bytes|] == s.bytes
            && (|u.bytes| > |s.bytes| && u.bytes[|s.bytes|].connection == c ==> u.bytes[|s.bytes|].at < bound)
  {
    hide ValidFor;
  }

  /**
   The five-second promise.  While a connection has no access, whatever is decided about it meanwhile,
   no relay carries a byte for it five seconds later or after, however long any request or reply was
   under way.
   */
  lemma WithdrawnAccessStopsTraffic(clock: nat, past: seq<Step>, future: seq<Step>, c: ConnectionId, i: nat)
    requires var s := Run(Start(clock), past);
             StaysOut(s, future, c) && |s.bytes| <= i < |Run(s, future).bytes|
    ensures var s := Run(Start(clock), past);
            Run(s, future).bytes[i].connection == c ==> Run(s, future).bytes[i].at < s.clock + 5 * SECOND
  {
    RunKeepsInv(Start(clock), past);
    RunKeepsCapped(Run(Start(clock), past), future, c);
  }

  /** Every byte ever carried crossed before the lease of the grant it rode on ended, up to one database stamp. */
  lemma BytesWithinLease(clock: nat, steps: seq<Step>, i: nat)
    requires i < |Run(Start(clock), steps).bytes|
    ensures var b := Run(Start(clock), steps).bytes[i]; b.at < b.grant.lease + MICROSECOND
  {
    RunKeepsInv(Start(clock), steps);
  }
}
