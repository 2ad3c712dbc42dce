/**
 One Agent's session row, the Guest behind it and any number of handlers working on both.  A login
 generation is reserved by a compare-and-swap on the row, only on the strength of an inspection
 that shows the account empty, and dispatched at most once.
 */
module AgentLogin {
  import opened Common
  import opened AgentFence

  datatype SessionState = Provisioning | Ready | Closing | Disabled_

  datatype Session = Session(
    lease: LeaseId, epoch: nat, generation: nat, login: nat, uid: Option<nat>, state: SessionState,
    expires: nat) // nanoseconds

  datatype Lease = Lease(epoch: nat, active: bool, expires: nat)

  type HandlerId = nat

  /** A handler's copy of the row, its last inspection, an undispatched reservation, a confirmed closure. */
  datatype Handler = Handler(row: Session, seen: Option<Observation>, reserved: bool, closed: bool)

  datatype System = System(
    row: Option<Session>,
    leases: map<LeaseId, Lease>,
    guest: Guest,
    net: set<Request>,
    handlers: map<HandlerId, Handler>,
    reservations: seq<Request>, // every login generation ever reserved, in order
    sent: seq<Request>)         // every login command ever dispatched, in order

  /** `agentAccountLease` as a login command. */
  function LoginOf(r: Session): Request
    requires r.uid.Some?
  {
    Request(r.uid.value, r.lease, r.epoch, r.login, r.expires / SECOND, false)
  }

  /** The revocation of a session; a session that never logged in is closed at generation one. */
  function StopOf(r: Session, uid: nat): Request {
    Request(uid, r.lease, r.epoch, if r.login == 0 then 1 else r.login, 0, true)
  }

  /** The inspection shows an account without process and login writer, left by exactly this row's login. */
  predicate Empty(o: Observation, r: Session) {
    && !o.processes && !o.writers
    && if r.login == 0 then o.disabled && (o.lifecycle.None? || o.lifecycle.value.epoch < r.epoch)
       else
         && o.lifecycle == Some(Fence(r.lease, r.epoch, r.login, r.expires / SECOND, Sealed))
         && !o.disabled && o.expiryDay == Some(ShadowDay(r.expires / SECOND))
  }

  /** ... and bound to the pinned identity. */
  predicate Vacant(o: Observation, r: Session) { r.uid.Some? && o.uid == r.uid && Empty(o, r) }

  /** The lease still authorizes the row, judged by a transaction that started at `t`. */
  predicate Authorized(s: System, r: Session, t: int) {
    && r.lease in s.leases && s.leases[r.lease].active && s.leases[r.lease].epoch == r.epoch
    && s.leases[r.lease].expires > t
  }

  predicate Live(r: Session) { r.state == Provisioning || r.state == Ready }

  /** The columns every compare-and-swap names. */
  predicate SameLogin(a: Session, b: Session) {
    a.lease == b.lease && a.epoch == b.epoch && a.generation == b.generation && a.login == b.login
  }

  datatype Step =
    | OpenLease(lease: LeaseId, epoch: nat, expires: nat)
    | EndLease(lease: LeaseId)
    | BeginSession(lease: LeaseId, start: int)
    | Read(handler: HandlerId)
    | Inspect(handler: HandlerId)
    | Bind(handler: HandlerId, start: int)
    | BindRevoking(handler: HandlerId)
    | Reserve(handler: HandlerId, start: int, clock: nat)
    | Dispatch(handler: HandlerId)
    | MarkReady(handler: HandlerId, start: int)
    | Stop(handler: HandlerId)
    | ConfirmStop(handler: HandlerId)
    | CompleteRevocation(handler: HandlerId)
    | Drop(handler: HandlerId)
    | AtGuest(step: GuestStep)

  function Close(s: System, l: LeaseId): System {
    if l !in s.leases || !s.leases[l].active then s
    else
      var t := s.(leases := s.leases[l := s.leases[l].(active := false)]);
      if s.row.Some? && s.row.value.lease == l && Live(s.row.value)
      then t.(row := Some(s.row.value.(state := Closing))) else t
  }

  /** `BeginAgentGuestSession`; the row guard lets a new lease in only after cleanup and with a higher epoch. */
  function Begin(s: System, l: LeaseId, t: int): System {
    if l !in s.leases || !s.leases[l].active || s.leases[l].expires <= t then s
    else if s.row.None?
    then s.(row := Some(Session(l, s.leases[l].epoch, 1, 0, None, Provisioning, s.leases[l].expires)))
    else if s.row.value.state == Disabled_ && s.leases[l].epoch > s.row.value.epoch then
      var r := s.row.value;
      s.(row := Some(Session(l, s.leases[l].epoch, r.generation + 1, 0, r.uid, Provisioning, s.leases[l].expires)))
    else s
  }

  /** `BindAgentGuestAccount` and its cleanup variant: the identity is pinned once. */
  function Pin(s: System, h: HandlerId, admitted: bool): System {
    if h !in s.handlers || s.row.None? || !admitted then s
    else
      var k, r := s.handlers[h], s.row.value;
      if k.reserved || k.seen.None? || k.seen.value.uid.None? || !SameLogin(r, k.row)
         || !(r.uid.None? || r.uid == k.seen.value.uid)
      then s
      else
        var bound := r.(uid := k.seen.value.uid);
        s.(row := Some(bound), handlers := s.handlers[h := k.(row := k.row.(uid := k.seen.value.uid))])
  }

  /** `BeginAgentGuestLogin`, reached only with a vacant account. */
  function ReserveLogin(s: System, h: HandlerId, t: int, clock: nat): System {
    if h !in s.handlers || s.row.None? then s
    else
      var k, r := s.handlers[h], s.row.value;
      if k.reserved || k.seen.None? || !Vacant(k.seen.value, k.row)
         || (k.row.login > 0 && k.row.expires / SECOND <= clock)
         || r.login >= MAX_INT64 || !SameLogin(r, k.row) || r.uid != k.row.uid || !Live(r) || !Authorized(s, r, t)
      then s
      else
        var next := r.(login := r.login + 1, state := Provisioning);
        s.(row := Some(next), handlers := s.handlers[h := Handler(next, None, true, false)],
           reservations := s.reservations + [LoginOf(next)])
  }

  /** `StopAgentSession`: close the exact login; a bare account only if the Guest saw nothing newer. */
  function SendStop(s: System, h: HandlerId): System {
    if h !in s.handlers then s
    else
      var k := s.handlers[h];
      if k.row.state != Closing || k.row.uid.None? || k.seen.None? then s
      else
        var q := StopOf(k.row, k.row.uid.value);
        var f := k.seen.value.lifecycle;
        if k.row.login == 0 && f.Some? && f.value.epoch >= k.row.epoch && f.value != CompletedFence(q) then s
        else s.(net := s.net + {q})
  }

  predicate Stopped(o: Observation, r: Session) {
    && r.uid.Some? && o.uid == r.uid && o.disabled && !o.processes && !o.writers
    && o.lifecycle == Some(CompletedFence(StopOf(r, r.uid.value)))
  }

  /** `CompleteAgentGuestSessionRevocation`: after a confirmed closure, or for an account that never existed. */
  function Complete(s: System, h: HandlerId): System {
    if h !in s.handlers || s.row.None? then s
    else
      var k, r := s.handlers[h], s.row.value;
      var absent := k.seen.Some? && k.seen.value.uid.None? && k.row.login == 0 && k.row.uid.None?;
      if SameLogin(r, k.row) && r.uid == k.row.uid && r.state == Closing && (k.closed || absent)
      then s.(row := Some(r.(state := Disabled_))) else s
  }

  function Next(s: System, step: Step): System {
    match step
    case OpenLease(l, e, x) => if l in s.leases then s else s.(leases := s.leases[l := Lease(e, true, x)])
    case EndLease(l) => Close(s, l)
    case BeginSession(l, t) => Begin(s, l, t)
    case Read(h) => if s.row.Some? then s.(handlers := s.handlers[h := Handler(s.row.value, None, false, false)]) else s
    case Inspect(h) =>
      if h in s.handlers && s.guest.job.None?
      then s.(handlers := s.handlers[h := s.handlers[h].(seen := Some(Observe(s.guest)))]) else s
    case Bind(h, t) => Pin(s, h, s.row.Some? && Live(s.row.value) && Authorized(s, s.row.value, t))
    case BindRevoking(h) => Pin(s, h, s.row.Some? && s.row.value.state == Closing)
    case Reserve(h, t, clock) => ReserveLogin(s, h, t, clock)
    case Dispatch(h) =>
      if h in s.handlers && s.handlers[h].reserved && s.handlers[h].row.uid.Some? then
        var q := LoginOf(s.handlers[h].row);
        s.(net := s.net + {q}, sent := s.sent + [q], handlers := s.handlers[h := s.handlers[h].(reserved := false)])
      else s
    case MarkReady(h, t) =>
      if h in s.handlers && s.row.Some? && SameLogin(s.row.value, s.handlers[h].row)
         && s.row.value.uid == s.handlers[h].row.uid
         && s.row.value.login >= 1 && Live(s.row.value) && Authorized(s, s.row.value, t)
      then s.(row := Some(s.row.value.(state := Ready))) else s
    case Stop(h) => SendStop(s, h)
    case ConfirmStop(h) =>
      if h in s.handlers && s.guest.job.None? && Stopped(Observe(s.guest), s.handlers[h].row)
      then s.(handlers := s.handlers[h := s.handlers[h].(closed := true)]) else s
    case CompleteRevocation(h) => Complete(s, h)
    case Drop(h) => s.(handlers := s.handlers - {h})
    case AtGuest(g) =>
      if g.Accept? && g.request !in s.net then s else s.(guest := GuestNext(s.guest, g))
  }

  function Start(clock: nat): System {
    System(None, map[], Guest(None, None, false, None, false, false, false, None, clock), {}, map[], [], [])
  }

  function Run(s: System, steps: seq<Step>): System {
    if steps == [] then s else Next(Run(s, steps[..|steps| - 1]), steps[|steps| - 1])
  }

  // Invariants ------------------------------------------------------------------------------------

  /** Login generations are ordered by epoch, then by generation. */
  predicate Before(e: nat, l: nat, e': nat, l': nat) { e < e' || (e == e' && l < l') }

  ghost predicate Increasing(s: System) {
    && (forall i, j :: 0 <= i < j < |s.reservations| ==>
          Before(s.reservations[i].epoch, s.reservations[i].login, s.reservations[j].epoch, s.reservations[j].login))
    && (forall q :: q in s.reservations ==>
          && !q.stop && q.login >= 1 && s.row.Some? && !Before(s.row.value.epoch, s.row.value.login, q.epoch, q.login))
  }

  /** No copy of the row is ahead of it. */
  ghost predicate CopiesBehind(s: System) {
    forall h :: h in s.handlers ==>
      s.row.Some? && !Before(s.row.value.epoch, s.row.value.login, s.handlers[h].row.epoch, s.handlers[h].row.login)
  }

  ghost predicate AllSpent(s: System) { forall q :: q in s.reservations ==> Spent(s.guest, q) }

  /** What earlier leases reserved can never be taken up again. */
  ghost predicate PastSpent(s: System) {
    forall q ::
      q in s.reservations && s.row.Some? && (q.epoch < s.row.value.epoch || s.row.value.state == Disabled_) ==>
      Spent(s.guest, q)
  }

  /** At most one reservation can still be taken up, and until then the account is quiet. */
  ghost predicate OneOutstanding(s: System) {
    && (forall q :: q in s.reservations ==> Spent(s.guest, q) || Quiet(s.guest))
    && (forall q, p :: q in s.reservations && p in s.reservations && q != p ==> Spent(s.guest, q) || Spent(s.guest, p))
  }

  /** An inspection a reservation could still rest on is still true. */
  ghost predicate SightingsHold(s: System) {
    forall h :: h in s.handlers && s.handlers[h].seen.Some? && Empty(s.handlers[h].seen.value, s.handlers[h].row)
                && s.row.Some? && s.row.value.epoch == s.handlers[h].row.epoch
                && s.row.value.login == s.handlers[h].row.login ==>
      Quiet(s.guest) && AllSpent(s)
  }

  ghost predicate Rights(s: System) {
    && (forall q :: q in s.net && !q.stop ==> q in s.sent)
    && (forall q :: q in s.sent ==> q in s.reservations)
    && (forall i, j :: 0 <= i < j < |s.sent| ==> s.sent[i] != s.sent[j])
    && (forall h :: h in s.handlers && s.handlers[h].reserved ==>
          && s.handlers[h].row.uid.Some? && LoginOf(s.handlers[h].row) in s.reservations
          && LoginOf(s.handlers[h].row) !in s.sent)
    && (forall h, k ::
          h in s.handlers && k in s.handlers && h != k && s.handlers[h].reserved && s.handlers[k].reserved ==>
          LoginOf(s.handlers[h].row) != LoginOf(s.handlers[k].row))
  }

  ghost predicate ClosuresHold(s: System) {
    forall h :: h in s.handlers && s.handlers[h].closed ==> RevokedFrom(s.guest, s.handlers[h].row.epoch)
  }

  /** A live session is backed by its lease. */
  ghost predicate LeaseKnown(s: System) {
    s.row.Some? ==>
      && s.row.value.lease in s.leases && s.leases[s.row.value.lease].epoch == s.row.value.epoch
      && (Live(s.row.value) <==> s.leases[s.row.value.lease].active)
  }

  ghost predicate Core(s: System) {
    && GuestInv(s.guest) && LeaseKnown(s) && Increasing(s) && CopiesBehind(s) && PastSpent(s) && OneOutstanding(s)
    && SightingsHold(s) && Rights(s) && ClosuresHold(s)
  }

  // Preservation ----------------------------------------------------------------------------------

  lemma InspectionHolds(s: System, h: HandlerId)
    requires Core(s) && h in s.handlers && s.guest.job.None? && s.row.Some?
    requires s.row.value.epoch == s.handlers[h].row.epoch && s.row.value.login == s.handlers[h].row.login
    requires Empty(Observe(s.guest), s.handlers[h].row)
    ensures Quiet(s.guest) && AllSpent(s)
  {
  }

  lemma InspectKeepsCore(s: System, h: HandlerId)
    requires Core(s)
    ensures Core(Next(s, Inspect(h)))
  {
    hide Spent, Quiet, Empty, GuestInv, RevokedFrom;
    var t := Next(s, Inspect(h));
    forall k | k in t.handlers && t.handlers[k].seen.Some? && Empty(t.handlers[k].seen.value, t.handlers[k].row)
               && t.row.Some? && t.row.value.epoch == t.handlers[k].row.epoch
               && t.row.value.login == t.handlers[k].row.login
      ensures Quiet(t.guest) && AllSpent(t)
    {
      if k == h && t != s {
        InspectionHolds(s, h);
      }
    }
  }

  lemma GuestKeepsCore(s: System, g: GuestStep)
    requires Core(s)
    ensures Core(Next(s, AtGuest(g)))
  {
    hide GuestNext, GuestInv, Spent, Quiet, Empty, RevokedFrom, TakesLogin;
    var t := Next(s, AtGuest(g));
    if t != s {
      GuestStepKeepsInv(s.guest, g);
      forall q | q in s.reservations && Spent(s.guest, q) ensures Spent(t.guest, q) { SpentForGood(s.guest, g, q); }
      forall h | h in s.handlers && s.handlers[h].closed ensures RevokedFrom(t.guest, s.handlers[h].row.epoch) {
        RevocationLasts(s.guest, g, s.handlers[h].row.epoch);
      }
      if TakesLogin(s.guest, g) {
        TakenIsReserved(s, g);
        TakenLoginIsSpent(s.guest, g);
      } else if Quiet(s.guest) {
        QuietLasts(s.guest, g);
      }
    }
  }

  lemma TakenIsReserved(s: System, g: GuestStep)
    requires Rights(s) && TakesLogin(s.guest, g) && Next(s, AtGuest(g)) != s
    ensures g.request in s.reservations
  {
  }

  lemma ReservedIsNew(s: System, q: Request)
    requires Increasing(s) && s.row.Some? && q.epoch == s.row.value.epoch && q.login == s.row.value.login + 1
    ensures q !in s.reservations
  {
  }

  lemma ReserveKeepsCore(s: System, h: HandlerId, t: int, clock: nat)
    requires Core(s)
    ensures Core(Next(s, Reserve(h, t, clock)))
  {
    hide GuestInv, Quiet, Empty, RevokedFrom, Spent;
    var u := Next(s, Reserve(h, t, clock));
    if u != s {
      assert Quiet(s.guest) && AllSpent(s);
      ReservedIsNew(s, LoginOf(u.row.value));
      assert Increasing(u);
      assert OneOutstanding(u);
      assert PastSpent(u);
      assert SightingsHold(u);
      assert Rights(u);
    }
  }

  lemma CompleteKeepsCore(s: System, h: HandlerId)
    requires Core(s)
    ensures Core(Next(s, CompleteRevocation(h)))
  {
    hide GuestInv, Quiet, Empty;
  }

  lemma ReadKeepsCore(s: System, h: HandlerId)
    requires Core(s)
    ensures Core(Next(s, Read(h)))
  {
    hide GuestInv, Quiet, Empty, Spent, RevokedFrom;
  }

  lemma DispatchKeepsCore(s: System, h: HandlerId)
    requires Core(s)
    ensures Core(Next(s, Dispatch(h)))
  {
    hide GuestInv, Quiet, Empty, Spent, RevokedFrom;
  }

  lemma StopKeepsCore(s: System, step: Step)
    requires Core(s) && (step.Stop? || step.Drop?)
    ensures Core(Next(s, step))
  {
    hide GuestInv, Quiet, Empty, Spent, RevokedFrom;
  }

  lemma ConfirmKeepsCore(s: System, h: HandlerId)
    requires Core(s)
    ensures Core(Next(s, ConfirmStop(h)))
  {
    hide GuestInv, Quiet, Empty, Spent;
  }

  lemma LeaseKeepsCore(s: System, step: Step)
    requires Core(s)
    requires step.OpenLease? || step.EndLease?
    ensures Core(Next(s, step))
  {
    hide GuestInv, Quiet, Empty, Spent, RevokedFrom;
  }

  lemma BeginKeepsCore(s: System, l: LeaseId, t: int)
    requires Core(s)
    ensures Core(Next(s, BeginSession(l, t)))
  {
    hide GuestInv, Quiet, Empty, Spent, RevokedFrom;
  }

  lemma ReadyKeepsCore(s: System, h: HandlerId, t: int)
    requires Core(s)
    ensures Core(Next(s, MarkReady(h, t)))
  {
    hide GuestInv, Quiet, Empty, Spent, RevokedFrom;
  }

  lemma PinKeepsCore(s: System, h: HandlerId, admitted: bool)
    requires Core(s)
    ensures Core(Pin(s, h, admitted))
  {
    hide GuestInv, Quiet, Spent, RevokedFrom;
  }

  lemma StepKeepsCore(s: System, step: Step)
    requires Core(s)
    ensures Core(Next(s, step))
  {
    hide Core;
    match step
    case Inspect(h) => InspectKeepsCore(s, h);
    case AtGuest(g) => GuestKeepsCore(s, g);
    case Reserve(h, t, clock) => ReserveKeepsCore(s, h, t, clock);
    case CompleteRevocation(h) => CompleteKeepsCore(s, h);
    case Bind(h, t) => PinKeepsCore(s, h, s.row.Some? && Live(s.row.value) && Authorized(s, s.row.value, t));
    case BindRevoking(h) => PinKeepsCore(s, h, s.row.Some? && s.row.value.state == Closing);
    case Read(h) => ReadKeepsCore(s, h);
    case Dispatch(h) => DispatchKeepsCore(s, h);
    case Drop(_) => StopKeepsCore(s, step);
    case Stop(_) => StopKeepsCore(s, step);
    case ConfirmStop(h) => ConfirmKeepsCore(s, h);
    case BeginSession(l, t) => BeginKeepsCore(s, l, t);
    case MarkReady(h, t) => ReadyKeepsCore(s, h, t);
    case _ => LeaseKeepsCore(s, step);
  }

  /**
   Nothing of the account runs before the first reservation, after a confirmed closure, or once the
   session is disabled.
   */
  ghost predicate Emptied(s: System) {
    && (s.reservations == [] ==> Quiet(s.guest))
    && (s.row.Some? && s.row.value.uid.None? ==> s.reservations == [])
    && (s.row.Some? && s.row.value.state == Disabled_ ==> Quiet(s.guest))
    && (forall h ::
          h in s.handlers && s.handlers[h].closed && s.row.Some? && s.row.value.epoch == s.handlers[h].row.epoch ==>
          Quiet(s.guest))
  }

  ghost predicate Inv(s: System) { Core(s) && Emptied(s) }

  /** A closed handler at the row's epoch, or a disabled row, leaves no reservation the Guest could take up. */
  lemma NothingToTake(s: System, g: GuestStep)
    requires Inv(s) && Next(s, AtGuest(g)) != s && TakesLogin(s.guest, g)
    ensures s.reservations != [] && (s.row.Some? ==> s.row.value.state != Disabled_)
    ensures forall h :: h in s.handlers && s.handlers[h].closed && s.row.Some? ==>
              s.row.value.epoch != s.handlers[h].row.epoch
  {
    TakenIsReserved(s, g);
    TakenLoginIsSpent(s.guest, g);
  }

  lemma GuestKeepsEmptied(s: System, g: GuestStep)
    requires Inv(s)
    ensures Emptied(Next(s, AtGuest(g)))
  {
    hide GuestNext, Quiet, TakesLogin, Core;
    if Next(s, AtGuest(g)) != s {
      if TakesLogin(s.guest, g) {
        NothingToTake(s, g);
      } else if Quiet(s.guest) {
        assert GuestInv(s.guest) by { CoreGuest(s); }
        QuietLasts(s.guest, g);
      }
    }
  }

  lemma CoreGuest(s: System)
    requires Core(s)
    ensures GuestInv(s.guest)
  {
  }

  lemma ConfirmKeepsEmptied(s: System, h: HandlerId)
    requires Inv(s)
    ensures Emptied(Next(s, ConfirmStop(h)))
  {
    hide Core;
  }

  lemma OthersKeepEmptied(s: System, step: Step)
    requires Inv(s) && !step.AtGuest? && !step.ConfirmStop?
    ensures Emptied(Next(s, step))
  {
    hide Quiet, Core, Empty, Authorized;
    CoreFacts(s);
  }

  lemma CoreFacts(s: System)
    requires Core(s)
    ensures forall h :: h in s.handlers ==> s.row.Some? && s.handlers[h].row.epoch <= s.row.value.epoch
    ensures s.row.None? ==> s.reservations == []
  {
    if s.reservations != [] {
      assert s.reservations[0] in s.reservations;
    }
  }

  /** Nothing left to take up, and nothing running. */
  lemma InvEmpty(s: System)
    requires Inv(s) && (s.row.None? || s.row.value.state == Disabled_)
    ensures Quiet(s.guest) && AllSpent(s)
  {
    hide Quiet, Spent;
    CoreFacts(s);
  }

  lemma StepKeepsInv(s: System, step: Step)
    requires Inv(s)
    ensures Inv(Next(s, step))
  {
    hide Core, Emptied, Next;
    StepKeepsCore(s, step);
    match step
    case AtGuest(g) => GuestKeepsEmptied(s, g);
    case ConfirmStop(h) => ConfirmKeepsEmptied(s, h);
    case _ => OthersKeepEmptied(s, step);
  }

  lemma {:induction false} RunKeepsInv(s: System, steps: seq<Step>)
    requires Inv(s)
    ensures Inv(Run(s, steps))
  {
    hide Inv, Next;
    if steps != [] {
      RunKeepsInv(s, steps[..|steps| - 1]);
      StepKeepsInv(Run(s, steps[..|steps| - 1]), steps[|steps| - 1]);
    }
  }

  // What holds of every run -----------------------------------------------------------------------

  lemma StartKeepsInv(clock: nat)
    ensures Inv(Start(clock))
  {
  }

  /** Each login generation of each lease epoch is dispatched at most once, whatever the handlers do. */
  lemma LoginSentAtMostOnce(clock: nat, steps: seq<Step>, i: nat, j: nat)
    requires i < j < |Run(Start(clock), steps).sent|
    ensures var sent := Run(Start(clock), steps).sent; (sent[i].epoch, sent[i].login) != (sent[j].epoch, sent[j].login)
  {
    StartKeepsInv(clock);
    RunKeepsInv(Start(clock), steps);
    var s := Run(Start(clock), steps);
    assert s.sent[i] in s.reservations && s.sent[j] in s.reservations;
  }

  /** A reservation is made only while the account is empty and every earlier one is spent. */
  lemma ReservationRestsOnVacancy(clock: nat, steps: seq<Step>, h: HandlerId, t: int, now: nat)
    requires Next(Run(Start(clock), steps), Reserve(h, t, now)) != Run(Start(clock), steps)
    ensures Quiet(Run(Start(clock), steps).guest) && AllSpent(Run(Start(clock), steps))
  {
    StartKeepsInv(clock);
    RunKeepsInv(Start(clock), steps);
  }

  /** A login the Guest takes up, however late, never meets a running process, a pending login or a usable password. */
  lemma LoginNeverDisturbs(clock: nat, steps: seq<Step>, g: GuestStep)
    requires var s := Run(Start(clock), steps); TakesLogin(s.guest, g) && g.request in s.net
    ensures Quiet(Run(Start(clock), steps).guest)
  {
    StartKeepsInv(clock);
    RunKeepsInv(Start(clock), steps);
    var s := Run(Start(clock), steps);
    TakenLoginIsSpent(s.guest, g);
    assert g.request in s.sent;
  }

  /** The row guard of the schema (session and instance ids left out). */
  predicate GuardAllows(a: Session, b: Session) {
    if b.lease == a.lease then
      && b.epoch == a.epoch && b.generation == a.generation && a.login <= b.login <= a.login + 1
      && (b.login > a.login ==> Live(a) && b.state == Provisioning && b.uid.Some?)
    else
      && a.state == Disabled_ && b.state == Provisioning && b.login == 0
      && b.epoch > a.epoch && b.generation == a.generation + 1
  }

  /** No statement ever runs into the row guard, and the pinned identity never changes. */
  lemma StepsPassGuard(s: System, step: Step)
    requires Inv(s) && s.row.Some?
    ensures Next(s, step).row.Some? && GuardAllows(s.row.value, Next(s, step).row.value)
    ensures s.row.value.uid.Some? ==> Next(s, step).row.value.uid == s.row.value.uid
  {
    hide Increasing, CopiesBehind, PastSpent, OneOutstanding, SightingsHold, Rights, ClosuresHold, GuestInv;
  }

  /**
   In every run, an Agent without a session or with a disabled one has nothing running and nothing that
   could start.
   */
  lemma DisabledMeansEmpty(clock: nat, steps: seq<Step>)
    requires var s := Run(Start(clock), steps); s.row.None? || s.row.value.state == Disabled_
    ensures Quiet(Run(Start(clock), steps).guest) && AllSpent(Run(Start(clock), steps))
  {
    hide Inv, Quiet, AllSpent;
    StartKeepsInv(clock);
    RunKeepsInv(Start(clock), steps);
    InvEmpty(Run(Start(clock), steps));
  }
}
