/**
 The handler that prepares an Agent's session under the desktop lock.  Between any two of its calls
 the Guest moves on by itself and leases end; every outcome of a call is a parameter.
 */
module AgentController {
  import opened Common
  import opened AgentFence
  import opened AgentLogin

  predicate IsBackground(step: Step) { step.AtGuest? || step.EndLease? || step.OpenLease? }

  predicate Background(steps: seq<Step>) { forall i :: 0 <= i < |steps| ==> IsBackground(steps[i]) }

  /**
   One poll: whether the deadline has passed, the clock, whether the pause ran out, whether the
   inspection came back.
   */
  datatype Poll = Poll(expired: bool, clock: nat, waited: bool, noise: seq<Step>, inspected: bool)

  datatype Exit = Gone | Unavailable | TimedOut

  /** The inspection still shows this sealed login, with no process of it left. */
  predicate Lingering(o: Observation, r: Session, clock: nat) {
    && r.uid.Some? && o.uid == r.uid && !o.processes && r.expires / SECOND > clock
    && o.lifecycle == Some(Fence(r.lease, r.epoch, r.login, r.expires / SECOND, Sealed))
    && !o.disabled && o.expiryDay == Some(ShadowDay(r.expires / SECOND))
  }

  /** The outcome of every call of one preparation, and what happens before it. */
  datatype Script = Script(
    begin: Commit, start: int,
    provisioned: bool, uid: nat, bind: Commit, bindStart: int,
    policyApplied: bool, leaseStillActive: bool, inspected: bool,
    discovered: bool, polls: seq<Poll>,
    reserve: Commit, reserveStart: int, clock: nat, started: bool, confirmed: bool,
    targetMatches: bool, ready: Commit, readyStart: int, activated: bool,
    cleanup: Commit, noise: seq<seq<Step>>)

  function NoiseAt(noise: seq<seq<Step>>, i: nat): seq<Step> { if i < |noise| then noise[i] else [] }

  predicate Quieted(k: Script) {
    && (forall i :: 0 <= i < |k.noise| ==> Background(k.noise[i]))
    && (forall i :: 0 <= i < |k.polls| ==> Background(k.polls[i].noise))
  }

  /** The same login of the same account; at most its lease ended. */
  predicate Undisturbed(a: Session, b: Session) {
    SameLogin(a, b) && b.uid == a.uid && (b.state == a.state || (Live(a) && b.state == Closing))
  }

  /** What the background leaves alone. */
  ghost predicate Kept(a: System, b: System) {
    && b.sent == a.sent && b.reservations == a.reservations && b.handlers.Keys == a.handlers.Keys
    && (a.row.Some? <==> b.row.Some?)
    && (a.row.Some? ==> Undisturbed(a.row.value, b.row.value))
    && (forall l :: l in a.leases && !a.leases[l].active ==> l in b.leases && !b.leases[l].active)
  }

  lemma BackgroundKeeps(s: System, step: Step)
    requires IsBackground(step)
    ensures Kept(s, Next(s, step)) && Next(s, step).handlers == s.handlers
  {
  }

  lemma InspectFacts(s: System, h: HandlerId)
    requires h in s.handlers
    ensures Next(s, Inspect(h)) ==
              if s.guest.job.None?
              then s.(handlers := s.handlers[h := s.handlers[h].(seen := Some(Observe(s.guest)))])
              else s
  {
  }

  lemma LingeringWithoutWriters(o: Observation, r: Session, clock: nat)
    requires r.login > 0 && Lingering(o, r, clock) && !o.writers
    ensures Vacant(o, r) && r.expires / SECOND > clock
  {
  }

  class Controller {
    var s: System

    method Interfere(steps: seq<Step>)
      requires Inv(s) && Background(steps)
      modifies this
      ensures Inv(s) && Kept(old(s), s) && s.handlers == old(s).handlers
    {
      hide Next, Inv;
      for i := 0 to |steps|
        invariant Inv(s) && Kept(old(s), s) && s.handlers == old(s).handlers
      {
        StepKeepsInv(s, steps[i]);
        BackgroundKeeps(s, steps[i]);
        s := Next(s, steps[i]);
      }
    }

    /** An inspection under the account gate; a busy gate or a lost reply is a failure. */
    method Look(h: HandlerId, noise: seq<Step>, replied: bool) returns (ok: bool)
      requires Inv(s) && h in s.handlers && Background(noise)
      modifies this
      ensures Inv(s) && Kept(old(s), s) && h in s.handlers && s.handlers[h].row == old(s).handlers[h].row
      ensures s.handlers[h].reserved == old(s).handlers[h].reserved
      ensures if ok
              then s.guest.job.None? && s.handlers[h].seen == Some(Observe(s.guest))
              else s.handlers == old(s).handlers
    {
      hide Next, Inv;
      Interfere(noise);
      if !replied || s.guest.job.Some? {
        return false;
      }
      StepKeepsInv(s, Inspect(h));
      InspectFacts(s, h);
      s := Next(s, Inspect(h));
      return true;
    }

    /** `awaitAgentLoginExit`. */
    method AwaitLoginExit(h: HandlerId, polls: seq<Poll>) returns (result: Exit, clock: nat)
      requires Inv(s) && h in s.handlers && s.handlers[h].seen.Some? && s.handlers[h].row.login > 0
      requires forall i :: 0 <= i < |polls| ==> Background(polls[i].noise)
      modifies this
      ensures Inv(s) && Kept(old(s), s) && h in s.handlers && s.handlers[h].row == old(s).handlers[h].row
      ensures s.handlers[h].reserved == old(s).handlers[h].reserved
      ensures s.handlers[h].seen.Some?
      ensures result == Gone ==>
                Lingering(s.handlers[h].seen.value, s.handlers[h].row, clock) && !s.handlers[h].seen.value.writers
      ensures result == Unavailable ==> !Lingering(s.handlers[h].seen.value, s.handlers[h].row, clock)
    {
      hide Next, Inv, Kept, Lingering;
      KeptSelf(s);
      clock := 0;
      for i := 0 to |polls|
        invariant Inv(s) && Kept(old(s), s) && h in s.handlers && s.handlers[h].row == old(s).handlers[h].row
        invariant s.handlers[h].reserved == old(s).handlers[h].reserved
        invariant s.handlers[h].seen.Some?
      {
        if polls[i].expired {
          return TimedOut, clock;
        }
        clock := polls[i].clock;
        if !Lingering(s.handlers[h].seen.value, s.handlers[h].row, clock) {
          return Unavailable, clock;
        }
        if !s.handlers[h].seen.value.writers {
          return Gone, clock;
        }
        if !polls[i].waited {
          return TimedOut, clock;
        }
        ghost var was := s;
        var ok := Look(h, polls[i].noise, polls[i].inspected);
        KeptTransitive(old(s), was, s);
        if !ok {
          return TimedOut, clock;
        }
      }
      return TimedOut, clock;
    }

    /** The identity is pinned from an inspection before any login credential exists. */
    method BindIdentity(h: HandlerId, k: Script) returns (ok: bool, binding: Session)
      requires Working(s, h) && Quieted(k)
      modifies this
      ensures s.sent == old(s).sent && s.reservations == old(s).reservations && Held(s, h, old(s).handlers[h].row)
      ensures SameLogin(binding, old(s).handlers[h].row) && SameLogin(binding, s.row.value)
      ensures ok ==> Working(s, h) && s.handlers[h].row == binding
    {
      hide Next, Inv, Kept;
      binding := s.handlers[h].row;
      KeptFacts(s, s);
      ghost var was := s;
      Interfere(NoiseAt(k.noise, 0));
      KeptFacts(was, s);
      StepKeepsInv(s, AtGuest(Provision(k.uid)));
      BackgroundKeeps(s, AtGuest(Provision(k.uid)));
      KeptFacts(s, Next(s, AtGuest(Provision(k.uid))));
      s := Next(s, AtGuest(Provision(k.uid)));
      was := s;
      ok := Look(h, NoiseAt(k.noise, 1), k.provisioned);
      KeptFacts(was, s);
      if !ok || s.handlers[h].seen.value.uid.None? || k.bind == Refused {
        return false, binding;
      }
      StepKeepsInv(s, Bind(h, k.bindStart));
      BindFacts(s, h, k.bindStart);
      s := Next(s, Bind(h, k.bindStart));
      if s.handlers[h].row.uid != s.handlers[h].seen.value.uid || k.bind == Unknown {
        return false, binding;
      }
      return true, s.handlers[h].row;
    }

    /** Reserve the next login generation, dispatch it once, and read back the sealed login. */
    method StartLogin(h: HandlerId, k: Script, clock: nat) returns (ok: bool, binding: Session)
      requires Working(s, h) && Quieted(k) && s.handlers[h].seen.Some?
      requires Vacant(s.handlers[h].seen.value, s.handlers[h].row)
      modifies this
      ensures Held(s, h, old(s).handlers[h].row)
      ensures s.sent == old(s).sent || SentNext(old(s).sent, s.sent, old(s).handlers[h].row)
      ensures SameLogin(binding, s.row.value) <==> !(k.reserve == Unknown && s.reservations != old(s).reservations)
      ensures ok ==> Working(s, h) && s.handlers[h].row == binding && binding.login == old(s).handlers[h].row.login + 1
      ensures ok ==>
                s.sent != old(s).sent && binding.uid.Some? && s.guest.fence == Some(CompletedFence(LoginOf(binding)))
    {
      hide Next, Inv, Kept, Vacant;
      binding := s.handlers[h].row;
      ghost var was := s;
      Interfere(NoiseAt(k.noise, 5));
      KeptFacts(was, s);
      if k.reserve == Refused {
        return false, binding;
      }
      was := s;
      StepKeepsInv(s, Reserve(h, k.reserveStart, clock));
      ReserveFacts(s, h, k.reserveStart, clock);
      s := Next(s, Reserve(h, k.reserveStart, clock));
      if !s.handlers[h].reserved || k.reserve == Unknown {
        return false, binding;
      }
      binding := s.handlers[h].row;
      StepKeepsInv(s, Dispatch(h));
      DispatchFacts(s, h);
      s := Next(s, Dispatch(h));
      was := s;
      Interfere(NoiseAt(k.noise, 6));
      KeptFacts(was, s);
      if !k.started {
        return false, binding;
      }
      was := s;
      ok := Look(h, NoiseAt(k.noise, 7), k.confirmed);
      KeptFacts(was, s);
      if !ok {
        return false, binding;
      }
      var o := s.handlers[h].seen.value;
      if o.uid != binding.uid || o.lifecycle != Some(CompletedFence(LoginOf(binding))) || o.disabled {
        return false, binding;
      }
    }

    /** Everything between the begun session and its readiness. */
    method Bootstrap(h: HandlerId, k: Script) returns (ok: bool, binding: Session)
      requires Working(s, h) && Quieted(k)
      modifies this
      ensures Held(s, h, old(s).handlers[h].row)
      ensures s.sent == old(s).sent || SentNext(old(s).sent, s.sent, old(s).handlers[h].row)
      ensures SameLogin(binding, s.row.value) <==> !(k.reserve == Unknown && s.reservations != old(s).reservations)
      ensures ok ==>
                SameLogin(binding, s.row.value) && binding.login > 0 && Live(s.row.value) && s.row.value.state == Ready
    {
      hide Next, Inv, Kept, Vacant, Lingering, Authorized;
      binding := s.handlers[h].row;
      ghost var first := s.handlers[h].row;
      KeptFacts(s, s);
      if binding.state != Ready {
        ok, binding := BindIdentity(h, k);
        if !ok {
          return false, binding;
        }
      }
      ghost var was := s;
      Interfere(NoiseAt(k.noise, 2));
      KeptFacts(was, s);
      if !k.policyApplied || !k.leaseStillActive {
        return false, binding;
      }
      was := s;
      ok := Look(h, NoiseAt(k.noise, 3), k.inspected);
      KeptFacts(was, s);
      if !ok || s.handlers[h].seen.value.uid != binding.uid || binding.uid.None? {
        return false, binding;
      }
      var o := s.handlers[h].seen.value;
      if binding.login == 0 {
        if !Vacant(o, binding) {
          return false, binding;
        }
        ok, binding := StartLogin(h, k, k.clock);
        if !ok {
          return false, binding;
        }
      } else {
        if o.lifecycle != Some(CompletedFence(LoginOf(binding))) || o.disabled
           || o.expiryDay != Some(ShadowDay(binding.expires / SECOND)) {
          return false, binding;
        }
        if !k.discovered {
          was := s;
          var exit, clock := AwaitLoginExit(h, k.polls);
          KeptFacts(was, s);
          if exit != Gone {
            return false, binding;
          }
          LingeringWithoutWriters(s.handlers[h].seen.value, binding, clock);
          ok, binding := StartLogin(h, k, clock);
          if !ok {
            return false, binding;
          }
        }
      }
      if !k.targetMatches || k.ready == Refused {
        return false, binding;
      }
      StepKeepsInv(s, MarkReady(h, k.readyStart));
      ReadyFacts(s, h, k.readyStart);
      s := Next(s, MarkReady(h, k.readyStart));
      if s.row.value.state != Ready || k.ready == Unknown {
        return false, binding;
      }
      return true, binding;
    }

    /**
     `revokeAgentGuestSessions` for one session on its way out.  Once it is acknowledged, nothing of
     the Agent runs and no login ever reserved for it can still be taken up by the Guest.
     */
    method Revoke(h: HandlerId, noise: seq<seq<Step>>, inspected: bool, bind: Commit, answered: bool,
        confirmed: bool, complete: Commit)
      returns (ok: bool)
      requires Inv(s) && h !in s.handlers && s.row.Some? && s.row.value.state == Closing
      requires forall i :: 0 <= i < |noise| ==> Background(noise[i])
      modifies this
      ensures Inv(s) && s.sent == old(s).sent
      ensures ok ==> s.row.Some? && s.row.value.state == Disabled_ && AllSpent(s) && Quiet(s.guest)
    {
      hide Next, Inv, Kept, AllSpent, Quiet;
      StepKeepsInv(s, Read(h));
      ReadFacts(s, h);
      s := Next(s, Read(h));
      ghost var was := s;
      ok := Look(h, NoiseAt(noise, 0), inspected);
      KeptFacts(was, s);
      if !ok {
        return false;
      }
      if s.handlers[h].seen.value.uid.Some? {
        if bind == Refused {
          return false;
        }
        StepKeepsInv(s, BindRevoking(h));
        RevokingFacts(s, h);
        BindRevokingFacts(s, h);
        s := Next(s, BindRevoking(h));
        if bind == Unknown {
          return false;
        }
        StepKeepsInv(s, Stop(h));
        RevokingFacts(s, h);
        s := Next(s, Stop(h));
        was := s;
        Interfere(NoiseAt(noise, 1));
        KeptFacts(was, s);
        if !answered || !confirmed {
          return false;
        }
        StepKeepsInv(s, ConfirmStop(h));
        RevokingFacts(s, h);
        s := Next(s, ConfirmStop(h));
      }
      if complete == Refused {
        return false;
      }
      CompleteFacts(s, h);
      StepKeepsInv(s, CompleteRevocation(h));
      s := Next(s, CompleteRevocation(h));
      if complete == Unknown || s.row.value.state != Disabled_ {
        return false;
      }
      InvEmpty(s);
      return true;
    }

    /**
     `prepareAgentGuestSession` with its deferred cleanup.  When it fails and the cleanup is stored, a
     live session of the lease is left behind in exactly three cases: the session was not begun and a
     live one was there before; it was begun unseen, before any cleanup is owed; or a login was
     reserved unseen, so that the cleanup names the generation before, while the lease is active.
     */
    method Prepare(h: HandlerId, l: LeaseId, k: Script) returns (ok: bool)
      requires Inv(s) && h !in s.handlers && Quieted(k)
      modifies this
      ensures Inv(s)
      ensures s.sent == old(s).sent || (|s.sent| == |old(s).sent| + 1 && old(s).sent == s.sent[..|old(s).sent|])
      ensures ok ==>
                s.row.Some? && s.row.value.lease == l && s.row.value.login > 0 && s.row.value.state in {Ready, Closing}
      ensures !ok && k.cleanup != Refused ==>
                (LiveOf(s, l) <==>
                  if k.begin == Refused || !Begins(old(s), l, k.start) then LiveOf(old(s), l)
                  else if k.begin == Unknown then true
                  else
                    && k.reserve == Unknown && s.reservations != old(s).reservations
                    && l in s.leases && s.leases[l].active)
    {
      hide Next, Inv, Kept;
      if k.begin == Refused || !Begins(s, l, k.start) {
        return false;
      }
      StepKeepsInv(s, BeginSession(l, k.start));
      BeginFacts(s, l, k.start);
      s := Next(s, BeginSession(l, k.start));
      if k.begin == Unknown {
        return false;
      }
      StepKeepsInv(s, Read(h));
      ReadFacts(s, h);
      s := Next(s, Read(h));
      var prepared, binding := Bootstrap(h, k);
      ghost var was := s;
      Interfere(NoiseAt(k.noise, 8));
      KeptFacts(was, s);
      if prepared && k.activated {
        return true;
      }
      LiveMeansActive(s);
      if k.cleanup != Refused && SameLogin(s.row.value, binding) && Live(s.row.value) {
        StepKeepsInv(s, EndLease(l));
        EndFacts(s, l);
        s := Next(s, EndLease(l));
      }
      return false;
    }
  }

  predicate LiveOf(s: System, l: LeaseId) { s.row.Some? && s.row.value.lease == l && Live(s.row.value) }

  /** The transaction begins a session of the lease or finds it live. */
  predicate Begins(s: System, l: LeaseId, t: int) {
    && l in s.leases && s.leases[l].active && s.leases[l].expires > t
    && (s.row.None? || LiveOf(s, l) || (s.row.value.state == Disabled_ && s.leases[l].epoch > s.row.value.epoch))
  }

  lemma LiveMeansActive(s: System)
    requires Inv(s) && s.row.Some?
    ensures s.row.value.lease in s.leases && (Live(s.row.value) <==> s.leases[s.row.value.lease].active)
  {
  }

  lemma RevokingFacts(s: System, h: HandlerId)
    requires h in s.handlers && s.row.Some? && !s.handlers[h].reserved
    ensures var u := Next(s, BindRevoking(h)); u.sent == s.sent && u.row.Some? && h in u.handlers
    ensures Next(s, Stop(h)).sent == s.sent && Next(s, Stop(h)).row == s.row && Next(s, Stop(h)).handlers == s.handlers
    ensures var u := Next(s, ConfirmStop(h)); u.sent == s.sent && u.row == s.row && h in u.handlers
    ensures var u := Next(s, CompleteRevocation(h)); u.sent == s.sent && u.row.Some?
  {
  }

  lemma BindRevokingFacts(s: System, h: HandlerId)
    requires h in s.handlers && !s.handlers[h].reserved
    ensures h in Next(s, BindRevoking(h)).handlers && !Next(s, BindRevoking(h)).handlers[h].reserved
  {
  }

  lemma CompleteFacts(s: System, h: HandlerId)
    requires s.row.Some?
    ensures Next(s, CompleteRevocation(h)).sent == s.sent && Next(s, CompleteRevocation(h)).row.Some?
  {
  }

  lemma ReadyFacts(s: System, h: HandlerId, t: int)
    requires Working(s, h)
    ensures var u := Next(s, MarkReady(h, t));
            && u.sent == s.sent && u.reservations == s.reservations && u.handlers == s.handlers
            && u.row.Some? && SameLogin(u.row.value, s.row.value)
            && (u.row.value.state == Ready && s.row.value.state != Ready ==> u.row.value.login > 0)
  {
  }

  lemma BeginFacts(s: System, l: LeaseId, t: int)
    ensures var u := Next(s, BeginSession(l, t));
            u.sent == s.sent && u.reservations == s.reservations && u.handlers == s.handlers
    ensures Begins(s, l, t) ==> LiveOf(Next(s, BeginSession(l, t)), l)
  {
  }

  lemma ReadFacts(s: System, h: HandlerId)
    requires s.row.Some?
    ensures var u := Next(s, Read(h));
            && u.sent == s.sent && u.reservations == s.reservations && u.row == s.row && h in u.handlers
            && u.handlers[h] == Handler(s.row.value, None, false, false)
  {
  }

  lemma EndFacts(s: System, l: LeaseId)
    requires Inv(s) && s.row.Some? && s.row.value.lease == l && Live(s.row.value)
    ensures Next(s, EndLease(l)).sent == s.sent && Next(s, EndLease(l)).reservations == s.reservations
    ensures Next(s, EndLease(l)).row == Some(s.row.value.(state := Closing))
  {
  }

  /** The handler holds a current copy of the row and no undispatched reservation. */
  ghost predicate Working(s: System, h: HandlerId) {
    && Inv(s) && h in s.handlers && !s.handlers[h].reserved && s.row.Some?
    && SameLogin(s.row.value, s.handlers[h].row) && s.row.value.uid == s.handlers[h].row.uid
  }

  /** Exactly one more login was dispatched: the generation after the one in `r`. */
  predicate SentNext(before: seq<Request>, after: seq<Request>, r: Session) {
    && |after| == |before| + 1 && before == after[..|before|]
    && var q := after[|before|]; q.lease == r.lease && q.epoch == r.epoch && q.login == r.login + 1
  }

  /** The row still belongs to the lease it was read with. */
  ghost predicate Held(s: System, h: HandlerId, r: Session) {
    && Inv(s) && h in s.handlers && s.row.Some?
    && s.row.value.lease == r.lease && s.row.value.epoch == r.epoch && s.row.value.generation == r.generation
  }

  lemma KeptFacts(a: System, b: System)
    ensures Kept(a, a)
    ensures Kept(a, b) && a.row.Some? ==>
              && b.row.Some? && Undisturbed(a.row.value, b.row.value) && b.sent == a.sent
              && b.reservations == a.reservations
  {
  }

  lemma BindFacts(s: System, h: HandlerId, t: int)
    requires h in s.handlers && s.handlers[h].seen.Some? && s.row.Some? && !s.handlers[h].reserved
    ensures var u := Next(s, Bind(h, t));
            && u.sent == s.sent && u.reservations == s.reservations && h in u.handlers
            && u.handlers[h].seen == s.handlers[h].seen && !u.handlers[h].reserved
            && u.row.Some? && SameLogin(u.row.value, s.row.value) && SameLogin(u.handlers[h].row, s.handlers[h].row)
            && (s.row.value.uid == s.handlers[h].row.uid ==> u.row.value.uid == u.handlers[h].row.uid)
  {
  }

  lemma ReserveFacts(s: System, h: HandlerId, t: int, clock: nat)
    requires h in s.handlers && s.row.Some? && !s.handlers[h].reserved
    ensures var u := Next(s, Reserve(h, t, clock));
            && u.sent == s.sent && h in u.handlers && u.row.Some?
            && if u.handlers[h].reserved
               then u.row == Some(s.row.value.(login := s.row.value.login + 1, state := Provisioning))
                     && u.handlers[h].row == u.row.value && u.row.value.uid.Some?
                    && |u.reservations| == |s.reservations| + 1
               else u == s
  {
  }

  lemma DispatchFacts(s: System, h: HandlerId)
    requires h in s.handlers && s.handlers[h].reserved && s.handlers[h].row.uid.Some?
    ensures var u := Next(s, Dispatch(h));
            && u.row == s.row && u.reservations == s.reservations && u.sent == s.sent + [LoginOf(s.handlers[h].row)]
            && h in u.handlers && u.handlers[h] == s.handlers[h].(reserved := false)
  {
  }

  lemma KeptSelf(a: System)
    ensures Kept(a, a)
  {
  }

  lemma KeptTransitive(a: System, b: System, c: System)
    requires Kept(a, b) && Kept(b, c)
    ensures Kept(a, c) && (a.row.Some? <==> c.row.Some?) && (a.row.Some? <==> b.row.Some?)
  {
  }

  // The two ways a live session stays behind -------------------------------------------------------

  lemma RunOneMore(s: System, steps: seq<Step>, step: Step)
    ensures Run(s, steps + [step]) == Next(Run(s, steps), step)
  {
    hide Next;
    assert (steps + [step])[..|steps|] == steps;
  }

  /** A lease opened, its session begun, the account provisioned and the row read by a handler. */
  const READ_STEPS: seq<Step> := [OpenLease(1, 1, 10 * SECOND), BeginSession(1, 0), AtGuest(Provision(1000)), Read(1)]

  const BEGUN_ROW := Session(1, 1, 1, 0, None, Provisioning, 10 * SECOND)
  const LEASES := map[1 := Lease(1, true, 10 * SECOND)]
  const EMPTY_GUEST := Guest(Some(1000), None, false, Some(1), false, false, false, None, 0)
  const READ :=
    System(Some(BEGUN_ROW), LEASES, EMPTY_GUEST, {}, map[1 := Handler(BEGUN_ROW, None, false, false)], [], [])

  /** ... then inspected, bound and inspected again. */
  const BOUND_STEPS: seq<Step> := READ_STEPS + [Inspect(1)] + [Bind(1, 0)] + [Inspect(1)]

  const BOUND_ROW := BEGUN_ROW.(uid := Some(1000))
  const BOUND :=
    System(Some(BOUND_ROW), LEASES, EMPTY_GUEST, {},
           map[1 := Handler(BOUND_ROW, Some(Observe(EMPTY_GUEST)), false, false)], [], [])

  lemma BegunIsReachable()
    ensures Run(Start(0), READ_STEPS[..2]) == System(Some(BEGUN_ROW), LEASES, Start(0).guest, {}, map[], [], [])
  {
    var x := READ_STEPS;
    RunOneMore(Start(0), [], x[0]);
    RunOneMore(Start(0), [x[0]], x[1]);
    assert [] + [x[0]] == [x[0]] && [x[0]] + [x[1]] == x[..2];
    assert Run(Start(0), []) == Start(0);
    assert Next(Start(0), x[0]).leases == LEASES;
  }

  lemma ReadIsReachable()
    ensures Run(Start(0), READ_STEPS) == READ
  {
    var x := READ_STEPS;
    BegunIsReachable();
    RunOneMore(Start(0), x[..2], x[2]);
    RunOneMore(Start(0), x[..3], x[3]);
    assert x[..2] + [x[2]] == x[..3] && x[..3] + [x[3]] == x;
  }

  lemma BoundIsReachable()
    ensures Run(Start(0), BOUND_STEPS) == BOUND
  {
    ReadIsReachable();
    RunOneMore(Start(0), READ_STEPS, Inspect(1));
    RunOneMore(Start(0), READ_STEPS + [Inspect(1)], Bind(1, 0));
    RunOneMore(Start(0), READ_STEPS + [Inspect(1)] + [Bind(1, 0)], Inspect(1));
    var seen := Next(READ, Inspect(1));
    assert seen == READ.(handlers := map[1 := Handler(BEGUN_ROW, Some(Observe(EMPTY_GUEST)), false, false)]);
    assert Next(seen, Bind(1, 0)) == BOUND;
    assert Next(BOUND, Inspect(1)) == BOUND;
  }

  /**
   The login reservation commits and its outcome is lost: the row is live at the first generation,
   the handler still holds the row without a login, and the cleanup for that row matches nothing.
   */
  lemma UnseenReservationKeepsSession()
    ensures var s := Run(Start(0), BOUND_STEPS + [Reserve(1, 0, 0)]);
            && LiveOf(s, 1) && s.row.value.login == 1 && s.row.value.uid.Some?
            && s.reservations == [LoginOf(s.row.value)] && s.sent == []
            && Run(Start(0), BOUND_STEPS) == BOUND && !SameLogin(s.row.value, BOUND_ROW)
  {
    BoundIsReachable();
    RunOneMore(Start(0), BOUND_STEPS, Reserve(1, 0, 0));
  }

  /** The session is begun and the outcome is lost: it is live before any cleanup is owed. */
  lemma UnseenBeginKeepsSession()
    ensures LiveOf(Run(Start(0), [OpenLease(1, 1, 10 * SECOND), BeginSession(1, 0)]), 1)
  {
    BegunIsReachable();
    assert READ_STEPS[..2] == [OpenLease(1, 1, 10 * SECOND), BeginSession(1, 0)];
  }
}
