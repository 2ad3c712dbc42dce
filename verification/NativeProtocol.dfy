/**
 The credential protocol of one account as a transition system: the database row, the Guest, and
 a network that may lose, delay, reorder and repeat commands.  A command once sent stays
 deliverable for ever.  Nothing here relies on the desktop lock: any number of handlers may hold
 snapshots of any age, and the database and Guest clocks are unrelated.
 */
module NativeProtocol {
  import opened Common
  import opened NativeAccount
  import opened GuestFence

  /** `nativeCredential` together with the operation to send. */
  function CommandOf(a: Row): Request {
    Request(a.identity, a.connection, a.revision, if a.expires.Some? then a.expires.value else 0, a.operation)
  }

  datatype World = World(
    row: Row,
    guest: Guest,
    net: set<Request>,            // commands sent and possibly still to be delivered
    rights: set<Request>,         // issue and retire commands a handler made durable and has not sent yet
    acks: set<Request>,           // commands whose exact outcome some handler has observed
    sent: seq<Request>,           // every dispatch so far, in order
    intents: map<nat, Request>)   // the command each revision was made durable with

  function Start(id: Identity, clock: nat): World {
    World(Bound(id), Provisioned(id, clock), {}, {}, {}, [], map[])
  }

  datatype Step =
    | ReserveIssue(snapshot: Row, issuance: Issuance)
    | ReserveRetire(snapshot: Row, txNow: int)
    | ReserveRevoke(snapshot: Row, txNow: int)
    | Send(command: Request)
    | ForgetRights                                  // the handler process is gone
    | Confirm(command: Request, now: nat)           // an inspection shows the exact outcome
    | Acknowledge(snapshot: Row, txNow: int, eligible: bool)
    | AtGuest(step: GuestStep)

  function Record(w: World, r: Row, right: set<Request>): World {
    w.(row := r, rights := w.rights + right, intents := w.intents[r.revision := CommandOf(r)])
  }

  predicate Durable(w: World, q: Request) { q.revision in w.intents && w.intents[q.revision] == q }

  /** The convergence check after a command: the exact fence, and closed or retained as the operation asks. */
  predicate Converged(o: Observation, q: Request, now: nat) {
    Matches(o, q, CompletedPhase(q.operation)) && (if q.operation == Revoke then Closed(o) else Retained(o, now))
  }

  function Next(w: World, s: Step): World {
    match s
    case ReserveIssue(a, q) =>
      (var r := BeginIssue(w.row, a, q); if r.None? then w else Record(w, r.value, {CommandOf(r.value)}))
    case ReserveRetire(a, t) =>
      (var r := BeginRetire(w.row, a, t); if r.None? then w else Record(w, r.value, {CommandOf(r.value)}))
    case ReserveRevoke(a, t) =>
      (var r := BeginRevoke(w.row, a, t); if r.None? then w else Record(w, r.value, {}))
    case Send(q) =>
      if q.operation == Revoke && Durable(w, q) then w.(net := w.net + {q}, sent := w.sent + [q])
      else if q in w.rights then w.(net := w.net + {q}, sent := w.sent + [q], rights := w.rights - {q})
      else w
    case ForgetRights => w.(rights := {})
    case Confirm(q, now) =>
      var o := Observe(w.guest);
      if o.Some? && Durable(w, q) && Converged(o.value, q, now) then w.(acks := w.acks + {q}) else w
    case Acknowledge(a, t, eligible) =>
      (var r := Complete(w.row, a, t, eligible); if CommandOf(a) in w.acks && r.Some? then w.(row := r.value) else w)
    case AtGuest(g) =>
      if g.Accept? && g.request !in w.net then w else w.(guest := GuestNext(w.guest, g))
  }

  function Run(w: World, steps: seq<Step>): World {
    if steps == [] then w else Next(Run(w, steps[..|steps| - 1]), steps[|steps| - 1])
  }

  /** The Guest has carried out `q`, or has closed itself at that revision since. */
  predicate CarriedOut(g: Guest, q: Request) {
    && g.fence.Some? && LeftBy(g.fence.value, q)
    && (g.fence.value.phase == CompletedPhase(q.operation) || g.fence.value.phase == Revoked)
    && (q.operation == Revoke ==> Shut(g))
    && (g.job.Some? ==> g.job.value.request == q)
  }

  /** The inductive invariant. */
  ghost predicate Safe(w: World) {
    && WellFormed(w.row) && GuestInv(w.guest) && w.guest.identity == w.row.identity
    // every command that exists was made durable no later than the current row
    && (forall q :: q in w.net + w.rights + w.acks ==> q.revision <= w.row.revision)
    && (forall k :: k in w.intents ==> 0 < k <= w.row.revision && w.intents[k].revision == k)
    && (w.row.revision > 0 ==> Durable(w, CommandOf(w.row)))
    // a command of the current revision that the Guest could still take up is the current intent
    && (forall q :: q in w.net + w.rights && q.revision == w.row.revision ==>
          q == CommandOf(w.row) || (w.row.operation == Revoke && FenceRevision(w.guest) == w.row.revision))
    && FenceRevision(w.guest) <= w.row.revision
    && (w.guest.fence.Some? && FenceRevision(w.guest) == w.row.revision ==>
          LeftBy(w.guest.fence.value, CommandOf(w.row)))
    && (w.guest.job.Some? && FenceRevision(w.guest) == w.row.revision ==> w.guest.job.value.request == CommandOf(w.row))
    // evidence for the current intent stays true, and an applied row has it
    && (w.row.revision > 0 && (CommandOf(w.row) in w.acks || w.row.state == Applied) ==>
          CarriedOut(w.guest, CommandOf(w.row)))
    // before the first credential the account is as it was provisioned
    && (w.row.revision == 0 ==> w.guest.fence.None? && Shut(w.guest))
  }

  lemma StartIsSafe(id: Identity, clock: nat)
    requires ValidIdentity(id)
    ensures Safe(Start(id, clock))
  {
  }

  lemma ReserveKeepsSafe(w: World, s: Step)
    requires Safe(w) && (s.ReserveIssue? || s.ReserveRetire? || s.ReserveRevoke?)
    ensures Safe(Next(w, s))
  {
  }

  lemma HandlerKeepsSafe(w: World, s: Step)
    requires Safe(w) && (s.Send? || s.ForgetRights? || s.Confirm? || s.Acknowledge?)
    ensures Safe(Next(w, s))
  {
    var v := Next(w, s);
    assert CommandOf(v.row) == CommandOf(w.row);
    forall q | q in v.net + v.rights && q.revision == v.row.revision
      ensures q == CommandOf(v.row) || (v.row.operation == Revoke && FenceRevision(v.guest) == v.row.revision)
    {
      assert q in w.net + w.rights || (s.Send? && q == s.command && Durable(w, q));
    }
  }

  /** Evidence for the current intent survives whatever the Guest does. */
  lemma EvidenceLasts(w: World, s: GuestStep)
    requires Safe(w) && w.row.revision > 0 && CarriedOut(w.guest, CommandOf(w.row))
    ensures CarriedOut(Next(w, AtGuest(s)).guest, CommandOf(w.row))
  {
  }

  lemma GuestKeepsSafe(w: World, s: Step)
    requires Safe(w) && s.AtGuest?
    ensures Safe(Next(w, s))
  {
    hide CarriedOut;
    GuestStepKeepsInv(w.guest, s.step);
    GuestStepIsMonotone(w.guest, s.step);
    if w.row.revision > 0 && CarriedOut(w.guest, CommandOf(w.row)) {
      EvidenceLasts(w, s.step);
    }
  }

  lemma StepKeepsSafe(w: World, s: Step)
    requires Safe(w)
    ensures Safe(Next(w, s))
  {
    hide Safe, Next;
    match s
    case ReserveIssue(_, _) => ReserveKeepsSafe(w, s);
    case ReserveRetire(_, _) => ReserveKeepsSafe(w, s);
    case ReserveRevoke(_, _) => ReserveKeepsSafe(w, s);
    case AtGuest(_) => GuestKeepsSafe(w, s);
    case _ => HandlerKeepsSafe(w, s);
  }

  lemma {:induction false} RunKeepsSafe(w: World, steps: seq<Step>)
    requires Safe(w)
    ensures Safe(Run(w, steps))
  {
    hide Safe, Next;
    if steps != [] {
      RunKeepsSafe(w, steps[..|steps| - 1]);
      StepKeepsSafe(Run(w, steps[..|steps| - 1]), steps[|steps| - 1]);
    }
  }

  // Main results --------------------------------------------------------------------------------

  /**
   In every run an account at applied revoke has its Guest closed at exactly that revision and
   connection, with the login disabled and nothing of the account running; of the commands still
   under way the Guest refuses every one but that same revocation.
   */
  lemma AppliedRevokeIsClosed(id: Identity, clock: nat, steps: seq<Step>)
    requires ValidIdentity(id)
    ensures var w := Run(Start(id, clock), steps);
            w.row.state == Applied && w.row.operation == Revoke ==>
              && w.guest.fence == Some(CompletedFence(CommandOf(w.row))) && Shut(w.guest)
              && (forall q, now :: q in w.net && q != CommandOf(w.row) ==> PlanFor(w.guest.fence, q, now).None?)
  {
    hide PlanFor;
    StartIsSafe(id, clock);
    RunKeepsSafe(Start(id, clock), steps);
    var w := Run(Start(id, clock), steps);
    if w.row.state == Applied && w.row.operation == Revoke {
      forall q, now | q in w.net && q != CommandOf(w.row) ensures PlanFor(w.guest.fence, q, now).None? {
        OnlyItselfIsPlanned(w.guest.fence.value, CommandOf(w.row), q, now);
      }
    }
  }

  /** A completed revocation refuses every command that is not newer, except the very same one. */
  lemma OnlyItselfIsPlanned(f: Fence, done: Request, q: Request, now: nat)
    requires f == CompletedFence(done) && done.operation == Revoke && done.expires == 0
    requires q.revision <= done.revision && q != done
    ensures PlanFor(Some(f), q, now).None?
  {
  }

  predicate NoNewIssue(steps: seq<Step>) { forall i :: 0 <= i < |steps| ==> !steps[i].ReserveIssue? }

  /**
   Until a new issue is made durable nothing reopens it: whatever is delivered late, sent again,
   crashes, reconciles or is acknowledged, the row, the fence and the closure stay as they are.
   */
  lemma {:induction false} AppliedRevokeStaysClosed(w: World, later: seq<Step>)
    requires Safe(w) && w.row.state == Applied && w.row.operation == Revoke && NoNewIssue(later)
    ensures Run(w, later).row == w.row
    ensures Run(w, later).guest.fence == w.guest.fence == Some(CompletedFence(CommandOf(w.row)))
    ensures Shut(Run(w, later).guest)
  {
    if later != [] {
      var before := later[..|later| - 1];
      AppliedRevokeStaysClosed(w, before);
      RunKeepsSafe(w, before);
      StepKeepsSafe(Run(w, before), later[|later| - 1]);
    }
  }

  /** After an applied retirement no password that was ever issued can open the account. */
  lemma AppliedRetireEndsPasswords(id: Identity, clock: nat, steps: seq<Step>)
    requires ValidIdentity(id)
    ensures var w := Run(Start(id, clock), steps);
            w.row.state == Applied && w.row.operation == Retire ==>
              && w.guest.fence.Some? && w.guest.fence.value.revision == w.row.revision && !LoginPossible(w.guest)
              && (w.guest.fence.value.phase == Retired ==> w.guest.os.secret == None)
              && (w.guest.fence.value.phase != Retired ==> w.guest.fence.value.phase == Revoked)
  {
    StartIsSafe(id, clock);
    RunKeepsSafe(Start(id, clock), steps);
  }

  /**
   Whenever the Guest would admit a login, it does so with the password of its current revision
   alone, and the database holds that issue as its latest intent or has cleanup of it outstanding.
   */
  lemma LoginNeedsLiveIssue(id: Identity, clock: nat, steps: seq<Step>)
    requires ValidIdentity(id)
    ensures var w := Run(Start(id, clock), steps);
            LoginPossible(w.guest) ==>
              && w.guest.os.secret == Some(FenceRevision(w.guest))
              && FenceRevision(w.guest) <= w.row.revision
              && ((w.row.operation == Issue && FenceRevision(w.guest) == w.row.revision) || w.row.state == Pending)
  {
    StartIsSafe(id, clock);
    RunKeepsSafe(Start(id, clock), steps);
  }

  /** One step advances the revision by one or leaves it, and leaves the intent of an unchanged revision alone. */
  lemma StepAdvancesRevision(w: World, s: Step)
    requires Safe(w)
    ensures Next(w, s).row.identity == w.row.identity
    ensures w.row.revision <= Next(w, s).row.revision <= w.row.revision + 1
    ensures Next(w, s).row.revision == w.row.revision ==>
              && CommandOf(Next(w, s).row) == CommandOf(w.row)
              && (w.row.state == Applied ==> Next(w, s).row.state == Applied)
    ensures Next(w, s).row.revision > w.row.revision ==> Next(w, s).row.state == Pending
    ensures forall k :: k in w.intents ==> k in Next(w, s).intents && Next(w, s).intents[k] == w.intents[k]
  {
  }

  /** What was sent, and what may still be sent, was made durable under its own revision. */
  ghost predicate Traceable(w: World) {
    && (forall q :: q in w.rights ==> Durable(w, q) && q !in w.sent && q.operation in {Issue, Retire})
    && (forall i :: 0 <= i < |w.sent| ==> Durable(w, w.sent[i]))
    && (forall i, j :: 0 <= i < j < |w.sent| && w.sent[i].revision == w.sent[j].revision ==>
          w.sent[i].operation == Revoke)
  }

  lemma SendKeepsTraceable(w: World, q: Request)
    requires Traceable(w)
    ensures Traceable(Next(w, Send(q)))
  {
  }

  lemma StepKeepsTraceable(w: World, s: Step)
    requires Safe(w) && Traceable(w)
    ensures Traceable(Next(w, s))
  {
    if s.Send? {
      SendKeepsTraceable(w, s.command);
    } else {
      StepAdvancesRevision(w, s);
    }
  }

  lemma {:induction false} RunKeepsTraceable(w: World, steps: seq<Step>)
    requires Safe(w) && Traceable(w)
    ensures Traceable(Run(w, steps))
  {
    if steps != [] {
      var before := steps[..|steps| - 1];
      RunKeepsTraceable(w, before);
      RunKeepsSafe(w, before);
      StepKeepsTraceable(Run(w, before), steps[|steps| - 1]);
    }
  }

  /**
   In every run each issue and each retire revision is dispatched at most once; only a revoke is
   ever repeated, and then with the same revision, connection and identity.
   */
  lemma DispatchedAtMostOnce(id: Identity, clock: nat, steps: seq<Step>, i: nat, j: nat)
    requires ValidIdentity(id)
    requires i < j < |Run(Start(id, clock), steps).sent|
    ensures var sent := Run(Start(id, clock), steps).sent;
            sent[i].revision == sent[j].revision ==> sent[i] == sent[j] && sent[i].operation == Revoke
  {
    StartIsSafe(id, clock);
    RunKeepsTraceable(Start(id, clock), steps);
    var w := Run(Start(id, clock), steps);
    assert Durable(w, w.sent[i]) && Durable(w, w.sent[j]);
  }

  // An account that no issue can open ---------------------------------------------------------------

  /** The Guest is in no issue phase, and every issue command in existence is at or below its fence. */
  ghost predicate Cold(w: World) {
    && (w.guest.fence.Some? ==> w.guest.fence.value.phase != Issuing && w.guest.fence.value.phase != Issued)
    && (forall q :: q in w.net + w.rights && q.operation == Issue ==> q.revision <= FenceRevision(w.guest))
  }

  lemma SettledCleanupIsCold(w: World)
    requires Safe(w) && w.row.state == Applied && w.row.operation in {Retire, Revoke}
    ensures Cold(w)
  {
  }

  /** Only a new issue warms an account up. */
  lemma StepKeepsCold(w: World, s: Step)
    requires Safe(w) && Cold(w) && w.row.operation != Issue && (s.ReserveIssue? ==> Next(w, s) == w)
    ensures Cold(Next(w, s))
  {
    var v := Next(w, s);
    if s.AtGuest? {
      GuestStepIsMonotone(w.guest, s.step);
    }
    forall q | q in v.net + v.rights && q.operation == Issue ensures q.revision <= FenceRevision(v.guest) {
      assert q in w.net + w.rights;
    }
  }

  // Progress ------------------------------------------------------------------------------------

  lemma {:induction false} RunConcat(w: World, a: seq<Step>, b: seq<Step>)
    ensures Run(w, a + b) == Run(Run(w, a), b)
  {
    if b == [] {
      assert a + b == a;
    } else {
      RunConcat(w, a, b[..|b| - 1]);
      assert (a + b)[..|a + b| - 1] == a + b[..|b| - 1];
    }
  }

  lemma RunOne(w: World, s: Step)
    ensures Run(w, [s]) == Next(w, s)
  {
  }

  /** The schedule that carries a pending revocation through: send, run at the Guest, inspect, acknowledge. */
  function RevokeSchedule(r: Row): seq<Step> {
    [AtGuest(Crash), Send(CommandOf(r)), AtGuest(Accept(CommandOf(r))), AtGuest(Advance), AtGuest(Advance),
     AtGuest(Finish),
     Confirm(CommandOf(r), 0), Acknowledge(r, 0, false)]
  }

  lemma GuestLeg(w: World, q: Request)
    requires q in w.net
    ensures Next(Next(Next(Next(w, AtGuest(Accept(q))), AtGuest(Advance)), AtGuest(Advance)), AtGuest(Finish))
            == w.(guest := RunRevocation(w.guest, q))
  {
  }

  lemma DatabaseLeg(w: World)
    requires WellFormed(w.row) && w.row.state == Pending && w.row.operation == Revoke && Durable(w, CommandOf(w.row))
    requires w.guest.identity == w.row.identity && w.guest.fence == Some(CompletedFence(CommandOf(w.row)))
    requires w.guest.job.None? && Shut(w.guest)
    ensures Next(Next(w, Confirm(CommandOf(w.row), 0)), Acknowledge(w.row, 0, false)).row == w.row.(state := Applied)
  {
  }

  lemma SendLeg(w: World) returns (v: World)
    requires Safe(w) && w.row.state == Pending && w.row.operation == Revoke
    ensures v == Next(Next(w, AtGuest(Crash)), Send(CommandOf(w.row)))
    ensures v.row == w.row && CommandOf(w.row) in v.net && Durable(v, CommandOf(w.row))
    ensures GuestInv(v.guest) && v.guest.job.None? && v.guest.identity == w.row.identity
    ensures ValidRequest(CommandOf(w.row))
    ensures || CommandOf(w.row).revision > FenceRevision(v.guest)
            || v.guest.fence == Some(CompletedFence(CommandOf(w.row)))
  {
    StepKeepsSafe(w, AtGuest(Crash));
    v := Next(Next(w, AtGuest(Crash)), Send(CommandOf(w.row)));
  }

  lemma PendingRevokeCompletes(w: World)
    requires Safe(w) && w.row.state == Pending && w.row.operation == Revoke
    ensures Run(w, RevokeSchedule(w.row)).row == w.row.(state := Applied)
  {
    var q := CommandOf(w.row);
    Unroll8(w, RevokeSchedule(w.row));
    var v := SendLeg(w);
    RevocationCloses(v.guest, q);
    GuestLeg(v, q);
    DatabaseLeg(v.(guest := RunRevocation(v.guest, q)));
  }

  lemma Unroll8(w: World, s: seq<Step>)
    requires |s| == 8
    ensures var half := Next(Next(Next(Next(w, s[0]), s[1]), s[2]), s[3]);
            Run(w, s) == Next(Next(Next(Next(half, s[4]), s[5]), s[6]), s[7])
  {
    assert s[..7][..6] == s[..6] && s[..6][..5] == s[..5] && s[..5][..4] == s[..4];
    assert s[..4][..3] == s[..3] && s[..3][..2] == s[..2] && s[..2][..1] == s[..1] && s[..1][..0] == [];
    assert Run(w, s[..1]) == Next(w, s[0]);
    assert Run(w, s[..2]) == Next(Run(w, s[..1]), s[1]);
    assert Run(w, s[..3]) == Next(Run(w, s[..2]), s[2]);
    assert Run(w, s[..4]) == Next(Run(w, s[..3]), s[3]);
    assert Run(w, s[..5]) == Next(Run(w, s[..4]), s[4]);
    assert Run(w, s[..6]) == Next(Run(w, s[..5]), s[5]);
    assert Run(w, s[..7]) == Next(Run(w, s[..6]), s[6]);
  }

  /**
   No interrupted operation is a dead end: from every reachable state with a credential ever
   reserved, whatever is pending and whatever the Guest was doing, some schedule reaches applied revoke.
   */
  lemma RevocationIsAlwaysReachable(id: Identity, clock: nat, steps: seq<Step>) returns (more: seq<Step>)
    requires ValidIdentity(id)
    requires 0 < Run(Start(id, clock), steps).row.revision < MAX_INT64
    ensures var v := Run(Start(id, clock), steps + more);
            v.row.state == Applied && v.row.operation == Revoke && Shut(v.guest)
  {
    StartIsSafe(id, clock);
    RunKeepsSafe(Start(id, clock), steps);
    var w := Run(Start(id, clock), steps);
    if w.row.operation == Revoke && w.row.state == Applied {
      more := [];
      assert steps + more == steps;
    } else {
      var first := if w.row.operation == Revoke then [] else [ReserveRevoke(w.row, 0)];
      RunOne(w, ReserveRevoke(w.row, 0));
      RunKeepsSafe(w, first);
      var v := Run(w, first);
      PendingRevokeCompletes(v);
      more := first + RevokeSchedule(v.row);
      RunConcat(w, first, RevokeSchedule(v.row));
    }
    RunConcat(Start(id, clock), steps, more);
    RunKeepsSafe(Start(id, clock), steps + more);
  }

  /**
   Database and Guest never drift apart: after a settled cleanup the next issue the database
   reserves is one the Guest takes up, whatever happened before, unless its own clock says the new
   window is over or too long or the retained desktop has expired.
   */
  lemma NextIssueIsTakenUp(w: World, a: Row, q: Issuance)
    requires Safe(w) && w.guest.job.None? && BeginIssue(w.row, a, q).Some? && q.connection != w.row.connection
    requires var r := BeginIssue(w.row, a, q).value;
             r.expires.value < 0xffff_ffff && w.guest.clock < r.expires.value <= w.guest.clock + 28_800
    requires w.guest.fence.Some? && w.guest.fence.value.phase == Retired ==>
               LiveState(w.guest.os, w.guest.fence.value, w.guest.clock)
    ensures var v := Next(w, ReserveIssue(a, q));
            var again := w.row.operation == Retire && w.guest.fence.value.phase == Retired;
            AcceptRequest(v.guest, CommandOf(v.row)).job == Some(Job(CommandOf(v.row), again, Begun))
  {
  }
}
