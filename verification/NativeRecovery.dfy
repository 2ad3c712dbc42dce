/**
 Recovery after the database was restored to an older state while the Guest kept its fence:
 the comparison an administrator reads, the guarded commit, and when that commit makes the
 protocol sound again.
 */
module NativeRecovery {
  import opened Common
  import opened NativeAccount
  import opened GuestFence
  import opened NativeProtocol

  datatype Status = IdentityMismatch | Unversioned | LifecycleMismatch | AlignedClosed | GuestAheadClosed

  /** `compareNativeRecovery`. */
  function Compare(a: Row, o: Observation): Status {
    if !o.exists_ || o.identity != CommandOf(a).identity then IdentityMismatch
    else if o.lifecycle.None? then Unversioned
    else if o.lifecycle.value.identity != o.identity then IdentityMismatch
    else if a.state == Applied && a.operation == Revoke && Matches(o, CommandOf(a), Revoked) && Closed(o)
    then AlignedClosed
    else if o.lifecycle.value.revision > a.revision && o.lifecycle.value.phase == Revoked
            && o.lifecycle.value.expires == 0 && Closed(o)
    then GuestAheadClosed
    else LifecycleMismatch
  }

  /** The database as a backup knows it: an older row and the intents up to it. */
  function RolledBack(w: World, older: Row): World {
    w.(row := older, rights := {}, acks := {}, intents := map k | k in w.intents && k <= older.revision :: w.intents[k])
  }

  /** The guarded commit of the handler, with the inspection it was based on. */
  function Recover(w: World, o: Observation, safe: bool): Option<World> {
    if Compare(w.row, o) != GuestAheadClosed then None
    else
      var r := CommitRecovery(w.row, w.row, o.lifecycle.value.revision, o.lifecycle.value.connection, safe);
      if r.None? then None else Some(Record(w, r.value, {}))
  }

  ghost predicate AtMost(net: set<Request>, revision: nat) { forall q :: q in net ==> q.revision <= revision }

  /** What the handler has established when it commits: the lock is held, so no other handler is mid-way. */
  ghost predicate Recoverable(w: World) {
    && WellFormed(w.row) && GuestInv(w.guest) && w.guest.identity == w.row.identity && w.guest.job.None?
    && w.rights == {} && w.acks == {}
    && (forall k :: k in w.intents ==> 0 < k <= w.row.revision && w.intents[k].revision == k)
  }

  /**
   A committed recovery leaves row and Guest aligned and closed, its next issue strictly above the
   Guest's revision, and re-establishes the protocol invariant if and only if no command of the
   lost history is still on its way with a revision above the Guest's.
   */
  lemma RecoveryRestoresSafety(w: World, safe: bool)
    requires Recoverable(w)
    requires var o := Observe(w.guest).value; Recover(w, o, safe).Some?
    ensures var o := Observe(w.guest).value; var v := Recover(w, o, safe).value;
            && Compare(v.row, o) == AlignedClosed
            && v.row.revision == FenceRevision(w.guest) > w.row.revision && v.row.identity == w.row.identity
            && v.row.state == Applied && v.row.operation == Revoke
            && (forall a, q :: BeginIssue(v.row, a, q).Some? ==>
                  BeginIssue(v.row, a, q).value.revision == FenceRevision(w.guest) + 1)
            && (Safe(v) <==> AtMost(w.net, FenceRevision(w.guest)))
  {
  }

  /** The good case: the Guest had caught up with the lost database before it was rolled back. */
  lemma RollbackOfSettledGuestIsRecoverable(w: World, older: Row, safe: bool)
    requires Safe(w) && w.guest.job.None? && FenceRevision(w.guest) == w.row.revision
    requires WellFormed(older) && older.identity == w.row.identity
    requires Recover(RolledBack(w, older), Observe(w.guest).value, safe).Some?
    ensures Safe(Recover(RolledBack(w, older), Observe(w.guest).value, safe).value)
  {
  }

  /** What an issue does at the Guest when nothing interrupts it, from a closed account. */
  function RunIssue(g: Guest, q: Request): Guest {
    FinishJob(AdvanceJob(AdvanceJob(AdvanceJob(AdvanceJob(AcceptRequest(g, q))))))
  }

  /**
   The failing family, for every such state: with the successor issue of the lost history still on
   its way, a committed recovery lets the Guest open a login while the row says applied revoke.
   */
  lemma LostIssueDefeatsRecovery(w: World, q: Request, safe: bool)
    requires Defeated(w, q) && Recover(w, Observe(w.guest).value, safe).Some?
    ensures var v := Recover(w, Observe(w.guest).value, safe).value;
            var late := v.(guest := RunIssue(v.guest, q));
            var begun := Next(Next(v, AtGuest(Accept(q))), AtGuest(Advance));
            late == Next(Next(Next(Next(begun, AtGuest(Advance)), AtGuest(Advance)),
                                   AtGuest(Advance)), AtGuest(Finish))
            && LoginPossible(late.guest) && late.row.state == Applied && late.row.operation == Revoke
  {
  }

  // The failing family is real: a run, a backup taken on the way, and a rollback to it -------------

  /** A one-second credential for a new connection. */
  function Demand(c: ConnId): Issuance { Issuance(c, SECOND, 0, 0, true) }

  function IssuedRow(r: Row, c: ConnId): Row {
    r.(revision := r.revision + 1, operation := Issue, state := Pending, connection := c, expires := Some(1))
  }

  function RevokedRow(r: Row, c: ConnId): Row {
    r.(revision := r.revision + 2, operation := Revoke, state := Pending, connection := c, expires := None)
  }

  /** Reserve a credential, supersede it by its revocation, and carry that out. */
  function RoundSteps(r: Row, c: ConnId): seq<Step> {
    [ReserveIssue(r, Demand(c)), ReserveRevoke(IssuedRow(r, c), 0)]
    + RevokeSchedule(RevokedRow(r, c)) + [AtGuest(Crash)]
  }

  predicate Closable(r: Row) {
    (r.state == Idle || (r.state == Applied && r.operation == Revoke)) && r.revision + 3 < MAX_INT64
  }

  lemma RoundReserves(w: World, c: ConnId)
    requires Safe(w) && Closable(w.row) && c != NoConnection && c != w.row.connection
    ensures Run(w, [ReserveIssue(w.row, Demand(c)), ReserveRevoke(IssuedRow(w.row, c), 0)]).row == RevokedRow(w.row, c)
  {
    var x, y := ReserveIssue(w.row, Demand(c)), ReserveRevoke(IssuedRow(w.row, c), 0);
    RunConcat(w, [x], [y]);
    RunOne(w, x);
    RunOne(Next(w, x), y);
    assert [x] + [y] == [x, y];
  }

  lemma Round(w: World, c: ConnId)
    requires Safe(w) && Closable(w.row) && c != NoConnection && c != w.row.connection
    ensures var v := Run(w, RoundSteps(w.row, c));
            && Safe(v) && v.row == RevokedRow(w.row, c).(state := Applied) && v.guest.job.None?
            && v.guest.clock == w.guest.clock
  {
    hide Safe, Next;
    var x := [ReserveIssue(w.row, Demand(c)), ReserveRevoke(IssuedRow(w.row, c), 0)];
    RoundReserves(w, c);
    RunKeepsSafe(w, x);
    var u := Run(w, x);
    PendingRevokeCompletes(u);
    RunConcat(w, x, RevokeSchedule(u.row));
    var v := Run(w, x + RevokeSchedule(u.row));
    RunConcat(w, x + RevokeSchedule(u.row), [AtGuest(Crash)]);
    RunOne(v, AtGuest(Crash));
    CrashFreesGate(v);
    RunKeepsSafe(w, RoundSteps(w.row, c));
    ClockStands(w, RoundSteps(w.row, c));
  }

  lemma CrashFreesGate(w: World)
    ensures Next(w, AtGuest(Crash)).row == w.row && Next(w, AtGuest(Crash)).guest.job.None?
  {
  }

  lemma {:induction false} ClockStands(w: World, steps: seq<Step>)
    requires forall i :: 0 <= i < |steps| ==> steps[i].AtGuest? ==> !steps[i].step.Tick?
    ensures Run(w, steps).guest.clock == w.guest.clock
  {
    if steps != [] {
      ClockStands(w, steps[..|steps| - 1]);
    }
  }

  /** Two rounds, then a third credential that is sent and not yet delivered. */
  function LostSteps(id: Identity): seq<Step> {
    var first := Bound(id);
    var second := RevokedRow(first, Connection(1)).(state := Applied);
    var third := RevokedRow(second, Connection(2)).(state := Applied);
    RoundSteps(first, Connection(1)) + RoundSteps(second, Connection(2))
    + [ReserveIssue(third, Demand(Connection(3))), Send(CommandOf(IssuedRow(third, Connection(3))))]
  }

  /** The row in the backup: after the first round. */
  function BackedUp(id: Identity): Row { RevokedRow(Bound(id), Connection(1)).(state := Applied) }

  /** Closed at the third row, with the third credential's command under way. */
  ghost predicate Stranded(u: World, third: Row) {
    && Safe(u) && u.guest.job.None? && u.guest.clock == 0 && u.guest.identity == third.identity
    && CommandOf(IssuedRow(third, Connection(3))) in u.net
    && u.guest.fence == Some(CompletedFence(CommandOf(third))) && Shut(u.guest)
  }

  lemma SentNotDelivered(w: World)
    requires w.row.state == Applied && w.row.operation == Revoke && w.row.revision + 3 < MAX_INT64
    requires ValidIdentity(w.row.identity) && w.row.connection == Connection(2)
    ensures var q := CommandOf(IssuedRow(w.row, Connection(3)));
            var v := Next(Next(w, ReserveIssue(w.row, Demand(Connection(3)))), Send(q));
            q in v.net && v.guest == w.guest
  {
  }

  lemma ClosedAtRow(w: World)
    requires Safe(w) && w.row.state == Applied && w.row.operation == Revoke
    ensures w.guest.fence == Some(CompletedFence(CommandOf(w.row))) && Shut(w.guest)
    ensures w.guest.identity == w.row.identity
    ensures ValidIdentity(w.row.identity)
  {
  }

  lemma ThirdIsSent(w: World)
    requires Safe(w) && w.row.state == Applied && w.row.operation == Revoke && w.row.revision + 3 < MAX_INT64
    requires w.row.connection == Connection(2) && w.guest.job.None? && w.guest.clock == 0
    ensures var steps := [ReserveIssue(w.row, Demand(Connection(3))), Send(CommandOf(IssuedRow(w.row, Connection(3))))];
            Stranded(Run(w, steps), w.row)
  {
    hide Next, Safe;
    var x, y := ReserveIssue(w.row, Demand(Connection(3))), Send(CommandOf(IssuedRow(w.row, Connection(3))));
    RunConcat(w, [x], [y]);
    RunOne(w, x);
    RunOne(Next(w, x), y);
    assert [x] + [y] == [x, y];
    RunKeepsSafe(w, [x, y]);
    ClosedAtRow(w);
    SentNotDelivered(w);
  }

  lemma StrandedIsReachable(id: Identity)
    requires ValidIdentity(id)
    ensures Run(Start(id, 0), RoundSteps(Bound(id), Connection(1))).row == BackedUp(id)
    ensures Stranded(Run(Start(id, 0), LostSteps(id)), RevokedRow(BackedUp(id), Connection(2)).(state := Applied))
  {
    hide Next, Safe, Stranded, Run, RoundSteps;
    var s := Start(id, 0);
    StartIsSafe(id, 0);
    var a := RoundSteps(Bound(id), Connection(1));
    Round(s, Connection(1));
    var v := Run(s, a);
    var b := RoundSteps(v.row, Connection(2));
    Round(v, Connection(2));
    var x := Run(v, b);
    RunConcat(s, a, b);
    ThirdIsSent(x);
    RunConcat(s, a + b, [ReserveIssue(x.row, Demand(Connection(3))), Send(CommandOf(IssuedRow(x.row, Connection(3))))]);
  }

  /** What the failure needs of a rolled-back state. */
  ghost predicate Defeated(w: World, q: Request) {
    && Recoverable(w) && Recover(w, Observe(w.guest).value, true).Some?
    && q in w.net && ValidRequest(q) && q.operation == Issue && q.identity == w.guest.identity
    && w.guest.fence.Some? && q.revision == FenceRevision(w.guest) + 1 && q.connection != w.guest.fence.value.connection
    && w.guest.clock < q.expires <= w.guest.clock + 28_800
  }

  lemma StrandedIsDefeated(u: World, id: Identity)
    requires ValidIdentity(id) && Stranded(u, RevokedRow(BackedUp(id), Connection(2)).(state := Applied))
    ensures var lost := IssuedRow(RevokedRow(BackedUp(id), Connection(2)), Connection(3));
            Defeated(RolledBack(u, BackedUp(id)), CommandOf(lost))
  {
  }

  /**
   From a fresh account, with the row of a real moment as backup, a rollback meets every premise of
   the failure.
   */
  lemma LostIssueIsReachable(id: Identity)
    requires ValidIdentity(id)
    ensures Run(Start(id, 0), RoundSteps(Bound(id), Connection(1))).row == BackedUp(id)
    ensures exists q :: Defeated(RolledBack(Run(Start(id, 0), LostSteps(id)), BackedUp(id)), q)
  {
    hide Stranded, Defeated;
    StrandedIsReachable(id);
    StrandedIsDefeated(Run(Start(id, 0), LostSteps(id)), id);
  }

  /** Without a rollback the Guest is never ahead, so the commit has nothing to act on. */
  lemma RecoveryNeedsLostHistory(w: World, o: Observation, safe: bool)
    requires Safe(w) && Observe(w.guest) == Some(o)
    ensures Recover(w, o, safe).None?
    ensures w.row.state == Applied && w.row.operation == Revoke ==> Compare(w.row, o) == AlignedClosed
  {
  }
}
