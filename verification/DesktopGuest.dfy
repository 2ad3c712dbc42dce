/**
 One desktop and the Guests of all its human accounts, stepping together: every transaction on an
 account row is at the same time a step of that account's credential protocol.  The result spans
 both: what the database decides about control is what the operating system enforces.
 */
module DesktopGuest {
  import opened Common
  import opened NativeAccount
  import opened GuestFence
  import P = NativeProtocol
  import D = Desktop

  datatype System = System(desktop: D.State, worlds: map<UserId, P.World>)

  datatype Move =
    | Transaction(step: D.Step, clock: nat)          // `clock`: the Guest's, for a first binding
    | Remote(user: UserId, event: P.Step)          // a dispatch, an inspection, or the Guest itself

  /** The protocol step behind a desktop transaction of user `u`, as admitted by the rest of the desktop. */
  function Behind(d: D.State, s: D.Step): Option<(UserId, P.Step)> {
    match s
    case IssueStep(u, a, q, ok) =>
      Some((u, P.ReserveIssue(a, q.(admitted := D.Within(d, D.Connect, q.txNow) && D.Admits(d, u, q, ok)))))
    case RetireStep(u, a, t) => Some((u, P.ReserveRetire(a, t)))
    case RevokeStep(u, a, t) => Some((u, P.ReserveRevoke(a, t)))
    case AcknowledgeStep(u, a, t, ok) =>
      Some((u, P.Acknowledge(a, t, ok && !D.Outstanding(d.identity) && a.connection !in d.connections)))
    case _ => None
  }

  /** A handler acknowledges only what it has observed. */
  predicate Permitted(y: System, s: D.Step) {
    s.AcknowledgeStep? ==> s.user in y.worlds && P.CommandOf(s.snapshot) in y.worlds[s.user].acks
  }

  predicate IsRemote(p: P.Step) { p.Send? || p.ForgetRights? || p.Confirm? || p.AtGuest? }

  function Next(y: System, m: Move): System {
    match m
    case Remote(u, p) =>
      if u in y.worlds && IsRemote(p) then y.(worlds := y.worlds[u := P.Next(y.worlds[u], p)]) else y
    case Transaction(s, clock) =>
      if !Permitted(y, s) then y
      else
        var d := D.Next(y.desktop, s);
        var b := Behind(y.desktop, s);
        if s.Bind? && s.user !in y.worlds && s.user in d.accounts then
          System(d, y.worlds[s.user := P.Start(s.identity, clock)])
        else if b.Some? && b.value.0 in y.worlds then
          System(d, y.worlds[b.value.0 := P.Next(y.worlds[b.value.0], b.value.1)])
        else y.(desktop := d)
  }

  function Start(now: int): System { System(D.Start(now), map[]) }

  function Run(y: System, moves: seq<Move>): System {
    if moves == [] then y else Next(Run(y, moves[..|moves| - 1]), moves[|moves| - 1])
  }

  /** Both descriptions agree on the rows; a user who is not hot has a Guest account no issue can open. */
  ghost predicate Inv(y: System) {
    && D.Inv(y.desktop) && y.worlds.Keys == y.desktop.accounts.Keys
    && (forall u :: u in y.worlds ==> y.worlds[u].row == y.desktop.accounts[u] && P.Safe(y.worlds[u]))
    && (forall u :: u in y.worlds && u !in y.desktop.hot ==> P.Cold(y.worlds[u]))
  }

  /** A transaction changes an account row exactly as the protocol step behind it does. */
  lemma RowsAgree(d: D.State, s: D.Step, u: UserId, w: P.World)
    requires u in d.accounts && w.row == d.accounts[u]
    requires s.AcknowledgeStep? && s.user == u ==> P.CommandOf(s.snapshot) in w.acks
    ensures D.Next(d, s).accounts.Keys == d.accounts.Keys || s.Bind?
    ensures u in D.Next(d, s).accounts
    ensures var b := Behind(d, s);
            D.Next(d, s).accounts[u] == if b.Some? && b.value.0 == u then P.Next(w, b.value.1).row else w.row
  {
    hide D.Admits, D.Within, GuestNext, Observe;
    if Behind(d, s).None? {
      OthersKeepAccounts(d, s, u);
    } else {
      hide D.OpenLease, D.CloseLease, D.BeginSession, D.BeginLogin, D.MarkReady, D.FinishSession;
      hide D.MarkRevoking, D.MarkEnded;
    }
  }

  lemma OthersKeepAccounts(d: D.State, s: D.Step, u: UserId)
    requires Behind(d, s).None? && u in d.accounts
    ensures u in D.Next(d, s).accounts && D.Next(d, s).accounts[u] == d.accounts[u]
    ensures D.Next(d, s).accounts == d.accounts || s.Bind?
  {
  }

  /** A user stops being hot only by an acknowledged cleanup, and a reservation that goes through makes one hot. */
  lemma HotChanges(d: D.State, s: D.Step, u: UserId)
    requires u in d.accounts && WellFormed(d.accounts[u]) && u !in D.Next(d, s).hot
    ensures u in d.hot ==> s.AcknowledgeStep? && s.user == u && u in D.Next(d, s).accounts
    ensures u in d.hot ==>
              D.Next(d, s).accounts[u].state == Applied && D.Next(d, s).accounts[u].operation in {Retire, Revoke}
    ensures s.IssueStep? && s.user == u ==> D.Next(d, s).accounts == d.accounts
  {
    hide D.Admits, D.Within;
  }

  lemma IssueSkipped(w: P.World, s: P.Step)
    requires s.ReserveIssue? && P.Next(w, s).row == w.row
    ensures P.Next(w, s) == w
  {
  }

  /** Which transactions make a user hot or settle one. */
  lemma HotFollowsIssue(d: D.State, s: D.Step, u: UserId, w: P.World)
    requires D.Inv(d) && u in d.accounts && w.row == d.accounts[u] && P.Safe(w)
    requires s.AcknowledgeStep? && s.user == u ==> P.CommandOf(s.snapshot) in w.acks
    requires u !in D.Next(d, s).hot && (u !in d.hot ==> P.Cold(w))
    ensures var b := Behind(d, s);
            P.Cold(if b.Some? && b.value.0 == u then P.Next(w, b.value.1) else w)
  {
    hide P.Safe, P.Cold, P.Next, D.Next, D.Inv;
    var b := Behind(d, s);
    RowIsWellFormed(d, u);
    HotChanges(d, s, u);
    if b.Some? && b.value.0 == u {
      RowsAgree(d, s, u, w);
      P.StepKeepsSafe(w, b.value.1);
      if u in d.hot {
        P.SettledCleanupIsCold(P.Next(w, b.value.1));
      } else {
        assert w.row.operation != Issue by { IssueIsHot(d, u); }
        if s.IssueStep? {
          IssueSkipped(w, b.value.1);
        }
        P.StepKeepsCold(w, b.value.1);
      }
    }
  }

  lemma RemoteKeepsInv(y: System, u: UserId, p: P.Step)
    requires Inv(y)
    ensures Inv(Next(y, Remote(u, p)))
  {
    hide P.Safe, P.Cold, D.Inv, P.Next;
    if u in y.worlds && IsRemote(p) {
      P.StepKeepsSafe(y.worlds[u], p);
      RemoteKeepsRow(y.worlds[u], p);
      if u !in y.desktop.hot {
        assert y.worlds[u].row.operation != Issue by { IssueIsHot(y.desktop, u); }
        P.StepKeepsCold(y.worlds[u], p);
      }
    }
  }

  lemma RowIsWellFormed(d: D.State, u: UserId)
    requires D.Inv(d) && u in d.accounts
    ensures WellFormed(d.accounts[u])
  {
  }

  lemma IssueIsHot(d: D.State, u: UserId)
    requires D.Inv(d) && u in d.accounts && u !in d.hot
    ensures d.accounts[u].operation != Issue
  {
  }

  lemma RemoteKeepsRow(w: P.World, p: P.Step)
    requires IsRemote(p)
    ensures P.Next(w, p).row == w.row
  {
  }

  lemma TransactionKeepsInv(y: System, s: D.Step, clock: nat)
    requires Inv(y)
    ensures Inv(Next(y, Transaction(s, clock)))
  {
    hide P.Safe, P.Cold, D.Inv, P.Next, D.Next, Behind;
    if Permitted(y, s) {
      var d := D.Next(y.desktop, s);
      var v := Next(y, Transaction(s, clock));
      D.StepKeepsInv(y.desktop, s);
      var b := Behind(y.desktop, s);
      forall u | u in y.worlds
        ensures u in d.accounts && (d.accounts.Keys == y.desktop.accounts.Keys || s.Bind?)
        ensures u in v.worlds && v.worlds[u].row == d.accounts[u] && P.Safe(v.worlds[u])
        ensures u !in d.hot ==> P.Cold(v.worlds[u])
      {
        var w := y.worlds[u];
        RowsAgree(y.desktop, s, u, w);
        if b.Some? && b.value.0 == u { P.StepKeepsSafe(w, b.value.1); }
        if u !in d.hot { HotFollowsIssue(y.desktop, s, u, w); }
        BindHasNoStep(y.desktop, s);
      }
      NewAccounts(y.desktop, s);
      if s.Bind? && s.user !in y.worlds && s.user in d.accounts {
        P.StartIsSafe(s.identity, clock);
        StartIsCold(s.identity, clock);
      }
    }
  }

  lemma BindHasNoStep(d: D.State, s: D.Step)
    ensures s.Bind? ==> Behind(d, s).None?
  {
  }

  lemma StartIsCold(id: Identity, clock: nat)
    ensures P.Cold(P.Start(id, clock)) && P.Start(id, clock).row == Bound(id)
  {
  }

  /** A binding is the only transaction that adds an account row. */
  lemma NewAccounts(d: D.State, s: D.Step)
    ensures if s.Bind? && s.user !in d.accounts && ValidIdentity(s.identity)
            then D.Next(d, s).accounts == d.accounts[s.user := Bound(s.identity)]
            else D.Next(d, s).accounts.Keys == d.accounts.Keys
  {
  }

  lemma {:induction false} RunKeepsInv(y: System, moves: seq<Move>)
    requires Inv(y)
    ensures Inv(Run(y, moves))
  {
    hide Inv, Next;
    if moves != [] {
      var before := moves[..|moves| - 1];
      RunKeepsInv(y, before);
      match moves[|moves| - 1]
      case Remote(u, p) => RemoteKeepsInv(Run(y, before), u, p);
      case Transaction(s, clock) => TransactionKeepsInv(Run(y, before), s, clock);
    }
  }

  /**
   End to end, in every run: while an Agent session is provisioning, ready or closing, no account of
   any human user on that desktop admits a login, whatever commands are still on their way to it.
   */
  lemma NoHumanLoginBesideAgent(now: int, moves: seq<Move>, u: UserId)
    requires u in Run(Start(now), moves).worlds && D.AnyLive(Run(Start(now), moves).desktop)
    ensures !LoginPossible(Run(Start(now), moves).worlds[u].guest)
  {
    hide P.Safe;
    var y := Run(Start(now), moves);
    assert D.Inv(D.Start(now));
    RunKeepsInv(Start(now), moves);
    assert u !in y.desktop.hot;
  }

  /** And the converse side: whoever can log in owns the reservation that keeps Agents away. */
  lemma LoginOwnsReservation(now: int, moves: seq<Move>, u: UserId)
    requires u in Run(Start(now), moves).worlds && LoginPossible(Run(Start(now), moves).worlds[u].guest)
    ensures var y := Run(Start(now), moves);
            u in y.desktop.hot && u in y.desktop.accounts && D.Reserved(y.desktop.accounts[u]) && !D.AnyLive(y.desktop)
            && (forall v :: v in y.worlds && LoginPossible(y.worlds[v].guest) ==> v == u)
  {
    hide P.Safe;
    var y := Run(Start(now), moves);
    assert D.Inv(D.Start(now));
    RunKeepsInv(Start(now), moves);
    assert forall v :: v in y.worlds && LoginPossible(y.worlds[v].guest) ==> v in y.desktop.hot;
  }
}
