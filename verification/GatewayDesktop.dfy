/**
 The gateway over the desktop it leads to.  Whether a connection is admitted is read from the account
 rows: it must be active, be its owner's applied issue, and no operation or revocation may be under
 way on the desktop.  The rest of the access view is one decision that may change at any time.
 */
module GatewayDesktop {
  import opened Common
  import opened NativeAccount
  import T = GatewayTicket
  import G = Gateway
  import D = Desktop

  datatype System = System(desktop: D.State, gate: G.State, granted: map<ConnId, T.Access>)

  /** The conditions of the access view on the desktop's own rows. */
  predicate Backed(d: D.State, c: ConnId) {
    && c in d.connections && d.connections[c].state == Active && !D.Outstanding(d.identity)
    && (forall u :: u in d.accounts ==> d.accounts[u].state != Pending)
    && (d.connections[c].user in d.accounts ==>
          var r := d.accounts[d.connections[c].user]; r.connection == c && r.operation == Issue && r.state == Applied)
  }

  function View(d: D.State, granted: map<ConnId, T.Access>): map<ConnId, T.Access> {
    map c | c in granted && Backed(d, c) :: granted[c]
  }

  datatype Move =
    | Decide(connection: ConnId, access: Option<T.Access>)
    | AtDesktop(step: D.Step)
    | AtGate(own: G.Step)

  function Next(y: System, m: Move): System {
    match m
    case Decide(c, a) =>
      var granted := if a.Some? then y.granted[c := a.value] else y.granted - {c};
      System(y.desktop, y.gate.(access := View(y.desktop, granted)), granted)
    case AtDesktop(s) =>
      var d := D.Next(y.desktop, s);
      System(d, y.gate.(access := View(d, y.granted)), y.granted)
    case AtGate(g) => if g.SetAccess? then y else y.(gate := G.Next(y.gate, g))
  }

  function Start(now: int, clock: nat): System { System(D.Start(now), G.Start(clock), map[]) }

  function Run(y: System, moves: seq<Move>): System {
    if moves == [] then y else Next(Run(y, moves[..|moves| - 1]), moves[|moves| - 1])
  }

  ghost predicate Inv(y: System) {
    D.Inv(y.desktop) && G.Inv(y.gate) && y.gate.access == View(y.desktop, y.granted)
  }

  lemma SameAccess(g: G.State, step: G.Step)
    requires !step.SetAccess?
    ensures G.Next(g, step).access == g.access
  {
  }

  lemma AccessIsFree(g: G.State, access: map<ConnId, T.Access>)
    requires G.Inv(g)
    ensures G.Inv(g.(access := access))
  {
  }

  lemma StepKeepsInv(y: System, m: Move)
    requires Inv(y)
    ensures Inv(Next(y, m))
  {
    hide D.Inv, G.Inv, D.Next, G.Next, View;
    match m
    case Decide(c, a) => AccessIsFree(y.gate, Next(y, m).gate.access);
    case AtDesktop(s) =>
      D.StepKeepsInv(y.desktop, s);
      AccessIsFree(y.gate, Next(y, m).gate.access);
    case AtGate(g) =>
      if !g.SetAccess? {
        G.StepKeepsInv(y.gate, g);
        SameAccess(y.gate, g);
      }
  }

  lemma {:induction false} RunKeepsInv(y: System, moves: seq<Move>)
    requires Inv(y)
    ensures Inv(Run(y, moves))
  {
    hide Inv, Next;
    if moves != [] {
      RunKeepsInv(y, moves[..|moves| - 1]);
      StepKeepsInv(Run(y, moves[..|moves| - 1]), moves[|moves| - 1]);
    }
  }

  // A credential on its way out -------------------------------------------------------------------------

  /** The connection's credential was used and no account holds it as an issue any more. */
  ghost predicate Gone(d: D.State, c: ConnId) {
    && c in d.credentialIds
    && forall u :: u in d.accounts && d.accounts[u].connection == c ==> d.accounts[u].operation != Issue
  }

  /** Reserving the retirement or the revocation of a credential is enough. */
  lemma CleanupMakesGone(d: D.State, s: D.Step)
    requires D.Inv(d) && (s.RetireStep? || s.RevokeStep?) && D.Next(d, s) != d
    ensures s.user in d.accounts && Gone(D.Next(d, s), d.accounts[s.user].connection)
  {
    hide D.Ordered, D.Separated, D.OpenIsCurrent, D.OneOpen, D.OneHot, D.PendingIssueAlone;
  }

  lemma GoneLasts(d: D.State, s: D.Step, c: ConnId)
    requires Gone(d, c)
    ensures Gone(D.Next(d, s), c)
  {
    if D.TouchesAccounts(s) {
      TouchedStaysGone(d, s, c);
    } else {
      D.OthersKeepHumanSide(d, s);
    }
  }

  lemma TouchedStaysGone(d: D.State, s: D.Step, c: ConnId)
    requires Gone(d, c) && D.TouchesAccounts(s)
    ensures Gone(D.Next(d, s), c)
  {
    hide D.Within;
  }

  /** The connection is being revoked or has ended. */
  predicate Left(d: D.State, c: ConnId) { c in d.connections && d.connections[c].state != Active }

  lemma LeftLasts(d: D.State, s: D.Step, c: ConnId)
    requires Left(d, c)
    ensures Left(D.Next(d, s), c)
  {
    hide D.Within, D.Admits;
    if !D.TouchesAccounts(s) {
      D.OthersKeepHumanSide(d, s);
    }
  }

  /** The connection can never be admitted again. */
  ghost predicate Out(d: D.State, c: ConnId) { Gone(d, c) || Left(d, c) }

  lemma OutLasts(d: D.State, s: D.Step, c: ConnId)
    requires Out(d, c)
    ensures Out(D.Next(d, s), c)
  {
    hide D.Next, Gone, Left;
    if Gone(d, c) {
      GoneLasts(d, s, c);
    } else {
      LeftLasts(d, s, c);
    }
  }

  lemma OutIsIneligible(y: System, c: ConnId)
    requires Inv(y) && Out(y.desktop, c)
    ensures G.Ineligible(y.gate, c)
  {
    hide G.Inv, D.Ordered, D.Separated;
  }

  /** The statements that take a connection away: its cleanup is reserved, or the row is marked. */
  predicate Withdraws(d: D.State, s: D.Step, c: ConnId) {
    match s
    case RetireStep(u, _, _) => u in d.accounts && d.accounts[u].connection == c
    case RevokeStep(u, _, _) => u in d.accounts && d.accounts[u].connection == c
    case RevokeConnection(k) => k == c
    case EndConnection(k) => k == c
    case _ => false
  }

  lemma WithdrawalMakesOut(d: D.State, s: D.Step, c: ConnId)
    requires D.Inv(d) && Withdraws(d, s, c) && D.Next(d, s) != d
    ensures Out(D.Next(d, s), c)
  {
    hide D.Inv, Gone;
    if s.RetireStep? || s.RevokeStep? {
      CleanupMakesGone(d, s);
    }
  }

  lemma StepKeepsCapped(y: System, m: Move, c: ConnId, bound: nat)
    requires Inv(y) && Out(y.desktop, c) && G.Capped(y.gate, c, bound)
    ensures Out(Next(y, m).desktop, c) && G.Capped(Next(y, m).gate, c, bound)
    ensures |y.gate.bytes| <= |Next(y, m).gate.bytes| <= |y.gate.bytes| + 1
    ensures Next(y, m).gate.bytes[..|y.gate.bytes|] == y.gate.bytes
    ensures |Next(y, m).gate.bytes| > |y.gate.bytes| && Next(y, m).gate.bytes[|y.gate.bytes|].connection == c ==>
              Next(y, m).gate.bytes[|y.gate.bytes|].at < bound
  {
    hide D.Inv, G.Inv, D.Next, G.Next, View, Out, G.CappedRelay;
    match m
    case Decide(_, _) =>
    case AtDesktop(s) => OutLasts(y.desktop, s, c);
    case AtGate(g) =>
      if !g.SetAccess? {
        OutIsIneligible(y, c);
        G.StepKeepsCapped(y.gate, g, c, bound);
        G.StepAddsBytes(y.gate, g, c, bound);
      }
  }

  lemma {:induction false} RunKeepsCapped(y: System, moves: seq<Move>, c: ConnId)
    requires Inv(y) && Out(y.desktop, c)
    ensures Out(Run(y, moves).desktop, c) && G.Capped(Run(y, moves).gate, c, y.gate.clock + T.WINDOW)
    ensures |y.gate.bytes| <= |Run(y, moves).gate.bytes|
    ensures var bytes := Run(y, moves).gate.bytes;
            forall i :: |y.gate.bytes| <= i < |bytes| && bytes[i].connection == c ==>
              bytes[i].at < y.gate.clock + T.WINDOW
  {
    hide Inv, Next, Out, G.Capped;
    if moves == [] {
      GateInv(y);
      G.AlwaysCapped(y.gate, c);
    } else {
      var init, last := moves[..|moves| - 1], moves[|moves| - 1];
      RunKeepsCapped(y, init, c);
      RunKeepsInv(y, init);
      StepKeepsCapped(Run(y, init), last, c, y.gate.clock + T.WINDOW);
    }
  }

  lemma GateInv(y: System)
    requires Inv(y)
    ensures G.Inv(y.gate)
  {
  }

  lemma StartKeepsInv(now: int, clock: nat)
    ensures Inv(Start(now, clock))
  {
    D.ReachableInv(now, []);
    assert View(D.Start(now), map[]) == map[];
  }

  /**
   From the statement that reserves the retirement or the revocation of a connection's credential, or
   marks the connection itself as being revoked or ended, no relay carries a byte of that connection
   five seconds later, whatever is decided, delivered, renewed or acknowledged afterwards.
   */
  lemma WithdrawnCredentialStopsTraffic(now: int, clock: nat, past: seq<Move>, s: D.Step, c: ConnId,
      future: seq<Move>, i: nat)
    requires var y := Run(Start(now, clock), past);
             && Withdraws(y.desktop, s, c) && D.Next(y.desktop, s) != y.desktop
             && |y.gate.bytes| <= i < |Run(Next(y, AtDesktop(s)), future).gate.bytes|
    ensures var y := Run(Start(now, clock), past);
            var b := Run(Next(y, AtDesktop(s)), future).gate.bytes[i];
            b.connection == c ==> b.at < y.gate.clock + 5 * SECOND
  {
    hide D.Inv, G.Inv, D.Next, G.Next, View, Out, Withdraws;
    StartKeepsInv(now, clock);
    RunKeepsInv(Start(now, clock), past);
    var y := Run(Start(now, clock), past);
    WithdrawalMakesOut(y.desktop, s, c);
    StepKeepsInv(y, AtDesktop(s));
    RunKeepsCapped(Next(y, AtDesktop(s)), future, c);
  }
}
