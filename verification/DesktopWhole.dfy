/**
 One desktop with the Guest accounts of all its users and of all its Agents.  A statement on an account
 or a connection moves the human side, a statement on a lease or a session the Agent side, and both read
 the tables the other one writes.
 */
module DesktopWhole {
  import opened Common
  import opened NativeAccount
  import D = Desktop
  import F = AgentFence
  import A = DesktopAgents
  import H = DesktopGuest
  import L = AgentLogin
  import N = GuestFence
  import P = NativeProtocol

  datatype System = System(desktop: D.State, worlds: map<UserId, P.World>, agents: map<D.AgentId, L.System>)

  datatype Move = Human(human: H.Move) | Agent(agent: A.Move)

  function HumanSide(y: System): H.System { H.System(y.desktop, y.worlds) }
  function AgentSide(y: System): A.System { A.System(y.desktop, y.agents) }

  /** Each statement belongs to one side. */
  function Next(y: System, m: Move): System {
    match m
    case Human(h) =>
      if h.Transaction? && D.TouchesSessions(h.step) then y
      else var x := H.Next(HumanSide(y), h); y.(desktop := x.desktop, worlds := x.worlds)
    case Agent(g) =>
      if g.Elsewhere? then y
      else var x := A.Next(AgentSide(y), g); y.(desktop := x.desktop, agents := x.agents)
  }

  function Start(now: int): System { System(D.Start(now), map[], map[]) }

  function Run(y: System, moves: seq<Move>): System {
    if moves == [] then y else Next(Run(y, moves[..|moves| - 1]), moves[|moves| - 1])
  }

  /** The statement behind a move of the Agent side, as the tables see it. */
  function StatementOf(x: A.System, g: A.Move): Option<D.Step> {
    match g
    case Grant(l, a, e, ok) => Some(D.LeaseStep(l, a, e, ok))
    case Withdraw(l) => Some(D.EndLease(l))
    case Begin(l, a, e, t, ok) => Some(D.SessionStep(l, a, e, t, ok))
    case Login(a, _, t, _, ok) => Some(D.LoginStep(a, A.LoginOf(x, a), t, ok))
    case Ready(a, _, t, ok) => Some(D.ReadyStep(a, A.LoginOf(x, a), t, ok))
    case Done(a, _) => Some(D.SessionDone(a))
    case _ => None
  }

  lemma AgentMovesTables(x: A.System, g: A.Move)
    requires !g.Elsewhere?
    ensures var s := StatementOf(x, g);
            A.Next(x, g).desktop == x.desktop
            || (s.Some? && D.TouchesSessions(s.value) && A.Next(x, g).desktop == D.Next(x.desktop, s.value))
  {
    hide D.Next, L.Next;
  }

  /** To the human side a statement on leases and sessions is a transaction that leaves its Guests alone. */
  lemma HumanSideFollows(x: H.System, s: D.Step)
    requires D.TouchesSessions(s)
    ensures H.Next(x, H.Transaction(s, 0)) == x.(desktop := D.Next(x.desktop, s))
  {
    hide D.Next;
  }

  lemma HumanMovesTables(x: H.System, h: H.Move)
    ensures H.Next(x, h).desktop == x.desktop
            || (h.Transaction? && H.Next(x, h).desktop == D.Next(x.desktop, h.step))
  {
    hide D.Next, P.Next, H.Behind;
  }

  /** Every run of the whole is, on each side, a run of that side alone. */
  lemma {:induction false} RunProjects(now: int, moves: seq<Move>) returns (hs: seq<H.Move>, gs: seq<A.Move>)
    ensures HumanSide(Run(Start(now), moves)) == H.Run(H.Start(now), hs)
    ensures AgentSide(Run(Start(now), moves)) == A.Run(A.Start(now), gs)
  {
    hide H.Next, A.Next, D.Next, D.TouchesSessions, StatementOf;
    hs, gs := [], [];
    if moves != [] {
      var init, m := moves[..|moves| - 1], moves[|moves| - 1];
      hs, gs := RunProjects(now, init);
      var y := Run(Start(now), init);
      match m
      case Human(h) =>
        if !(h.Transaction? && D.TouchesSessions(h.step)) {
          HumanMovesTables(HumanSide(y), h);
          HumanRunExtends(now, hs, h);
          if Next(y, m).desktop != y.desktop {
            AgentRunExtends(now, gs, A.Elsewhere(h.step));
            ElsewhereMovesTables(AgentSide(y), h.step);
            gs := gs + [A.Elsewhere(h.step)];
          }
          hs := hs + [h];
        }
      case Agent(g) =>
        if !g.Elsewhere? {
          AgentMovesTables(AgentSide(y), g);
          AgentRunExtends(now, gs, g);
          if Next(y, m).desktop != y.desktop {
            var s := StatementOf(AgentSide(y), g).value;
            HumanRunExtends(now, hs, H.Transaction(s, 0));
            HumanSideFollows(HumanSide(y), s);
            hs := hs + [H.Transaction(s, 0)];
          }
          gs := gs + [g];
        }
    }
  }

  lemma ElsewhereMovesTables(x: A.System, s: D.Step)
    requires !D.TouchesSessions(s)
    ensures A.Next(x, A.Elsewhere(s)) == x.(desktop := D.Next(x.desktop, s))
  {
  }

  lemma HumanRunExtends(now: int, hs: seq<H.Move>, h: H.Move)
    ensures H.Run(H.Start(now), hs + [h]) == H.Next(H.Run(H.Start(now), hs), h)
  {
    assert (hs + [h])[..|hs|] == hs;
  }

  lemma AgentRunExtends(now: int, gs: seq<A.Move>, g: A.Move)
    ensures A.Run(A.Start(now), gs + [g]) == A.Next(A.Run(A.Start(now), gs), g)
  {
    assert (gs + [g])[..|gs|] == gs;
  }

  /**
   One operating system at a time, in every run of the whole: when any human account admits a login,
   nothing of any Agent runs in the Guest, no login of an Agent could still be taken up, and no other
   human account admits one.
   */
  lemma LoginsExclude(now: int, moves: seq<Move>, u: UserId)
    requires var y := Run(Start(now), moves); u in y.worlds && N.LoginPossible(y.worlds[u].guest)
    ensures var y := Run(Start(now), moves);
            && (forall a :: a in y.agents ==> F.Quiet(y.agents[a].guest) && L.AllSpent(y.agents[a]))
            && (forall v :: v in y.worlds && N.LoginPossible(y.worlds[v].guest) ==> v == u)
  {
    hide F.Quiet, L.AllSpent, N.LoginPossible, Run, H.Run, A.Run;
    var hs, gs := RunProjects(now, moves);
    var y := Run(Start(now), moves);
    H.LoginOwnsReservation(now, hs, u);
    assert AgentSide(y).desktop.hot != {};
    forall a | a in y.agents ensures F.Quiet(y.agents[a].guest) && L.AllSpent(y.agents[a]) {
      A.NoAgentRunsBesideHuman(now, gs, a);
    }
  }

  /** And conversely: while anything of an Agent runs or may still start, no account of any user can be opened. */
  lemma AgentActivityKeepsHumansOut(now: int, moves: seq<Move>, a: D.AgentId, u: UserId)
    requires var y := Run(Start(now), moves);
             a in y.agents && u in y.worlds && !(F.Quiet(y.agents[a].guest) && L.AllSpent(y.agents[a]))
    ensures var y := Run(Start(now), moves); P.Cold(y.worlds[u]) && !D.AnyOpen(y.desktop)
  {
    hide F.Quiet, L.AllSpent, P.Cold, P.Safe, D.Inv, Run, H.Run, A.Run, D.AnyOpen;
    var hs, gs := RunProjects(now, moves);
    var y := Run(Start(now), moves);
    if D.AnyOpen(y.desktop) || y.desktop.hot != {} {
      assert D.AnyOpen(AgentSide(y).desktop) || AgentSide(y).desktop.hot != {};
      A.NoAgentRunsBesideHuman(now, gs, a);
    }
    D.ReachableInv(now, []);
    H.RunKeepsInv(H.Start(now), hs);
    assert HumanSide(y).worlds == y.worlds;
  }
}
