/**
 One desktop's tables together with the Guest account and the handlers of every Agent that may use it.
 A statement that touches a session or a lease is one transaction of both descriptions: it takes
 effect only where the conditions of both are met.
 */
module DesktopAgents {
  import opened Common
  import D = Desktop
  import F = AgentFence
  import L = AgentLogin

  datatype System = System(desktop: D.State, agents: map<D.AgentId, L.System>)

  datatype Move =
    | Enroll(agent: D.AgentId, clock: nat)
    | Elsewhere(step: D.Step)                        // leases and sessions untouched
    | Grant(lease: D.LeaseId, agent: D.AgentId, expires: nat, allowed: bool)
    | Withdraw(lease: D.LeaseId)
    | Begin(lease: D.LeaseId, agent: D.AgentId, epoch: nat, start: int, allowed: bool)
    | Login(agent: D.AgentId, handler: L.HandlerId, start: int, clock: nat, allowed: bool)
    | Ready(agent: D.AgentId, handler: L.HandlerId, start: int, allowed: bool)
    | Done(agent: D.AgentId, handler: L.HandlerId)
    | Alone(agent: D.AgentId, own: L.Step)           // handlers, network and Guest of one Agent

  predicate IsAlone(g: L.Step) {
    || g.Read? || g.Inspect? || g.Bind? || g.BindRevoking? || g.Dispatch? || g.Stop? || g.ConfirmStop? || g.Drop?
    || g.AtGuest?
  }

  /** Both sides of one statement, or neither. */
  function Both(y: System, a: D.AgentId, s: D.Step, g: L.Step): System {
    if a !in y.agents then y
    else
      var d, x := D.Next(y.desktop, s), L.Next(y.agents[a], g);
      if d == y.desktop || x == y.agents[a] then y else System(d, y.agents[a := x])
  }

  function LoginOf(y: System, a: D.AgentId): nat { if a in y.desktop.sessions then y.desktop.sessions[a].login else 0 }

  function Next(y: System, m: Move): System {
    match m
    case Enroll(a, clock) => if a in y.agents then y else y.(agents := y.agents[a := L.Start(clock)])
    case Elsewhere(s) => if D.TouchesSessions(s) then y else y.(desktop := D.Next(y.desktop, s))
    case Grant(l, a, x, ok) => Both(y, a, D.LeaseStep(l, a, x, ok), L.OpenLease(l, y.desktop.epoch + 1, x))
    case Withdraw(l) =>
      if l in y.desktop.leases then Both(y, y.desktop.leases[l].agent, D.EndLease(l), L.EndLease(l)) else y
    case Begin(l, a, e, t, ok) => Both(y, a, D.SessionStep(l, a, e, t, ok), L.BeginSession(l, t))
    case Login(a, h, t, clock, ok) => Both(y, a, D.LoginStep(a, LoginOf(y, a), t, ok), L.Reserve(h, t, clock))
    case Ready(a, h, t, ok) => Both(y, a, D.ReadyStep(a, LoginOf(y, a), t, ok), L.MarkReady(h, t))
    case Done(a, h) => Both(y, a, D.SessionDone(a), L.CompleteRevocation(h))
    case Alone(a, g) => if a in y.agents && IsAlone(g) then y.(agents := y.agents[a := L.Next(y.agents[a], g)]) else y
  }

  function Start(now: int): System { System(D.Start(now), map[]) }

  function Run(y: System, moves: seq<Move>): System {
    if moves == [] then y else Next(Run(y, moves[..|moves| - 1]), moves[|moves| - 1])
  }

  function StateOf(s: L.SessionState): D.SessionState {
    match s
    case Provisioning => D.Provisioning
    case Ready => D.SessionState.Ready
    case Closing => D.Closing
    case Disabled_ => D.Disabled
  }

  function RowOf(r: L.Session): D.Session { D.Session(r.lease, r.epoch, r.generation, r.login, StateOf(r.state)) }

  /** The Agent's own view of its session and its leases is the desktop's. */
  ghost predicate Agree(d: D.State, a: D.AgentId, x: L.System) {
    && (if x.row.Some? then a in d.sessions && d.sessions[a] == RowOf(x.row.value) else a !in d.sessions)
    && (forall l :: l in x.leases <==> l in d.leases && d.leases[l].agent == a)
    && (forall l :: l in x.leases ==> x.leases[l].active == d.leases[l].active)
    && (forall l :: l in x.leases && x.leases[l].active ==>
          x.leases[l].epoch == d.leases[l].epoch && x.leases[l].expires == d.leases[l].expires)
  }

  ghost predicate Inv(y: System) {
    && D.Inv(y.desktop)
    && (forall a :: a in y.agents ==> L.Inv(y.agents[a]) && Agree(y.desktop, a, y.agents[a]))
    && (forall a :: a in y.desktop.sessions ==> a in y.agents)
    && (forall l :: l in y.desktop.leases ==> y.desktop.leases[l].agent in y.agents)
  }

  // One statement, seen from the Agent it concerns and from every other ---------------------------------

  lemma GrantAgrees(d: D.State, a: D.AgentId, x: L.System, l: D.LeaseId, until: nat, ok: bool)
    requires Agree(d, a, x) && D.Next(d, D.LeaseStep(l, a, until, ok)) != d
    ensures Agree(D.Next(d, D.LeaseStep(l, a, until, ok)), a, L.Next(x, L.OpenLease(l, d.epoch + 1, until)))
  {
  }

  lemma WithdrawAgrees(d: D.State, a: D.AgentId, x: L.System, l: D.LeaseId)
    requires Agree(d, a, x) && l in d.leases && d.leases[l].agent == a
    ensures Agree(D.Next(d, D.EndLease(l)), a, L.Next(x, L.EndLease(l)))
  {
  }

  lemma BeginAgrees(d: D.State, a: D.AgentId, x: L.System, l: D.LeaseId, e: nat, t: int, ok: bool)
    requires D.Inv(d) && Agree(d, a, x) && D.Next(d, D.SessionStep(l, a, e, t, ok)) != d
    ensures Agree(D.Next(d, D.SessionStep(l, a, e, t, ok)), a, L.Next(x, L.BeginSession(l, t)))
  {
    hide D.Inv;
    if a in d.sessions {
      D.BeginSessionPassesGuard(d, l, a, e, t, ok);
    }
  }

  lemma LoginAgrees(d: D.State, a: D.AgentId, x: L.System, h: L.HandlerId, t: int, clock: nat, ok: bool)
    requires Agree(d, a, x) && a in d.sessions
    requires D.Next(d, D.LoginStep(a, d.sessions[a].login, t, ok)) != d && L.Next(x, L.Reserve(h, t, clock)) != x
    ensures Agree(D.Next(d, D.LoginStep(a, d.sessions[a].login, t, ok)), a, L.Next(x, L.Reserve(h, t, clock)))
  {
  }

  lemma ReadyAgrees(d: D.State, a: D.AgentId, x: L.System, h: L.HandlerId, t: int, ok: bool)
    requires Agree(d, a, x) && a in d.sessions
    requires D.Next(d, D.ReadyStep(a, d.sessions[a].login, t, ok)) != d && L.Next(x, L.MarkReady(h, t)) != x
    ensures Agree(D.Next(d, D.ReadyStep(a, d.sessions[a].login, t, ok)), a, L.Next(x, L.MarkReady(h, t)))
  {
  }

  lemma DoneAgrees(d: D.State, a: D.AgentId, x: L.System, h: L.HandlerId)
    requires Agree(d, a, x) && D.Next(d, D.SessionDone(a)) != d && L.Next(x, L.CompleteRevocation(h)) != x
    ensures Agree(D.Next(d, D.SessionDone(a)), a, L.Next(x, L.CompleteRevocation(h)))
  {
  }

  lemma AloneAgrees(d: D.State, a: D.AgentId, x: L.System, g: L.Step)
    requires Agree(d, a, x) && IsAlone(g)
    ensures Agree(d, a, L.Next(x, g))
  {
  }

  /** The Agent a step is about. */
  predicate Concerns(d: D.State, s: D.Step, a: D.AgentId) {
    match s
    case LeaseStep(_, b, _, _) => a == b
    case EndLease(l) => l in d.leases && d.leases[l].agent == a
    case SessionStep(_, b, _, _, _) => a == b
    case LoginStep(b, _, _, _) => a == b
    case ReadyStep(b, _, _, _) => a == b
    case SessionDone(b) => a == b
    case _ => false
  }

  /** Ending another Agent's lease closes no session of this one. */
  lemma OthersAgreeOnEnd(d: D.State, l: D.LeaseId, b: D.AgentId, x: L.System)
    requires D.SessionsBacked(d) && Agree(d, b, x) && !Concerns(d, D.EndLease(l), b)
    ensures Agree(D.CloseLease(d, l), b, x)
  {
    if b in d.sessions {
      assert D.SessionBacked(d, b, d.sessions[b]);
    }
  }

  lemma OthersAgreeOnGrant(d: D.State, l: D.LeaseId, a: D.AgentId, until: int, ok: bool, b: D.AgentId, x: L.System)
    requires Agree(d, b, x) && a != b
    ensures Agree(D.OpenLease(d, l, a, until, ok), b, x)
  {
  }

  lemma OtherSessionsStay(d: D.State, s: D.Step, b: D.AgentId)
    requires (s.SessionStep? || s.LoginStep? || s.ReadyStep? || s.SessionDone?) && s.agent != b
    ensures var e := D.Next(d, s);
            && e.leases == d.leases && (b in e.sessions <==> b in d.sessions)
            && (b in d.sessions ==> e.sessions[b] == d.sessions[b])
  {
  }

  lemma OthersAgree(d: D.State, s: D.Step, b: D.AgentId, x: L.System)
    requires D.Inv(d) && Agree(d, b, x) && D.TouchesSessions(s) && !Concerns(d, s, b)
    ensures Agree(D.Next(d, s), b, x)
  {
    hide D.Inv, D.OpenLease, D.CloseLease, D.BeginSession, D.BeginLogin, D.MarkReady, D.FinishSession, D.SessionsBacked;
    match s
    case EndLease(l) =>
      BackedByInv(d);
      OthersAgreeOnEnd(d, l, b, x);
    case LeaseStep(l, a, until, ok) => OthersAgreeOnGrant(d, l, a, until, ok, b, x);
    case _ => OtherSessionsStay(d, s, b);
  }

  lemma BackedByInv(d: D.State)
    requires D.Inv(d)
    ensures D.SessionsBacked(d)
  {
  }

  /** A paired statement keeps the invariant, given that it keeps the two views of its Agent together. */
  lemma BothKeepsInv(y: System, a: D.AgentId, s: D.Step, g: L.Step)
    requires Inv(y) && D.TouchesSessions(s)
    requires forall b :: b in y.agents && Concerns(y.desktop, s, b) ==> b == a
    requires s.LeaseStep? ==> s.agent == a
    requires s.SessionStep? ==> s.agent == a
    requires a in y.agents && D.Next(y.desktop, s) != y.desktop && L.Next(y.agents[a], g) != y.agents[a] ==>
               Agree(D.Next(y.desktop, s), a, L.Next(y.agents[a], g))
    ensures Inv(Both(y, a, s, g))
  {
    hide D.Next, L.Next, D.Inv, L.Inv, Agree;
    var z := Both(y, a, s, g);
    if z != y {
      D.StepKeepsInv(y.desktop, s);
      L.StepKeepsInv(y.agents[a], g);
      forall b | b in z.agents ensures L.Inv(z.agents[b]) && Agree(z.desktop, b, z.agents[b]) {
        if b != a {
          OthersAgree(y.desktop, s, b, y.agents[b]);
        }
      }
      NewNames(y.desktop, s, a);
    }
  }

  /** A statement brings in no session and no lease but its own Agent's. */
  lemma NewNames(d: D.State, s: D.Step, a: D.AgentId)
    requires D.TouchesSessions(s) && (s.LeaseStep? ==> s.agent == a) && (s.SessionStep? ==> s.agent == a)
    ensures forall b :: b in D.Next(d, s).sessions ==> b in d.sessions || b == a
    ensures forall l :: l in D.Next(d, s).leases ==>
              if l in d.leases
              then D.Next(d, s).leases[l].agent == d.leases[l].agent else D.Next(d, s).leases[l].agent == a
  {
  }

  lemma ElsewhereKeepsInv(y: System, s: D.Step)
    requires Inv(y) && !D.TouchesSessions(s)
    ensures Inv(y.(desktop := D.Next(y.desktop, s)))
  {
    hide D.Next, D.Inv, L.Inv;
    D.StepKeepsInv(y.desktop, s);
    D.OthersKeepAgentSide(y.desktop, s);
  }

  lemma AloneKeepsInv(y: System, a: D.AgentId, g: L.Step)
    requires Inv(y) && a in y.agents && IsAlone(g)
    ensures Inv(y.(agents := y.agents[a := L.Next(y.agents[a], g)]))
  {
    hide L.Next, D.Inv, L.Inv, Agree;
    L.StepKeepsInv(y.agents[a], g);
    AloneAgrees(y.desktop, a, y.agents[a], g);
  }

  lemma EnrollKeepsInv(y: System, a: D.AgentId, clock: nat)
    requires Inv(y) && a !in y.agents
    ensures Inv(y.(agents := y.agents[a := L.Start(clock)]))
  {
    hide D.Inv, L.Inv;
    L.StartKeepsInv(clock);
  }

  lemma StepKeepsInv(y: System, m: Move)
    requires Inv(y)
    ensures Inv(Next(y, m))
  {
    hide D.Next, L.Next, D.Inv, L.Inv, Agree, Inv, Both;
    InvFacts(y);
    match m
    case Enroll(a, clock) =>
      if a !in y.agents {
        EnrollKeepsInv(y, a, clock);
      }
    case Elsewhere(s) =>
      if !D.TouchesSessions(s) {
        ElsewhereKeepsInv(y, s);
      }
    case Alone(a, g) =>
      if a in y.agents && IsAlone(g) {
        AloneKeepsInv(y, a, g);
      }
    case Grant(l, a, x, ok) =>
      if a in y.agents && D.Next(y.desktop, D.LeaseStep(l, a, x, ok)) != y.desktop {
        GrantAgrees(y.desktop, a, y.agents[a], l, x, ok);
      }
      BothKeepsInv(y, a, D.LeaseStep(l, a, x, ok), L.OpenLease(l, y.desktop.epoch + 1, x));
    case Withdraw(l) =>
      if l in y.desktop.leases {
        var a := y.desktop.leases[l].agent;
        WithdrawAgrees(y.desktop, a, y.agents[a], l);
        BothKeepsInv(y, a, D.EndLease(l), L.EndLease(l));
      }
    case Begin(l, a, e, t, ok) =>
      if a in y.agents && D.Next(y.desktop, D.SessionStep(l, a, e, t, ok)) != y.desktop {
        BeginAgrees(y.desktop, a, y.agents[a], l, e, t, ok);
      }
      BothKeepsInv(y, a, D.SessionStep(l, a, e, t, ok), L.BeginSession(l, t));
    case Login(a, h, t, clock, ok) => LoginKeepsInv(y, a, h, t, clock, ok);
    case Ready(a, h, t, ok) => ReadyKeepsInv(y, a, h, t, ok);
    case Done(a, h) =>
      if a in y.agents && D.Next(y.desktop, D.SessionDone(a)) != y.desktop
         && L.Next(y.agents[a], L.CompleteRevocation(h)) != y.agents[a] {
        DoneAgrees(y.desktop, a, y.agents[a], h);
      }
      BothKeepsInv(y, a, D.SessionDone(a), L.CompleteRevocation(h));
  }

  lemma InvFacts(y: System)
    requires Inv(y)
    ensures D.Inv(y.desktop) && (forall a :: a in y.agents ==> L.Inv(y.agents[a]) && Agree(y.desktop, a, y.agents[a]))
    ensures forall l :: l in y.desktop.leases ==> y.desktop.leases[l].agent in y.agents
  {
  }

  lemma LoginKeepsInv(y: System, a: D.AgentId, h: L.HandlerId, t: int, clock: nat, ok: bool)
    requires Inv(y)
    ensures Inv(Next(y, Login(a, h, t, clock, ok)))
  {
    hide L.Next, D.Inv, L.Inv, Agree, Inv, Both;
    InvFacts(y);
    var s, g := D.LoginStep(a, LoginOf(y, a), t, ok), L.Reserve(h, t, clock);
    if a in y.agents && D.Next(y.desktop, s) != y.desktop && L.Next(y.agents[a], g) != y.agents[a] {
      LoginAgrees(y.desktop, a, y.agents[a], h, t, clock, ok);
    }
    BothKeepsInv(y, a, s, g);
  }

  lemma ReadyKeepsInv(y: System, a: D.AgentId, h: L.HandlerId, t: int, ok: bool)
    requires Inv(y)
    ensures Inv(Next(y, Ready(a, h, t, ok)))
  {
    hide L.Next, D.Inv, L.Inv, Agree, Inv, Both;
    InvFacts(y);
    var s, g := D.ReadyStep(a, LoginOf(y, a), t, ok), L.MarkReady(h, t);
    if a in y.agents && D.Next(y.desktop, s) != y.desktop && L.Next(y.agents[a], g) != y.agents[a] {
      ReadyAgrees(y.desktop, a, y.agents[a], h, t, ok);
    }
    BothKeepsInv(y, a, s, g);
  }

  lemma {:induction false} RunKeepsInv(now: int, moves: seq<Move>)
    ensures Inv(Run(Start(now), moves))
  {
    hide Next, D.Inv, L.Inv;
    if moves == [] {
      D.ReachableInv(now, []);
    } else {
      RunKeepsInv(now, moves[..|moves| - 1]);
      StepKeepsInv(Run(Start(now), moves[..|moves| - 1]), moves[|moves| - 1]);
    }
  }

  lemma GrantMoves(d: D.State, a: D.AgentId, x: L.System, l: D.LeaseId, until: nat, ok: bool)
    requires Agree(d, a, x) && D.Next(d, D.LeaseStep(l, a, until, ok)) != d
    ensures L.Next(x, L.OpenLease(l, d.epoch + 1, until)) != x
  {
    assert l in L.Next(x, L.OpenLease(l, d.epoch + 1, until)).leases && l !in x.leases;
  }

  lemma WithdrawMoves(d: D.State, a: D.AgentId, x: L.System, l: D.LeaseId)
    requires Agree(d, a, x) && l in d.leases && d.leases[l].agent == a && D.Next(d, D.EndLease(l)) != d
    ensures L.Next(x, L.EndLease(l)) != x
  {
    assert l in x.leases && x.leases[l].active && !L.Next(x, L.EndLease(l)).leases[l].active;
  }

  lemma BeginMoves(d: D.State, a: D.AgentId, x: L.System, l: D.LeaseId, e: nat, t: int, ok: bool)
    requires D.Inv(d) && Agree(d, a, x) && D.Next(d, D.SessionStep(l, a, e, t, ok)) != d
    ensures L.Next(x, L.BeginSession(l, t)) != x
  {
    hide D.Inv;
    if a in d.sessions {
      D.BeginSessionPassesGuard(d, l, a, e, t, ok);
    }
    assert L.Next(x, L.BeginSession(l, t)).row != x.row;
  }

  /**
   The desktop is never held up by the join: for an enrolled Agent its own statements take effect as
   they do alone.
   */
  lemma DesktopGoesItsWay(y: System, m: Move)
    requires Inv(y) && (m.Grant? || m.Withdraw? || m.Begin?) && (m.Withdraw? || m.agent in y.agents)
    ensures Next(y, m).desktop ==
              match m
              case Grant(l, a, x, ok) => D.Next(y.desktop, D.LeaseStep(l, a, x, ok))
              case Withdraw(l) => D.Next(y.desktop, D.EndLease(l))
              case Begin(l, a, e, t, ok) => D.Next(y.desktop, D.SessionStep(l, a, e, t, ok))
              case _ => y.desktop
  {
    hide L.Inv, D.Inv, Inv, Agree, L.Next, D.Next;
    InvFacts(y);
    var d := y.desktop;
    match m
    case Grant(l, a, x, ok) =>
      if D.Next(d, D.LeaseStep(l, a, x, ok)) != d {
        GrantMoves(d, a, y.agents[a], l, x, ok);
      }
    case Withdraw(l) =>
      WithdrawsKnown(d, l);
      if l in d.leases && D.Next(d, D.EndLease(l)) != d {
        WithdrawMoves(d, d.leases[l].agent, y.agents[d.leases[l].agent], l);
      }
    case Begin(l, a, e, t, ok) =>
      if D.Next(d, D.SessionStep(l, a, e, t, ok)) != d {
        BeginMoves(d, a, y.agents[a], l, e, t, ok);
      }
    case _ =>
  }

  lemma WithdrawsKnown(d: D.State, l: D.LeaseId)
    ensures l !in d.leases ==> D.Next(d, D.EndLease(l)) == d
  {
  }

  /**
   While a human connection is open, or a credential for one is reserved and not yet cleaned up,
   nothing of any Agent runs in the Guest and no login of any Agent could still be taken up.
   */
  lemma NoAgentRunsBesideHuman(now: int, moves: seq<Move>, a: D.AgentId)
    requires var y := Run(Start(now), moves); (D.AnyOpen(y.desktop) || y.desktop.hot != {}) && a in y.agents
    ensures var x := Run(Start(now), moves).agents[a]; F.Quiet(x.guest) && L.AllSpent(x)
  {
    hide L.Inv, F.Quiet, L.AllSpent, Next, D.Coherent, D.Ordered;
    RunKeepsInv(now, moves);
    var y := Run(Start(now), moves);
    var x := y.agents[a];
    assert D.Separated(y.desktop);
    assert x.row.Some? ==> x.row.value.state == L.Disabled_;
    L.InvEmpty(x);
  }
}
