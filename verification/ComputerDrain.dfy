/**
 Draining the Agent-authority queue of a desktop: read the pending revision, fence the Guest, close
 every Agent session that is on its way out, and only then acknowledge that same revision.  Leases
 may end at any moment meanwhile; nothing is acknowledged over their heads.
 */
module ComputerDrain {
  import D = Desktop

  ghost predicate AnyClosing(d: D.State) { exists a :: a in d.sessions && d.sessions[a].state == D.Closing }

  /** A session that still has to be closed is always announced by the queue. */
  ghost predicate ClosingQueued(d: D.State) {
    d.computer.completed <= d.computer.requested && (AnyClosing(d) ==> D.Outstanding(d.computer))
  }

  /** Every transaction but the acknowledgement itself keeps the announcement. */
  lemma StepKeepsClosingQueued(d: D.State, s: D.Step)
    requires ClosingQueued(d) && !s.ComputerDone?
    ensures ClosingQueued(D.Next(d, s))
  {
    hide D.ReserveIssue, D.Admits, D.Acknowledge;
    HumanStepsKeepQueue(d, s);
  }

  lemma HumanStepsKeepQueue(d: D.State, s: D.Step)
    ensures D.TouchesAccounts(s) ==>
              D.Next(d, s).sessions == d.sessions && D.Next(d, s).computer == d.computer
  {
  }

  /** What can commit while this handler holds the desktop lock. */
  predicate IsBackground(s: D.Step) { s.Pass? || s.EndLease? || s.RevokeConnection? || s.IdentityQueued? }

  predicate Background(steps: seq<D.Step>) { forall i :: 0 <= i < |steps| ==> IsBackground(steps[i]) }

  /** A background transaction either leaves the sessions alone or raises the requested revision. */
  lemma BackgroundRaises(d: D.State, s: D.Step)
    requires IsBackground(s)
    ensures var e := D.Next(d, s);
            && e.computer.completed == d.computer.completed && e.computer.requested >= d.computer.requested
            && (e.computer.requested == d.computer.requested ==> e.sessions == d.sessions)
            && e.sessions.Keys == d.sessions.Keys
  {
  }

  /** One Agent session's turn: what commits meanwhile, and whether the Guest confirmed the closure. */
  datatype Turn = Turn(meanwhile: seq<D.Step>, confirmed: bool)

  class Drain {
    var d: D.State

    method Interfere(steps: seq<D.Step>)
      requires D.Inv(d) && ClosingQueued(d) && Background(steps)
      modifies this
      ensures D.Inv(d) && ClosingQueued(d)
      ensures d.computer.completed == old(d.computer.completed) && d.computer.requested >= old(d.computer.requested)
      ensures d.computer.requested == old(d.computer.requested) ==> d.sessions == old(d.sessions)
      ensures d.sessions.Keys == old(d.sessions.Keys)
    {
      hide D.Next, D.Inv, ClosingQueued;
      for i := 0 to |steps|
        invariant D.Inv(d) && ClosingQueued(d)
        invariant d.computer.completed == old(d.computer.completed) && d.computer.requested >= old(d.computer.requested)
        invariant d.computer.requested == old(d.computer.requested) ==> d.sessions == old(d.sessions)
        invariant d.sessions.Keys == old(d.sessions.Keys)
      {
        D.StepKeepsInv(d, steps[i]);
        StepKeepsClosingQueued(d, steps[i]);
        BackgroundRaises(d, steps[i]);
        d := D.Next(d, steps[i]);
      }
    }

    /** `revokeAgentGuestSessions` over the sessions listed when it started. */
    method CloseSessions(agents: seq<D.AgentId>, turns: seq<Turn>, ghost revision: nat) returns (ok: bool)
      requires D.Inv(d) && ClosingQueued(d) && |turns| == |agents|
      requires (forall i :: 0 <= i < |turns| ==> Background(turns[i].meanwhile))
      requires d.computer.requested >= revision
      requires d.computer.requested == revision ==>
                 forall a :: a in d.sessions && d.sessions[a].state == D.Closing ==> a in agents
      modifies this
      ensures D.Inv(d) && ClosingQueued(d) && d.computer.completed == old(d.computer.completed)
      ensures d.computer.requested >= revision
      ensures ok && d.computer.requested == revision ==> !AnyClosing(d)
    {
      hide D.Next, D.Inv;
      for i := 0 to |agents|
        invariant D.Inv(d) && ClosingQueued(d)
        invariant d.computer.completed == old(d.computer.completed) && d.computer.requested >= revision
        invariant d.computer.requested == revision ==>
                    forall a :: a in d.sessions && d.sessions[a].state == D.Closing ==> a in agents[i..]
      {
        Interfere(turns[i].meanwhile);
        if agents[i] in d.sessions && d.sessions[agents[i]].state == D.Closing {
          if !turns[i].confirmed {
            return false;
          }
          D.StepKeepsInv(d, D.SessionDone(agents[i]));
          SessionDoneFacts(d, agents[i]);
          d := D.Next(d, D.SessionDone(agents[i]));
        }
        assert agents[i..] == [agents[i]] + agents[i + 1..];
      }
      return true;
    }

    /** `synchronizeComputerRevocation`. */
    method Synchronize(force: bool, before: seq<D.Step>, during: seq<D.Step>, fenced: bool,
        agents: seq<D.AgentId>, turns: seq<Turn>, after: seq<D.Step>)
      returns (ok: bool)
      requires D.Inv(d) && ClosingQueued(d) && Background(before) && Background(during) && Background(after)
      requires (forall a :: a in agents <==> a in d.sessions) && |turns| == |agents|
      requires (forall i :: 0 <= i < |turns| ==> Background(turns[i].meanwhile))
      modifies this
      ensures D.Inv(d) && ClosingQueued(d)
      ensures d.computer.completed == old(d.computer.completed) || d.computer.completed == d.computer.requested
      ensures d.computer.completed != old(d.computer.completed) ==> ok && !AnyClosing(d) && !D.Outstanding(d.computer)
      ensures ok && !force && old(D.Outstanding(d.computer)) ==> !AnyClosing(d) && !D.Outstanding(d.computer)
    {
      hide D.Next, D.Inv;
      Interfere(before);
      var pending := D.Outstanding(d.computer);
      var revision := d.computer.requested;
      if !pending && !force {
        return true;
      }
      Interfere(during);
      if !fenced {
        return false;
      }
      ok := CloseSessions(agents, turns, revision);
      if !ok {
        return false;
      }
      if pending {
        Interfere(after);
        if d.computer.requested != revision || d.computer.completed >= revision {
          return false;
        }
        CompletedFacts(d, revision);
        D.StepKeepsInv(d, D.ComputerDone(revision));
        d := D.Next(d, D.ComputerDone(revision));
      }
      return true;
    }
  }

  lemma SessionDoneFacts(d: D.State, a: D.AgentId)
    requires a in d.sessions && d.sessions[a].state == D.Closing && ClosingQueued(d)
    ensures D.Next(d, D.SessionDone(a)) == d.(sessions := d.sessions[a := d.sessions[a].(state := D.Disabled)])
    ensures ClosingQueued(D.Next(d, D.SessionDone(a)))
  {
  }

  lemma CompletedFacts(d: D.State, revision: nat)
    requires d.computer.requested == revision && d.computer.completed < revision
    ensures D.Next(d, D.ComputerDone(revision)) == d.(computer := D.Queue(revision, revision))
  {
  }
}
