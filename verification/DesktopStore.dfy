/**
 The store's transactions on one desktop, statement by statement.  A transaction that fails
 part-way rolls back: the tables are as before.  Every committed transaction is one step of the
 desktop's transition system, or a short run of them.
 */
module DesktopStore {
  import opened Common
  import opened NativeAccount
  import opened Desktop

  ghost predicate Reaches(d: State, e: State) { exists steps :: Run(d, steps) == e }

  lemma ReachesSelf(d: State)
    ensures Reaches(d, d)
  {
    assert Run(d, []) == d;
  }

  lemma ReachesNext(d: State, e: State, s: Step)
    requires Reaches(d, e)
    ensures Reaches(d, Next(e, s))
  {
    hide Next;
    var steps :| Run(d, steps) == e;
    assert (steps + [s])[..|steps|] == steps;
    assert Run(d, steps + [s]) == Next(e, s);
  }

  lemma ReachesKeepsInv(d: State, e: State)
    requires Inv(d) && Reaches(d, e)
    ensures Inv(e)
  {
    hide Inv, Next;
    var steps :| Run(d, steps) == e;
    RunKeepsInv(d, steps);
  }

  lemma NotAdmitted(row: Row, a: Row, q: Issuance)
    ensures BeginIssue(row, a, q.(admitted := false)).None?
  {
  }

  lemma IssueIsPending(row: Row, a: Row, q: Issuance)
    ensures BeginIssue(row, a, q).Some? ==>
              BeginIssue(row, a, q).value.operation == Issue && BeginIssue(row, a, q).value.state == Pending
  {
  }

  class Store {
    var accounts: map<UserId, Row>
    var connections: map<ConnId, ConnectionRow>
    var credentialIds: set<ConnId>
    var leases: map<LeaseId, Lease>
    var sessions: map<AgentId, Session>
    var epoch: nat
    var computer: Queue
    var identity: Queue
    var now: int
    var lock: Option<Lock>
    ghost var hot: set<UserId>
    ghost var heldSince: int

    ghost function View(): State
      reads this
    {
      State(accounts, connections, credentialIds, leases, sessions, epoch, computer, identity,
            now, lock, hot, heldSince)
    }

    /** Nobody else uses, holds or is about to open the desktop, and the connection id was never used. */
    method Unoccupied(u: UserId, q: Issuance) returns (free: bool)
      ensures free <==> q.connection !in connections && q.connection !in credentialIds
                         && !AnyOpen(View()) && !AnyLive(View())
                        && !LeaseInForce(View(), q.txNow) && !OtherReserved(View(), u)
    {
      if q.connection in connections || q.connection in credentialIds {
        return false;
      }
      if (exists c :: c in connections && IsOpen(connections[c].state))
         || (exists g :: g in sessions && Live(sessions[g].state)) {
        return false;
      }
      return !(exists l :: l in leases && leases[l].active && leases[l].expires > q.txNow)
             && !(exists v :: v in accounts && v != u && Reserved(accounts[v]));
    }

    /** `BeginNativeGuestCredential`. */
    method BeginCredential(u: UserId, a: Row, q: Issuance, authorized: bool) returns (r: Option<Row>)
      modifies this`accounts, this`credentialIds, this`hot, this`heldSince
      ensures View() == ReserveIssue(old(View()), u, a, q, authorized)
      ensures r.Some? ==>
                u in accounts && accounts[u] == r.value && r.value.operation == Issue && r.value.state == Pending
      ensures r.None? ==> View() == old(View())
    {
      hide BeginIssue;
      if u !in accounts {
        return None;
      }
      var free := Unoccupied(u, q);
      if !authorized || identity.requested > identity.completed || computer.requested > computer.completed || !free {
        NotAdmitted(accounts[u], a, q);
        return None;
      }
      r := BeginIssue(accounts[u], a, q.(admitted := true));
      IssueIsPending(accounts[u], a, q.(admitted := true));
      if r.Some? {
        accounts := accounts[u := r.value];
        credentialIds := credentialIds + {q.connection};
        hot, heldSince := hot + {u}, q.txNow;
      }
    }

    /**
     `completeNativeGuestAccountOperation` with its optional last statement: when the ticket of a
     Gateway connection cannot be minted, the acknowledgement and the connection are undone too.
     */
    method CompleteOperation(u: UserId, a: Row, t: int, eligible: bool, finalized: bool) returns (ok: bool)
      modifies this`accounts, this`connections, this`hot
      ensures ok ==>
                && View() == Acknowledge(old(View()), u, a, t, eligible) && u in accounts
                && accounts[u] == a.(state := Applied)
      ensures ok && a.operation == Issue ==>
                a.connection in connections && connections[a.connection] == ConnectionRow(u, Active)
      ensures !ok ==> View() == old(View())
      ensures !finalized ==> !ok
    {
      if u !in accounts {
        return false;
      }
      var savedAccounts, savedConnections := accounts, connections;
      var r := Complete(accounts[u], a, t, eligible && identity.requested <= identity.completed);
      if r.None? {
        return false;
      }
      accounts := accounts[u := r.value];
      if a.operation == Issue {
        if a.connection in connections {
          accounts := savedAccounts;
          return false;
        }
        connections := connections[a.connection := ConnectionRow(u, Active)];
      } else if a.connection in connections && connections[a.connection].user == u
                && IsOpen(connections[a.connection].state) {
        connections := connections[a.connection := ConnectionRow(u, Ended)];
      }
      if !finalized {
        accounts, connections := savedAccounts, savedConnections;
        return false;
      }
      hot := if a.operation == Issue then hot else hot - {u};
      return true;
    }

    /** An UPDATE that takes a lease out of `active`, with the row triggers it fires. */
    method EndLease(l: LeaseId)
      requires l in leases && leases[l].active
      modifies this`leases, this`epoch, this`computer, this`sessions
      ensures View() == CloseLease(old(View()), l)
    {
      epoch := epoch + 1;
      leases := leases[l := leases[l].(active := false, epoch := epoch)];
      computer := computer.(requested := computer.requested + 1);
      var todo := sessions.Keys;
      ghost var before := sessions;
      while todo != {}
        invariant todo <= before.Keys == sessions.Keys
        invariant forall g :: g in before ==>
          sessions[g] ==
            if g !in todo && before[g].lease == l && before[g].state in {Provisioning, Ready}
            then before[g].(state := Closing) else before[g]
        decreases todo
        modifies this`sessions
      {
        var g :| g in todo;
        todo := todo - {g};
        if sessions[g].lease == l && sessions[g].state in {Provisioning, Ready} {
          sessions := sessions[g := sessions[g].(state := Closing)];
        }
      }
      assert sessions == CloseLease(old(View()), l).sessions;
    }

    /** The first UPDATE of `CreateDesktopLease`: every active lease whose deadline has passed ends. */
    method ExpireLeases(t: int)
      modifies this`leases, this`epoch, this`computer, this`sessions
      ensures Reaches(old(View()), View()) && leases.Keys == old(leases).Keys && epoch >= old(epoch)
      ensures forall k :: k in leases ==> leases[k].active == (old(leases)[k].active && old(leases)[k].expires > t)
    {
      hide Next, Reaches, Run, CloseLease;
      ReachesSelf(View());
      var todo := leases.Keys;
      while todo != {}
        invariant todo <= leases.Keys == old(leases).Keys && epoch >= old(epoch)
        invariant Reaches(old(View()), View())
        invariant forall k :: k in leases ==>
          && leases[k].active == (old(leases)[k].active && (k in todo || old(leases)[k].expires > t))
          && leases[k].expires == old(leases)[k].expires
        decreases todo
      {
        var k :| k in todo;
        todo := todo - {k};
        if leases[k].active && leases[k].expires <= t {
          ghost var was := View();
          EndLease(k);
          EndLeaseFacts(was, k);
          ReachesNext(old(View()), was, Step.EndLease(k));
        }
      }
    }

    /** `CreateDesktopLease`: expire what ran out, then insert; a conflict undoes the expiries as well. */
    method CreateLease(l: LeaseId, agent: AgentId, expires: int, t: int, allowed: bool) returns (ok: bool)
      requires Inv(View())
      modifies this`leases, this`epoch, this`computer, this`sessions
      ensures Inv(View()) && Reaches(old(View()), View())
      ensures !ok ==> View() == old(View())
      ensures ok ==>
                && l !in old(leases) && leases.Keys == old(leases).Keys + {l}
                && leases[l] == Lease(agent, true, epoch, expires) && epoch > old(epoch)
      ensures ok ==>
                forall k :: k in old(leases) ==>
                  !leases[k].active && (old(leases)[k].active ==> old(leases)[k].expires <= t)
      ensures ok ==> !AnyOpen(View()) && !AnyReserved(View())
    {
      hide Inv, Next, Reaches, Run, OpenLease;
      ReachesSelf(View());
      if !allowed || (exists c :: c in connections && IsOpen(connections[c].state)) {
        return false;
      }
      var savedLeases, savedEpoch, savedComputer, savedSessions := leases, epoch, computer, sessions;
      ExpireLeases(t);
      if l in leases || (exists k :: k in leases && leases[k].active)
         || (exists u :: u in accounts && Reserved(accounts[u])) {
        leases, epoch, computer, sessions := savedLeases, savedEpoch, savedComputer, savedSessions;
        return false;
      }
      ghost var was := View();
      epoch := epoch + 1;
      leases := leases[l := Lease(agent, true, epoch, expires)];
      LeaseStepFacts(was, l, agent, expires);
      ReachesNext(old(View()), was, LeaseStep(l, agent, expires, true));
      ReachesKeepsInv(old(View()), View());
      return true;
    }

    /** `BeginAgentGuestSession`: the guarded read, then the row as it is or the upsert. */
    method BeginAgentSession(l: LeaseId, agent: AgentId, e: nat, t: int, allowed: bool) returns (r: Option<Session>)
      modifies this`sessions
      ensures View() == BeginSession(old(View()), l, agent, e, t, allowed)
      ensures r.Some? ==>
                && agent in sessions && r == Some(sessions[agent]) && r.value.lease == l
                && r.value.state in {Provisioning, Ready}
      ensures r.None? ==> View() == old(View())
    {
      if !allowed || l !in leases || leases[l].agent != agent || leases[l].epoch != e || !leases[l].active
         || leases[l].expires <= t {
        return None;
      }
      if (exists c :: c in connections && IsOpen(connections[c].state)) || computer.requested > computer.completed {
        return None;
      }
      if exists g :: g in sessions && InTheWay(sessions[g], l) {
        return None;
      }
      if agent in sessions {
        var item := sessions[agent];
        if item.lease == l && item.epoch == e && (item.state == Ready || item.state == Provisioning) {
          return Some(item);
        }
        if item.state != Disabled {
          return None;
        }
        sessions := sessions[agent := Session(l, e, item.generation + 1, 0, Provisioning)];
      } else {
        sessions := sessions[agent := Session(l, e, 1, 0, Provisioning)];
      }
      return Some(sessions[agent]);
    }
  }

  lemma EndLeaseFacts(d: State, l: LeaseId)
    requires l in d.leases && d.leases[l].active
    ensures Next(d, Step.EndLease(l)) == CloseLease(d, l)
    ensures CloseLease(d, l).epoch == d.epoch + 1
    ensures CloseLease(d, l).leases == d.leases[l := d.leases[l].(active := false, epoch := d.epoch + 1)]
  {
  }

  lemma LeaseStepFacts(d: State, l: LeaseId, agent: AgentId, expires: int)
    requires !AnyOpen(d) && l !in d.leases && !(exists k :: k in d.leases && d.leases[k].active) && !AnyReserved(d)
    ensures Next(d, LeaseStep(l, agent, expires, true))
            == d.(epoch := d.epoch + 1, leases := d.leases[l := Lease(agent, true, d.epoch + 1, expires)])
  {
  }
}
