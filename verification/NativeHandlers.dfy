/**
 The handlers that drive the credential protocol for the accounts of one desktop.  Each handler
 runs under the desktop lock, so the rows it reads stay as read until it changes them; the Guests
 meanwhile do whatever they like.  Every outcome of the network, of the Guest and of a database
 call is a parameter.
 */
module NativeHandlers {
  import opened Common
  import opened NativeAccount
  import opened GuestFence
  import opened NativeProtocol

  /** One credential command: what the Guests do before and after the receipt, and what comes back. */
  datatype Exchange = Exchange(
    supported: bool,
    before: seq<(UserId, GuestStep)>,
    receipt: bool,
    after: seq<(UserId, GuestStep)>,
    inspected: bool,
    inTime: bool,
    now: nat) // unix seconds

  ghost predicate Reaches(w: World, v: World) { exists steps :: Run(w, steps) == v }

  lemma ReachesSelf(w: World)
    ensures Reaches(w, w)
  {
    assert Run(w, []) == w;
  }

  lemma ReachesNext(w: World, v: World, s: Step)
    requires Reaches(w, v)
    ensures Reaches(w, Next(v, s))
  {
    var steps :| Run(w, steps) == v;
    RunConcat(w, steps, [s]);
    RunOne(v, s);
    assert Run(w, steps + [s]) == Next(v, s);
  }

  lemma ReachesTransitive(u: World, v: World, w: World)
    requires Reaches(u, v) && Reaches(v, w)
    ensures Reaches(u, w)
  {
    var a :| Run(u, a) == v;
    var b :| Run(v, b) == w;
    RunConcat(u, a, b);
    assert Run(u, a + b) == w;
  }

  /** What each step does to the parts a handler looks at. */
  lemma StepFacts(w: World, s: Step)
    ensures s.AtGuest? ==> Next(w, s) == w.(guest := Next(w, s).guest)
    ensures s.Send? && s.command == CommandOf(w.row)
            && (s.command in w.rights || (s.command.operation == Revoke && Durable(w, s.command))) ==>
              && Next(w, s).row == w.row && Next(w, s).acks == w.acks && Next(w, s).intents == w.intents
              && Next(w, s).sent == w.sent + [s.command]
    ensures s.Confirm? && s.command == CommandOf(w.row) && Durable(w, s.command) && Observe(w.guest).Some?
            && Converged(Observe(w.guest).value, s.command, s.now) ==>
              Next(w, s) == w.(acks := w.acks + {s.command})
    ensures s.Acknowledge? && s.snapshot == w.row && CommandOf(w.row) in w.acks
            && Complete(w.row, w.row, s.txNow, s.eligible).Some? ==>
              Next(w, s) == w.(row := w.row.(state := Applied))
    ensures s.ReserveRevoke? && s.snapshot == w.row && BeginRevoke(w.row, w.row, s.txNow).Some? ==>
              Next(w, s).row == BeginRevoke(w.row, w.row, s.txNow).value
    ensures s.ReserveRetire? && s.snapshot == w.row && BeginRetire(w.row, w.row, s.txNow).Some? ==>
              && Next(w, s).row == BeginRetire(w.row, w.row, s.txNow).value
              && CommandOf(Next(w, s).row) in Next(w, s).rights
    ensures s.ReserveIssue? && BeginIssue(w.row, s.snapshot, s.issuance).Some? ==>
              && Next(w, s).row == BeginIssue(w.row, s.snapshot, s.issuance).value
              && CommandOf(Next(w, s).row) in Next(w, s).rights
  {
  }

  lemma SafeFacts(w: World)
    requires Safe(w)
    ensures WellFormed(w.row) && (w.row.revision > 0 ==> Durable(w, CommandOf(w.row)))
    ensures w.row.state == Applied && w.row.operation == Revoke ==> Shut(w.guest)
    ensures w.row.state == Idle ==> w.guest.fence.None? && Shut(w.guest)
  {
  }

  /** The accounts of a desktop moved on; of their rows only that of `u` may have changed. */
  ghost predicate Moved(was: map<UserId, World>, now: map<UserId, World>, u: UserId) {
    && was.Keys == now.Keys
    && (forall v :: v in was ==> Reaches(was[v], now[v]))
    && (forall v :: v in was && v != u ==> now[v].row == was[v].row)
  }

  lemma MovedSelf(m: map<UserId, World>, u: UserId)
    ensures Moved(m, m, u)
  {
    forall v | v in m ensures Reaches(m[v], m[v]) { ReachesSelf(m[v]); }
  }

  lemma MovedStep(was: map<UserId, World>, now: map<UserId, World>, u: UserId, v: UserId, s: Step)
    requires Moved(was, now, u) && v in now && (v == u || s.AtGuest?)
    ensures Moved(was, now[v := Next(now[v], s)], u)
  {
    hide Next;
    ReachesNext(was[v], now[v], s);
    StepFacts(now[v], s);
  }

  lemma MovedTransitive(a: map<UserId, World>, b: map<UserId, World>, c: map<UserId, World>, u: UserId)
    requires Moved(a, b, u) && Moved(b, c, u)
    ensures Moved(a, c, u)
  {
    forall v | v in a ensures Reaches(a[v], c[v]) { ReachesTransitive(a[v], b[v], c[v]); }
  }

  /** The accounts are in reachable states and no two rows name the same connection. */
  ghost predicate Sound(m: map<UserId, World>) {
    && (forall u :: u in m ==> Safe(m[u]))
    && (forall u, v :: u in m && v in m && u != v && m[u].row.connection == m[v].row.connection ==>
          m[u].row.connection == NoConnection)
  }

  lemma SoundStep(m: map<UserId, World>, u: UserId, s: Step)
    requires Sound(m) && u in m && Next(m[u], s).row.connection == m[u].row.connection
    ensures Sound(m[u := Next(m[u], s)])
  {
    hide Next, Safe;
    StepKeepsSafe(m[u], s);
  }

  lemma SoundAt(m: map<UserId, World>, u: UserId)
    requires Sound(m) && u in m
    ensures WellFormed(m[u].row) && (m[u].row.revision > 0 ==> Durable(m[u], CommandOf(m[u].row)))
    ensures m[u].row.state == Applied && m[u].row.operation == Revoke ==> Shut(m[u].guest)
    ensures m[u].row.state == Idle ==> m[u].guest.fence.None? && Shut(m[u].guest)
  {
    hide Safe;
    SafeFacts(m[u]);
  }

  ghost predicate IdsRecorded(m: map<UserId, World>, ids: set<ConnId>) {
    forall u :: u in m ==> m[u].row.connection == NoConnection || m[u].row.connection in ids
  }

  lemma IdsKept(was: map<UserId, World>, now: map<UserId, World>, ids: set<ConnId>, u: UserId)
    requires IdsRecorded(was, ids) && Moved(was, now, u)
    requires u in was && now[u].row.connection == was[u].row.connection
    ensures IdsRecorded(now, ids)
  {
  }

  lemma SoundReserve(m: map<UserId, World>, ids: set<ConnId>, u: UserId, s: Step)
    requires Sound(m) && IdsRecorded(m, ids) && u in m && s.ReserveIssue? && s.issuance.connection !in ids
    requires BeginIssue(m[u].row, s.snapshot, s.issuance).Some?
    ensures Sound(m[u := Next(m[u], s)]) && IdsRecorded(m[u := Next(m[u], s)], ids + {s.issuance.connection})
    ensures Moved(m, m[u := Next(m[u], s)], u)
  {
    hide Next, Safe, Reaches;
    StepKeepsSafe(m[u], s);
    StepFacts(m[u], s);
    MovedSelf(m, u);
    MovedStep(m, m, u, u, s);
  }

  /** The deferred cleanup of a failed issue: whether the row could be read, and how its revocation was stored. */
  datatype Cleanup = Cleanup(read: bool, reserve: Commit, txNow: int)

  /** One account's turn in the recovery loop: the clock at its two checks and the outcome of each call. */
  datatype Check = Check(
    now: int, later: int, readable: bool, reserve: Commit, exchange: Exchange, complete: Commit, txNow: int)

  /** Nothing of the account waits for recovery, judged at `now`. */
  predicate InOrder(r: Row, m: map<ConnId, ConnectionRow>, now: int) {
    || r.state == Idle
    || (r.state == Applied && r.operation == Revoke)
    || (r.state == Applied && r.operation == Retire && Unexpired(r, now))
    || (&& r.state == Applied && r.operation == Issue && Unexpired(r, now)
        && r.connection in m && IsOpen(m[r.connection].state))
  }

  lemma StaysInOrder(was: map<UserId, World>, now: map<UserId, World>, before: map<ConnId, ConnectionRow>,
      after: map<ConnId, ConnectionRow>, u: UserId, v: UserId, t: int)
    requires Sound(was) && Moved(was, now, u) && u in was && v in was && u != v
    requires OnlyConnection(before, after, u, now[u].row.connection) && now[u].row.connection == was[u].row.connection
    requires InOrder(was[v].row, before, t)
    ensures InOrder(now[v].row, after, t)
  {
    hide Safe, Reaches;
    SoundAt(was, v);
  }

  lemma Continued(first: map<UserId, World>, was: map<UserId, World>, now: map<UserId, World>, u: UserId)
    requires first.Keys == was.Keys && (forall v :: v in was ==> Reaches(first[v], was[v])) && Moved(was, now, u)
    ensures first.Keys == now.Keys && (forall v :: v in now ==> Reaches(first[v], now[v]))
    ensures forall v :: v in now && v != u ==> now[v].row == was[v].row
  {
    hide Reaches;
    forall v | v in now ensures Reaches(first[v], now[v]) { ReachesTransitive(first[v], was[v], now[v]); }
  }

  /** Of the connections, at most the one named `c` of user `u` changed. */
  ghost predicate OnlyConnection(was: map<ConnId, ConnectionRow>, now: map<ConnId, ConnectionRow>, u: UserId,
      c: ConnId) {
    forall d :: d in was && (d != c || was[d].user != u) ==> d in now && now[d] == was[d]
  }

  /** The connection rows after acknowledging `a`: an issue inserts its own, a cleanup ends it. */
  function Acknowledged(m: map<ConnId, ConnectionRow>, a: Row, u: UserId): map<ConnId, ConnectionRow> {
    var c := a.connection;
    if a.operation == Issue then m[c := ConnectionRow(u, Active)]
    else if c in m && m[c].user == u && IsOpen(m[c].state) then m[c := ConnectionRow(u, Ended)]
    else m
  }

  lemma AcknowledgedConnections(m: map<ConnId, ConnectionRow>, a: Row, u: UserId)
    requires a.operation == Issue ==> a.connection !in m
    ensures OnlyConnection(m, Acknowledged(m, a, u), u, a.connection)
    ensures a.operation == Issue ==> Acknowledged(m, a, u) == m[a.connection := ConnectionRow(u, Active)]
    ensures a.operation != Issue && a.connection in m && m[a.connection].user == u ==>
              a.connection in Acknowledged(m, a, u) && !IsOpen(Acknowledged(m, a, u)[a.connection].state)
  {
  }

  /** A row of `guest_identity_revocations`, keyed by the user and the account name it was queued for. */
  datatype Binding = Binding(user: UserId, name: string)
  datatype Queued = Queued(requested: nat, completed: nat)
  datatype Item = Item(binding: Binding, revision: nat)

  /** One item's turn: the requests committed meanwhile and the outcome of each call. */
  datatype Turn = Turn(
    reserve: Commit, exchange: Exchange, complete: Commit, txNow: int,
    legacyDone: bool, arrivals: seq<Binding>, acknowledge: Commit)

  ghost predicate Counted(q: map<Binding, Queued>) { forall b :: b in q ==> q[b].completed <= q[b].requested }

  function Arrived(q: map<Binding, Queued>, b: Binding): map<Binding, Queued> {
    q[b := if b in q then q[b].(requested := q[b].requested + 1) else Queued(1, 0)]
  }

  /** The account holds no credential: none was ever issued, or its revocation converged at the Guest. */
  ghost predicate Withdrawn(m: map<UserId, World>, b: Binding) {
    b.user in m ==>
      && m[b.user].row.identity.username == b.name
      && (m[b.user].row.state == Idle || (m[b.user].row.state == Applied && m[b.user].row.operation == Revoke))
      && (m[b.user].row.state == Idle ==> m[b.user].guest.fence.None?) && Shut(m[b.user].guest)
  }

  /** A first row for the Guest as it is found. */
  function Fresh(g: Guest): World { Start(g.identity, 0).(guest := g) }

  lemma FreshIsSafe(g: Guest)
    requires GuestInv(g) && ValidIdentity(g.identity)
    ensures Safe(Fresh(g)) <==> g.fence.None? && Shut(g)
  {
  }

  lemma FreshIsSound(m: map<UserId, World>, u: UserId, g: Guest)
    requires Sound(m) && u !in m
    ensures Sound(m[u := Fresh(g)]) <==> Safe(Fresh(g))
  {
    hide Safe;
    var n := m[u := Fresh(g)];
    assert u in n && n[u] == Fresh(g) && n[u].row.connection == NoConnection;
    assert forall v :: v in m ==> v in n && n[v] == m[v];
  }

  /** Draining one binding cannot disturb another that is already withdrawn. */
  lemma Undisturbed(was: map<UserId, World>, now: map<UserId, World>, drained: Binding, b: Binding)
    requires Sound(now) && Moved(was, now, drained.user) && drained != b && Withdrawn(was, b)
    requires drained.user in now ==>
               now[drained.user].row != was[drained.user].row ==>
                 was[drained.user].row.identity.username == drained.name
    ensures Withdrawn(now, b)
  {
    hide Safe, Reaches;
    if b.user in now {
      SoundAt(now, b.user);
    }
  }

  class NativeServer {
    var queue: map<Binding, Queued>
    var worlds: map<UserId, World>
    var connections: map<ConnId, ConnectionRow>
    var credentialIds: set<ConnId> // every connection id a reservation ever used

    /** One protocol step of one account. */
    method Perform(u: UserId, s: Step)
      requires Sound(worlds) && u in worlds && Next(worlds[u], s).row.connection == worlds[u].row.connection
      modifies this`worlds
      ensures Sound(worlds) && Moved(old(worlds), worlds, u)
      ensures worlds == old(worlds)[u := Next(old(worlds)[u], s)]
    {
      hide Next, Safe, Reaches, Moved, Sound;
      MovedSelf(worlds, u);
      MovedStep(worlds, worlds, u, u, s);
      SoundStep(worlds, u, s);
      worlds := worlds[u := Next(worlds[u], s)];
    }

    /** The Guests act on their own; a delivery takes effect only for a command that was sent. */
    method Interfere(u: UserId, moves: seq<(UserId, GuestStep)>)
      requires Sound(worlds) && u in worlds
      modifies this`worlds
      ensures Sound(worlds) && Moved(old(worlds), worlds, u) && u in worlds
      ensures worlds[u] == old(worlds)[u].(guest := worlds[u].guest)
    {
      hide Next, Safe, Reaches, Moved, Sound;
      MovedSelf(worlds, u);
      for i := 0 to |moves|
        invariant Sound(worlds) && Moved(old(worlds), worlds, u) && u in worlds
        invariant worlds[u] == old(worlds)[u].(guest := worlds[u].guest)
      {
        var v, s := moves[i].0, AtGuest(moves[i].1);
        if v in worlds {
          StepFacts(worlds[v], s);
          MovedStep(old(worlds), worlds, u, v, s);
          SoundStep(worlds, v, s);
          worlds := worlds[v := Next(worlds[v], s)];
        }
      }
    }

    /** `ChangeNativeCredential`: one dispatch, an exact receipt, then an inspection that must show convergence. */
    method ChangeCredential(u: UserId, x: Exchange) returns (ok: bool)
      requires Sound(worlds) && u in worlds && worlds[u].row.revision > 0
      requires worlds[u].row.operation == Revoke || CommandOf(worlds[u].row) in worlds[u].rights
      modifies this`worlds
      ensures Sound(worlds) && Moved(old(worlds), worlds, u) && u in worlds
      ensures worlds[u].row == old(worlds[u].row)
      ensures || worlds[u].sent == old(worlds[u].sent)
              || worlds[u].sent == old(worlds[u].sent) + [CommandOf(worlds[u].row)]
      ensures ok ==> CommandOf(worlds[u].row) in worlds[u].acks && worlds[u].sent != old(worlds[u].sent)
    {
      hide Next, Safe, Reaches, Observe, Converged, ValidRequest, Moved, Sound;
      var q := CommandOf(worlds[u].row);
      MovedSelf(worlds, u);
      if !ValidRequest(q) || (q.operation != Revoke && (q.expires <= x.now || q.expires > x.now + 28_800))
         || !x.supported {
        return false;
      }
      SoundAt(worlds, u);
      StepFacts(worlds[u], Send(q));
      Perform(u, Send(q));
      ghost var was := worlds;
      Interfere(u, x.before);
      MovedTransitive(old(worlds), was, worlds, u);
      if !x.receipt {
        return false;
      }
      was := worlds;
      Interfere(u, x.after);
      MovedTransitive(old(worlds), was, worlds, u);
      var o := Observe(worlds[u].guest);
      if o.None? || !x.inspected || !Converged(o.value, q, x.now) {
        return false;
      }
      was := worlds;
      StepFacts(worlds[u], Confirm(q, x.now));
      Perform(u, Confirm(q, x.now));
      MovedTransitive(old(worlds), was, worlds, u);
      return x.inTime;
    }

    /** `completeNativeGuestAccountOperation`: the row and the connection row change in one transaction. */
    method CompleteOperation(u: UserId, txNow: int, eligible: bool, commit: Commit) returns (ok: bool)
      requires Sound(worlds) && u in worlds && CommandOf(worlds[u].row) in worlds[u].acks
      modifies this`worlds, this`connections
      ensures Sound(worlds) && Moved(old(worlds), worlds, u) && u in worlds
      ensures worlds[u].row == old(worlds[u].row) || worlds[u].row == old(worlds[u].row).(state := Applied)
      ensures ok ==> old(worlds[u].row).state == Pending && worlds[u].row.state == Applied
      ensures OnlyConnection(old(connections), connections, u, worlds[u].row.connection)
      ensures worlds[u].row == old(worlds[u].row) ==> connections == old(connections)
      ensures worlds[u].row != old(worlds[u].row) ==> connections == Acknowledged(old(connections), worlds[u].row, u)
      ensures ok && worlds[u].row.operation == Issue ==> worlds[u].row.connection !in old(connections)
    {
      hide Next, Safe, Reaches, Moved, Sound, Acknowledged;
      MovedSelf(worlds, u);
      var a := worlds[u].row;
      var r := Complete(a, a, txNow, eligible);
      if r.None? || commit == Refused || (a.operation == Issue && a.connection in connections) {
        return false;
      }
      StepFacts(worlds[u], Acknowledge(a, txNow, eligible));
      Perform(u, Acknowledge(a, txNow, eligible));
      AcknowledgedConnections(connections, worlds[u].row, u);
      connections := Acknowledged(connections, worlds[u].row, u);
      return commit == Committed;
    }

    /** `revokeNativeGuestAccount`, called with the row as read under the desktop lock. */
    method RevokeAccount(u: UserId, reserve: Commit, x: Exchange, complete: Commit, txNow: int) returns (ok: bool)
      requires Sound(worlds) && u in worlds
      modifies this`worlds, this`connections
      ensures Sound(worlds) && Moved(old(worlds), worlds, u) && u in worlds
      ensures ok ==> if old(worlds[u].row).state == Idle
                     then worlds[u].row == old(worlds[u].row) && worlds[u].guest.fence.None? && Shut(worlds[u].guest)
                     else worlds[u].row.state == Applied && worlds[u].row.operation == Revoke && Shut(worlds[u].guest)
      ensures worlds[u].row.connection == old(worlds[u].row.connection)
      ensures worlds[u].row.identity == old(worlds[u].row.identity)
      ensures OnlyConnection(old(connections), connections, u, worlds[u].row.connection)
      ensures old(worlds[u].row).state == Applied && old(worlds[u].row).operation == Revoke ==>
                worlds[u].row == old(worlds[u].row)
      ensures worlds[u].row == old(worlds[u].row) ==> connections == old(connections)
      ensures ok && worlds[u].row != old(worlds[u].row) ==>
                connections == Acknowledged(old(connections), worlds[u].row, u)
    {
      hide Next, Safe, Reaches, Moved, Sound, Shut, Observe, Closed, Acknowledged;
      MovedSelf(worlds, u);
      SoundAt(worlds, u);
      ghost var was := worlds;
      if worlds[u].row.state == Idle {
        Interfere(u, x.before);
        SoundAt(worlds, u);
        var o := Observe(worlds[u].guest);
        return o.Some? && x.inspected && o.value.identity == worlds[u].row.identity
               && o.value.lifecycle.None? && Closed(o.value);
      }
      if worlds[u].row.operation != Revoke {
        var r := BeginRevoke(worlds[u].row, worlds[u].row, txNow);
        if r.None? || reserve == Refused {
          return false;
        }
        StepFacts(worlds[u], ReserveRevoke(worlds[u].row, txNow));
        Perform(u, ReserveRevoke(worlds[u].row, txNow));
        if reserve != Committed {
          return false;
        }
      }
      was := worlds;
      var changed := ChangeCredential(u, x);
      MovedTransitive(old(worlds), was, worlds, u);
      if !changed {
        return false;
      }
      if worlds[u].row.state == Pending {
        was := worlds;
        ok := CompleteOperation(u, txNow, false, complete);
        MovedTransitive(old(worlds), was, worlds, u);
        SoundAt(worlds, u);
        return ok;
      }
      SoundAt(worlds, u);
      return true;
    }

    /** The inspection that stands in for a lost retirement receipt, and the acknowledgement it permits. */
    method InspectRetired(u: UserId, x: Exchange) returns (inspected: bool, retired: bool)
      requires Sound(worlds) && u in worlds && worlds[u].row.operation == Retire
      modifies this`worlds
      ensures Sound(worlds) && Moved(old(worlds), worlds, u) && u in worlds
      ensures worlds[u].row == old(worlds[u].row)
      ensures retired ==> inspected && CommandOf(worlds[u].row) in worlds[u].acks
    {
      hide Next, Safe, Reaches, Moved, Sound, Observe;
      MovedSelf(worlds, u);
      Interfere(u, x.before);
      var o := Observe(worlds[u].guest);
      if o.None? || !x.inspected {
        return false, false;
      }
      var q := CommandOf(worlds[u].row);
      if !Matches(o.value, q, Retired) || !Retained(o.value, x.now) {
        return true, false;
      }
      SoundAt(worlds, u);
      ghost var was := worlds;
      StepFacts(worlds[u], Confirm(q, x.now));
      Perform(u, Confirm(q, x.now));
      MovedTransitive(old(worlds), was, worlds, u);
      return true, true;
    }

    /** `retireNativeGuestConnection` for a connection row that is being revoked. */
    method RetireConnection(u: UserId, c: ConnId, terminate: bool, now: int, reserve: Commit, x: Exchange,
        complete: Commit, txNow: int)
      returns (ok: bool)
      requires Sound(worlds) && u in worlds && c in connections && connections[c] == ConnectionRow(u, Revoking)
      modifies this`worlds, this`connections
      ensures Sound(worlds) && Moved(old(worlds), worlds, u) && u in worlds
      ensures OnlyConnection(old(connections), connections, u, c)
      ensures ok ==>
                && worlds[u].row.connection == c && worlds[u].row.state == Applied
                && worlds[u].row.operation in {Retire, Revoke}
      ensures ok && worlds[u].row.operation == Retire ==> !terminate && Unexpired(worlds[u].row, now)
      ensures ok ==> c in connections
      ensures ok ==>
                (IsOpen(connections[c].state) <==>
                   old(worlds[u].row).state == Applied && old(worlds[u].row).operation == Revoke)
    {
      hide Next, Safe, Reaches, Moved, Sound, Acknowledged;
      MovedSelf(worlds, u);
      var a := worlds[u].row;
      SoundAt(worlds, u);
      if a.connection != c || a.state == Idle {
        return false;
      }
      if terminate || a.operation == Revoke || a.expires.None? || !(a.expires.value * SECOND > now) {
        ok := RevokeAccount(u, reserve, x, complete, txNow);
        if ok { AcknowledgedConnections(old(connections), worlds[u].row, u); }
        return ok;
      }
      ghost var was := worlds;
      if a.operation == Issue && a.state == Applied {
        var r := BeginRetire(a, a, txNow);
        if r.None? || reserve == Refused {
          return false;
        }
        StepFacts(worlds[u], ReserveRetire(a, txNow));
        Perform(u, ReserveRetire(a, txNow));
        if reserve != Committed {
          return false;
        }
        was := worlds;
        var changed := ChangeCredential(u, x);
        MovedTransitive(old(worlds), was, worlds, u);
        if !changed {
          return false;
        }
        was := worlds;
        ok := CompleteOperation(u, txNow, false, complete);
        MovedTransitive(old(worlds), was, worlds, u);
        AcknowledgedConnections(old(connections), worlds[u].row, u);
        return ok;
      }
      if a.operation == Retire {
        var inspected, retired := InspectRetired(u, x);
        if !inspected {
          return false;
        }
        if retired {
          if a.state == Pending {
            was := worlds;
            ok := CompleteOperation(u, txNow, false, complete);
            MovedTransitive(old(worlds), was, worlds, u);
            AcknowledgedConnections(old(connections), worlds[u].row, u);
            return ok;
          }
          if complete != Refused {
            connections := connections[c := ConnectionRow(u, Ended)];
          }
          return complete == Committed;
        }
      }
      was := worlds;
      ok := RevokeAccount(u, reserve, x, complete, txNow);
      if ok { AcknowledgedConnections(old(connections), worlds[u].row, u); }
      MovedTransitive(old(worlds), was, worlds, u);
    }

    /** `BeginNativeGuestCredential` inside its transaction; the credential id is recorded with it. */
    method ReserveCredential(u: UserId, a: Row, q: Issuance, commit: Commit) returns (ok: bool)
      requires Sound(worlds) && IdsRecorded(worlds, credentialIds) && u in worlds
      modifies this`worlds, this`credentialIds
      ensures Sound(worlds) && IdsRecorded(worlds, credentialIds) && Moved(old(worlds), worlds, u) && u in worlds
      ensures if BeginIssue(old(worlds[u].row), a, q).Some? && commit != Refused && q.connection !in old(credentialIds)
              then worlds[u].row == BeginIssue(old(worlds[u].row), a, q).value
                   && CommandOf(worlds[u].row) in worlds[u].rights
                   && credentialIds == old(credentialIds) + {q.connection} && ok == (commit == Committed)
              else !ok && worlds == old(worlds) && credentialIds == old(credentialIds)
    {
      hide Next, Safe, Reaches, Moved, Sound, IdsRecorded, BeginIssue;
      MovedSelf(worlds, u);
      if BeginIssue(worlds[u].row, a, q).None? || commit == Refused || q.connection in credentialIds {
        return false;
      }
      StepFacts(worlds[u], ReserveIssue(a, q));
      SoundReserve(worlds, credentialIds, u, ReserveIssue(a, q));
      worlds := worlds[u := Next(worlds[u], ReserveIssue(a, q))];
      credentialIds := credentialIds + {q.connection};
      return commit == Committed;
    }

    /** The deferred cleanup: if the row still holds the failed issue, make its revocation durable. */
    method CleanUpIssue(u: UserId, revision: nat, connection: ConnId, k: Cleanup)
      requires Sound(worlds) && u in worlds
      modifies this`worlds
      ensures Sound(worlds) && Moved(old(worlds), worlds, u) && u in worlds
      ensures worlds[u].row.connection == old(worlds[u].row.connection)
      ensures var r := old(worlds[u].row);
              && k.read && k.reserve != Refused && r.revision == revision && r.connection == connection
              && r.operation == Issue && revision < MAX_INT64 ==>
                worlds[u].row == r.(revision := r.revision + 1, operation := Revoke, state := Pending, expires := None)
    {
      hide Next, Safe, Reaches, Moved, Sound;
      MovedSelf(worlds, u);
      SoundAt(worlds, u);
      var r := worlds[u].row;
      if k.read && r.connection == connection && r.revision == revision && r.operation == Issue {
        if BeginRevoke(r, r, k.txNow).Some? && k.reserve != Refused {
          StepFacts(worlds[u], ReserveRevoke(r, k.txNow));
          Perform(u, ReserveRevoke(r, k.txNow));
        }
      }
    }

    /**
     `issueNativeGuestConnection`.  Success means an applied issue with its one active connection;
     after a failure the account is at a durable revocation of exactly that credential unless the
     reservation never took hold or the cleanup itself did not reach the database.
     */
    method IssueConnection(u: UserId, a: Row, q: Issuance, begin: Commit, x: Exchange, complete: Commit,
        txNow: int, eligible: bool, k: Cleanup)
      returns (ok: bool)
      requires Sound(worlds) && IdsRecorded(worlds, credentialIds) && u in worlds
      modifies this
      ensures Sound(worlds) && IdsRecorded(worlds, credentialIds) && Moved(old(worlds), worlds, u) && u in worlds
      ensures ok ==> BeginIssue(old(worlds[u].row), a, q).Some?
                     && worlds[u].row == BeginIssue(old(worlds[u].row), a, q).value.(state := Applied)
                     && q.connection !in old(connections)
                     && connections == old(connections)[q.connection := ConnectionRow(u, Active)]
      ensures !ok && begin == Committed && k.read && k.reserve != Refused && old(worlds[u].row.revision) + 1 < MAX_INT64
              && worlds[u].row != old(worlds[u].row) ==>
                && worlds[u].row.operation == Revoke && worlds[u].row.state == Pending
                && worlds[u].row.connection == q.connection
                && worlds[u].row.revision == old(worlds[u].row.revision) + 2
      ensures OnlyConnection(old(connections), connections, u, q.connection)
    {
      hide Next, Safe, Reaches, Moved, Sound, IdsRecorded, Acknowledged;
      MovedSelf(worlds, u);
      SoundAt(worlds, u);
      var reserved := ReserveCredential(u, a, q, begin);
      if !reserved {
        return false;
      }
      var issued := worlds[u].row;
      ghost var was := worlds;
      ghost var reservation := worlds;
      ok := false;
      var changed := ChangeCredential(u, x);
      MovedTransitive(old(worlds), was, worlds, u);
      if changed {
        was := worlds;
        ok := CompleteOperation(u, txNow, eligible, complete);
        MovedTransitive(old(worlds), was, worlds, u);
        MovedTransitive(reservation, was, worlds, u);
        if worlds[u].row != issued && q.connection !in old(connections) {
          AcknowledgedConnections(old(connections), worlds[u].row, u);
        }
      }
      if !ok {
        was := worlds;
        CleanUpIssue(u, issued.revision, issued.connection, k);
        MovedTransitive(old(worlds), was, worlds, u);
        MovedTransitive(reservation, was, worlds, u);
      }
      IdsKept(reservation, worlds, credentialIds, u);
    }

    /**
     `bindNativeGuestAccount` for a user without a row: the identity the Guest shows is pinned before
     its state is judged.  The new account joins the protocol exactly when the Guest holds no
     credential history and is closed; only then is it usable.
     */
    method BindFirst(u: UserId, g: Guest, inspected: bool, authorized: bool, commit: Commit) returns (ok: bool)
      requires Sound(worlds) && u !in worlds && GuestInv(g)
      modifies this`worlds
      ensures worlds == old(worlds) || worlds == old(worlds)[u := Fresh(g)]
      ensures worlds != old(worlds) ==> (Sound(worlds) <==> g.fence.None? && Shut(g))
      ensures ok ==> u in worlds && worlds[u] == Fresh(g) && Sound(worlds)
      ensures !inspected || !authorized || commit == Refused ==> worlds == old(worlds)
    {
      hide Safe;
      if !inspected || g.job.Some? || !ValidIdentity(g.identity) || !authorized || commit == Refused {
        return false;
      }
      FreshIsSafe(g);
      worlds := worlds[u := Fresh(g)];
      assert Sound(worlds) <==> Safe(Fresh(g)) by { FreshIsSound(old(worlds), u, g); }
      var o := Observe(g).value;
      return commit == Committed && o.lifecycle.None? && Closed(o);
    }

    /**
     `bindNativeGuestAccount` for an account already pinned: the row is usable for a new issue only
     if the inspected Guest shows exactly what the row says was settled.
     */
    method BindAccount(u: UserId, x: Exchange) returns (ok: bool)
      requires Sound(worlds) && u in worlds
      modifies this`worlds
      ensures Sound(worlds) && Moved(old(worlds), worlds, u) && u in worlds && worlds[u].row == old(worlds[u].row)
      ensures ok ==> Settled(worlds[u].row) && worlds[u].guest.job.None?
      ensures ok && worlds[u].row.state == Idle ==> worlds[u].guest.fence.None? && Shut(worlds[u].guest)
      ensures ok && worlds[u].row.operation == Revoke ==>
                worlds[u].guest.fence == Some(CompletedFence(CommandOf(worlds[u].row))) && Shut(worlds[u].guest)
      ensures ok && worlds[u].row.operation == Retire ==>
                && worlds[u].guest.fence == Some(CompletedFence(CommandOf(worlds[u].row)))
                && worlds[u].guest.fence.value.expires > x.now
    {
      hide Next, Safe, Reaches, Moved, Sound;
      Interfere(u, x.before);
      SoundAt(worlds, u);
      var a := worlds[u].row;
      var o := Observe(worlds[u].guest);
      if o.None? || !x.inspected || o.value.identity != a.identity {
        return false;
      }
      if a.state == Idle {
        return o.value.lifecycle.None? && Closed(o.value);
      }
      if a.state == Applied && a.operation == Revoke {
        return Matches(o.value, CommandOf(a), Revoked) && Closed(o.value);
      }
      if a.state == Applied && a.operation == Retire {
        return Matches(o.value, CommandOf(a), Retired) && Retained(o.value, x.now);
      }
      return false;
    }

    /** `recoverNativeAccountsForDesktop`: the loop over the accounts listed when it started. */
    method RecoverAccounts(users: seq<UserId>, checks: seq<Check>) returns (ok: bool)
      requires Sound(worlds)
      requires |checks| == |users| && (forall i :: 0 <= i < |checks| ==> checks[i].now <= checks[i].later)
      requires (forall i, j :: 0 <= i < j < |users| ==> users[i] != users[j])
      requires (forall u :: u in users <==> u in worlds)
      modifies this`worlds, this`connections
      ensures Sound(worlds) && worlds.Keys == old(worlds).Keys
      ensures forall u :: u in worlds ==> Reaches(old(worlds)[u], worlds[u])
      ensures ok ==> forall i :: 0 <= i < |users| ==> InOrder(worlds[users[i]].row, connections, checks[i].now)
    {
      hide Next, Safe, Reaches, Sound, Moved, InOrder;
      forall u | u in worlds ensures Reaches(worlds[u], worlds[u]) { ReachesSelf(worlds[u]); }
      for i := 0 to |users|
        invariant Sound(worlds) && worlds.Keys == old(worlds).Keys
        invariant forall u :: u in worlds ==> Reaches(old(worlds)[u], worlds[u])
        invariant forall j :: i <= j < |users| ==> worlds[users[j]].row == old(worlds)[users[j]].row
        invariant forall j :: 0 <= j < i ==> InOrder(worlds[users[j]].row, connections, checks[j].now)
      {
        ghost var wasWorlds, wasConnections := worlds, connections;
        var settled := RecoverAccount(users[i], checks[i]);
        Continued(old(worlds), wasWorlds, worlds, users[i]);
        if !settled {
          return false;
        }
        forall j | 0 <= j < i ensures InOrder(worlds[users[j]].row, connections, checks[j].now) {
          StaysInOrder(wasWorlds, worlds, wasConnections, connections, users[i], users[j], checks[j].now);
        }
      }
      return true;
    }

    /** One iteration of the loop. */
    method RecoverAccount(u: UserId, k: Check) returns (ok: bool)
      requires Sound(worlds) && u in worlds && k.now <= k.later
      modifies this`worlds, this`connections
      ensures Sound(worlds) && Moved(old(worlds), worlds, u) && u in worlds
      ensures OnlyConnection(old(connections), connections, u, worlds[u].row.connection)
      ensures worlds[u].row.connection == old(worlds[u].row.connection)
      ensures ok ==> InOrder(worlds[u].row, connections, k.now)
    {
      hide Next, Safe, Reaches, Sound, Moved, Acknowledged;
      MovedSelf(worlds, u);
      SoundAt(worlds, u);
      var a := worlds[u].row;
      var due := a.state == Pending || (a.expires.Some? && !(a.expires.value * SECOND > k.now));
      if !due && a.operation == Issue && a.state == Applied {
        if !k.readable {
          return false;
        }
        due := a.connection !in connections || !IsOpen(connections[a.connection].state);
      }
      if !due {
        return true;
      }
      ghost var was := worlds;
      if a.state == Pending && a.operation == Retire && a.expires.Some? && a.expires.value * SECOND > k.later {
        var inspected, retired := InspectRetired(u, k.exchange);
        if !inspected {
          return false;
        }
        if retired {
          was := worlds;
          ok := CompleteOperation(u, k.txNow, false, k.complete);
          MovedTransitive(old(worlds), was, worlds, u);
          return ok;
        }
      }
      was := worlds;
      ok := RevokeAccount(u, k.reserve, k.exchange, k.complete, k.txNow);
      MovedTransitive(old(worlds), was, worlds, u);
    }

    /** New revocation requests commit while a handler works. */
    method Enqueue(arrivals: seq<Binding>)
      requires Counted(queue)
      modifies this`queue
      ensures Counted(queue) && old(queue).Keys <= queue.Keys
      ensures forall b :: b in old(queue) ==>
                queue[b].completed == old(queue)[b].completed && queue[b].requested >= old(queue)[b].requested
      ensures forall b :: b in old(queue) && b in arrivals ==> queue[b].requested > old(queue)[b].requested
      ensures forall b :: b in queue && b !in old(queue) ==> queue[b].completed == 0
    {
      for i := 0 to |arrivals|
        invariant Counted(queue) && old(queue).Keys <= queue.Keys
        invariant forall b :: b in old(queue) ==>
                    queue[b].completed == old(queue)[b].completed && queue[b].requested >= old(queue)[b].requested
        invariant forall b :: b in old(queue) && b in arrivals[..i] ==> queue[b].requested > old(queue)[b].requested
        invariant forall b :: b in queue && b !in old(queue) ==> queue[b].completed == 0
      {
        queue := Arrived(queue, arrivals[i]);
        assert arrivals[..i + 1] == arrivals[..i] + [arrivals[i]];
      }
    }

    /** One item: withdraw the account, then acknowledge exactly the revision that was read before. */
    method DrainIdentity(item: Item, t: Turn) returns (ok: bool)
      requires Sound(worlds) && Counted(queue) && item.binding in queue
      requires item.revision <= queue[item.binding].requested
      modifies this`worlds, this`connections, this`queue
      ensures Sound(worlds) && Moved(old(worlds), worlds, item.binding.user)
      ensures item.binding.user in worlds ==>
                && worlds[item.binding.user].row.identity == old(worlds)[item.binding.user].row.identity
                && (worlds[item.binding.user].row != old(worlds)[item.binding.user].row ==>
                      worlds[item.binding.user].row.identity.username == item.binding.name)
      ensures Counted(queue) && old(queue).Keys <= queue.Keys
      ensures forall b :: b in old(queue) ==> queue[b].requested >= old(queue)[b].requested
      ensures forall b :: b in old(queue) && b != item.binding ==> queue[b].completed == old(queue)[b].completed
      ensures forall b :: b in queue && b !in old(queue) ==> queue[b].completed == 0
      ensures if queue[item.binding].completed != old(queue)[item.binding].completed
              then queue[item.binding].completed == item.revision == old(queue)[item.binding].requested
                   && Withdrawn(worlds, item.binding) && item.binding !in t.arrivals
              else !ok
    {
      hide Next, Safe, Reaches, Sound, Moved, Shut, Acknowledged;
      var u := item.binding.user;
      MovedSelf(worlds, u);
      if u in worlds {
        if worlds[u].row.identity.username != item.binding.name {
          return false;
        }
        var revoked := RevokeAccount(u, t.reserve, t.exchange, t.complete, t.txNow);
        Enqueue(t.arrivals);
        if !revoked {
          return false;
        }
      } else {
        Enqueue(t.arrivals);
        if !t.legacyDone {
          return false;
        }
      }
      if t.acknowledge == Refused || queue[item.binding].requested != item.revision
         || queue[item.binding].completed >= item.revision {
        return false;
      }
      queue := queue[item.binding := Queued(item.revision, item.revision)];
      connections := map c | c in connections ::
        if connections[c].user == u && IsOpen(connections[c].state)
        then connections[c].(state := Ended) else connections[c];
      return t.acknowledge == Committed;
    }

    /**
     `revokeGuestIdentitiesForDesktop` over the items read when it started.  However it ends, and
     whatever was requested meanwhile, a counter moved only to the revision that was read, only if
     no newer request had arrived, and only for an account that is withdrawn.
     */
    method DrainIdentities(items: seq<Item>, turns: seq<Turn>) returns (ok: bool)
      requires Sound(worlds) && Counted(queue) && |turns| == |items|
      requires forall i, j :: 0 <= i < j < |items| ==> items[i].binding != items[j].binding
      requires forall i :: 0 <= i < |items| ==>
                 items[i].binding in queue && items[i].revision <= queue[items[i].binding].requested
      modifies this`worlds, this`connections, this`queue
      ensures Sound(worlds) && worlds.Keys == old(worlds).Keys
      ensures (forall u :: u in worlds ==> Reaches(old(worlds)[u], worlds[u]))
      ensures Counted(queue) && old(queue).Keys <= queue.Keys
      ensures forall b :: b in old(queue) ==> queue[b].requested >= old(queue)[b].requested
      ensures forall b :: b in old(queue) && queue[b].completed != old(queue)[b].completed ==>
                Withdrawn(worlds, b) && exists i :: 0 <= i < |items| && items[i] == Item(b, queue[b].completed)
      ensures ok ==>
                forall i :: 0 <= i < |items| ==>
                  queue[items[i].binding].completed == items[i].revision && Withdrawn(worlds, items[i].binding)
    {
      hide Next, Safe, Reaches, Sound, Moved, Withdrawn;
      forall u | u in worlds ensures Reaches(worlds[u], worlds[u]) { ReachesSelf(worlds[u]); }
      for i := 0 to |items|
        invariant Sound(worlds) && worlds.Keys == old(worlds).Keys
        invariant (forall u :: u in worlds ==> Reaches(old(worlds)[u], worlds[u]))
        invariant Counted(queue) && old(queue).Keys <= queue.Keys
        invariant forall b :: b in old(queue) ==> queue[b].requested >= old(queue)[b].requested
        invariant forall b :: b in old(queue) && (forall j :: 0 <= j < i ==> items[j].binding != b) ==>
                    queue[b].completed == old(queue)[b].completed
        invariant forall j :: 0 <= j < i ==>
                    queue[items[j].binding].completed == items[j].revision && Withdrawn(worlds, items[j].binding)
      {
        ghost var was := worlds;
        ok := DrainIdentity(items[i], turns[i]);
        Continued(old(worlds), was, worlds, items[i].binding.user);
        forall j | 0 <= j < i ensures Withdrawn(worlds, items[j].binding) {
          Undisturbed(was, worlds, items[i].binding, items[j].binding);
        }
        if !ok {
          return false;
        }
      }
      return true;
    }
  }
}
