/**
 The database rows of one Linux desktop that decide who may control it: Native accounts and their
 connections on the human side, leases and Guest sessions on the Agent side, and the per-desktop
 lock.  A step is one committed transaction.  A transaction compares deadlines with the time it
 STARTED, which may lie well before the moment it is serialized.
 */
module Desktop {
  import opened Common
  import opened NativeAccount

  type AgentId = nat
  type LeaseId = nat

  datatype Lease = Lease(agent: AgentId, active: bool, epoch: nat, expires: int)

  datatype SessionState = Provisioning | Ready | Closing | Disabled
  datatype Session = Session(lease: LeaseId, epoch: nat, generation: nat, login: nat, state: SessionState)

  /** Which kind of handler holds the desktop lock, and since when. */
  datatype Task = Connect | Act | Maintain
  datatype Lock = Lock(task: Task, since: int)

  datatype Queue = Queue(requested: nat, completed: nat)

  datatype State = State(
    accounts: map<UserId, Row>,
    connections: map<ConnId, ConnectionRow>,
    credentialIds: set<ConnId>,
    leases: map<LeaseId, Lease>,
    sessions: map<AgentId, Session>,
    epoch: nat,
    computer: Queue,              // desktop_computer_revocations
    identity: Queue,              // guest_identity_revocations, summed over the desktop
    now: int,
    lock: Option<Lock>,
    hot: set<UserId>,             // users issued to since their last settled cleanup
    heldSince: int)               // start of the transaction behind the latest human reservation

  predicate Live(s: SessionState) { s != Disabled }
  predicate Outstanding(q: Queue) { q.requested > q.completed }

  predicate AnyOpen(d: State) { exists c :: c in d.connections && IsOpen(d.connections[c].state) }
  predicate AnyLive(d: State) { exists a :: a in d.sessions && Live(d.sessions[a].state) }
  predicate AnyReserved(d: State) { exists u :: u in d.accounts && Reserved(d.accounts[u]) }

  /** A pending operation or a live credential: what keeps Agent leases and other users away. */
  predicate Reserved(r: Row) { r.state == Pending || (r.operation == Issue && r.state == Applied) }

  predicate LeaseInForce(d: State, t: int) {
    exists l :: l in d.leases && d.leases[l].active && d.leases[l].expires > t
  }
  predicate OtherReserved(d: State, u: UserId) { exists v :: v in d.accounts && v != u && Reserved(d.accounts[v]) }

  /** The transaction ran inside the current tenure of the lock by a handler of this kind. */
  predicate Within(d: State, task: Task, start: int) {
    d.lock.Some? && d.lock.value.task == task && d.lock.value.since <= start <= d.now
  }

  // Human side ------------------------------------------------------------------------------------

  /** Everything the reservation of a credential demands of the rest of the desktop. */
  predicate Admits(d: State, u: UserId, q: Issuance, authorized: bool) {
    && authorized && !Outstanding(d.identity) && !Outstanding(d.computer)
    && q.connection !in d.connections && !AnyOpen(d) && !AnyLive(d)
    && !LeaseInForce(d, q.txNow) && !OtherReserved(d, u) && q.connection !in d.credentialIds
  }

  function ReserveIssue(d: State, u: UserId, a: Row, q: Issuance, authorized: bool): State {
    if u !in d.accounts then d
    else
      var r := BeginIssue(d.accounts[u], a, q.(admitted := Admits(d, u, q, authorized)));
      if r.None? then d
      else d.(accounts := d.accounts[u := r.value], credentialIds := d.credentialIds + {q.connection},
              hot := d.hot + {u}, heldSince := q.txNow)
  }

  function ReserveRetire(d: State, u: UserId, a: Row, t: int): State {
    if u !in d.accounts then d
    else
      var r := BeginRetire(d.accounts[u], a, t);
      if r.None? then d else d.(accounts := d.accounts[u := r.value])
  }

  function ReserveRevoke(d: State, u: UserId, a: Row, t: int): State {
    if u !in d.accounts then d
    else
      var r := BeginRevoke(d.accounts[u], a, t);
      if r.None? then d else d.(accounts := d.accounts[u := r.value])
  }

  /** The acknowledgement and the connection row change together or not at all. */
  function Acknowledge(d: State, u: UserId, a: Row, t: int, eligible: bool): State {
    if u !in d.accounts then d
    else
      var r := Complete(d.accounts[u], a, t, eligible && !Outstanding(d.identity));
      if r.None? then d
      else
        var c := r.value.connection;
        if r.value.operation == Issue then
          if c in d.connections then d
          else d.(accounts := d.accounts[u := r.value], connections := d.connections[c := ConnectionRow(u, Active)])
        else
          d.(accounts := d.accounts[u := r.value], hot := d.hot - {u},
             connections := if c in d.connections && d.connections[c].user == u && IsOpen(d.connections[c].state)
                            then d.connections[c := ConnectionRow(u, Ended)] else d.connections)
  }

  function MarkRevoking(d: State, c: ConnId): State {
    if c in d.connections && d.connections[c].state == Active
    then d.(connections := d.connections[c := d.connections[c].(state := Revoking)]) else d
  }

  function MarkEnded(d: State, c: ConnId): State {
    if c in d.connections && IsOpen(d.connections[c].state)
    then d.(connections := d.connections[c := d.connections[c].(state := Ended)]) else d
  }

  // Agent side ------------------------------------------------------------------------------------

  /** The insert of a lease once no active one is left; the database rejects it beside a reservation. */
  function OpenLease(d: State, l: LeaseId, agent: AgentId, expires: int, allowed: bool): State {
    if !allowed || AnyOpen(d) || l in d.leases || (exists k :: k in d.leases && d.leases[k].active) || AnyReserved(d)
    then d
    else d.(epoch := d.epoch + 1, leases := d.leases[l := Lease(agent, true, d.epoch + 1, expires)])
  }

  /** A lease leaves `active`: new epoch, cleanup queued, and its Guest session starts closing. */
  function CloseLease(d: State, l: LeaseId): State {
    if l !in d.leases || !d.leases[l].active then d
    else d.(epoch := d.epoch + 1,
            leases := d.leases[l := d.leases[l].(active := false, epoch := d.epoch + 1)],
            computer := d.computer.(requested := d.computer.requested + 1),
            sessions := map a | a in d.sessions ::
              if d.sessions[a].lease == l && d.sessions[a].state in {Provisioning, Ready}
              then d.sessions[a].(state := Closing) else d.sessions[a])
  }

  /** A session that keeps a new one of lease `l` from beginning. */
  predicate InTheWay(s: Session, l: LeaseId) {
    s.state == Closing || (s.state in {Provisioning, Ready} && s.lease != l)
  }

  /** `BeginAgentGuestSession` for lease `l` held by `agent` at `epoch`. */
  function BeginSession(d: State, l: LeaseId, agent: AgentId, epoch: nat, t: int, allowed: bool): State {
    if !allowed || l !in d.leases || d.leases[l].agent != agent || d.leases[l].epoch != epoch
       || !d.leases[l].active || d.leases[l].expires <= t || AnyOpen(d) || Outstanding(d.computer)
       || (exists a :: a in d.sessions && InTheWay(d.sessions[a], l))
    then d
    else if agent in d.sessions && d.sessions[agent].lease == l && d.sessions[agent].epoch == epoch
            && d.sessions[agent].state in {Provisioning, Ready}
    then d
    else if agent in d.sessions && d.sessions[agent].state != Disabled then d
    else d.(sessions := d.sessions[agent :=
              Session(l, epoch, if agent in d.sessions then d.sessions[agent].generation + 1 else 1, 0, Provisioning)])
  }

  predicate LeaseBacks(d: State, agent: AgentId, t: int) {
    && agent in d.sessions && d.sessions[agent].state in {Provisioning, Ready}
    && var l := d.sessions[agent].lease;
       l in d.leases && d.leases[l].active && d.leases[l].epoch == d.sessions[agent].epoch && d.leases[l].expires > t
  }

  /** `BeginAgentGuestLogin`, against the login generation the caller last saw. */
  function BeginLogin(d: State, agent: AgentId, login: nat, t: int, allowed: bool): State {
    if !allowed || login >= MAX_INT64 || !LeaseBacks(d, agent, t) || d.sessions[agent].login != login then d
    else d.(sessions := d.sessions[agent := d.sessions[agent].(login := login + 1, state := Provisioning)])
  }

  /** `MarkAgentGuestSessionReady`. */
  function MarkReady(d: State, agent: AgentId, login: nat, t: int, allowed: bool): State {
    if !allowed || login < 1 || !LeaseBacks(d, agent, t) || d.sessions[agent].login != login then d
    else d.(sessions := d.sessions[agent := d.sessions[agent].(state := Ready)])
  }

  /** `CompleteAgentGuestSessionRevocation`. */
  function FinishSession(d: State, agent: AgentId): State {
    if agent in d.sessions && d.sessions[agent].state == Closing
    then d.(sessions := d.sessions[agent := d.sessions[agent].(state := Disabled)]) else d
  }

  // The transition system -------------------------------------------------------------------------

  datatype Step =
    | Pass(time: nat)
    | Acquire(task: Task)
    | Release
    | Bind(user: UserId, identity: Identity)
    | IssueStep(user: UserId, snapshot: Row, issuance: Issuance, authorized: bool)
    | RetireStep(user: UserId, snapshot: Row, start: int)
    | RevokeStep(user: UserId, snapshot: Row, start: int)
    | AcknowledgeStep(user: UserId, snapshot: Row, start: int, eligible: bool)
    | RevokeConnection(connection: ConnId)
    | EndConnection(connection: ConnId)
    | LeaseStep(lease: LeaseId, agent: AgentId, expires: int, allowed: bool)
    | EndLease(lease: LeaseId)
    | SessionStep(lease: LeaseId, agent: AgentId, sessionEpoch: nat, start: int, allowed: bool)
    | LoginStep(agent: AgentId, login: nat, start: int, allowed: bool)
    | ReadyStep(agent: AgentId, login: nat, start: int, allowed: bool)
    | SessionDone(agent: AgentId)
    | ComputerDone(revision: nat)
    | IdentityQueued
    | IdentityDone(revision: nat)

  /** The lock is demanded only where the handlers' exclusion depends on it. */
  function Next(d: State, s: Step): State {
    match s
    case Pass(t) => d.(now := d.now + t)
    case Acquire(task) => if d.lock.None? then d.(lock := Some(Lock(task, d.now))) else d
    case Release => d.(lock := None)
    case Bind(u, id) => if u !in d.accounts && ValidIdentity(id) then d.(accounts := d.accounts[u := Bound(id)]) else d
    case IssueStep(u, a, q, ok) => if Within(d, Connect, q.txNow) then ReserveIssue(d, u, a, q, ok) else d
    case RetireStep(u, a, t) => ReserveRetire(d, u, a, t)
    case RevokeStep(u, a, t) => ReserveRevoke(d, u, a, t)
    case AcknowledgeStep(u, a, t, ok) => Acknowledge(d, u, a, t, ok)
    case RevokeConnection(c) => MarkRevoking(d, c)
    case EndConnection(c) => MarkEnded(d, c)
    case LeaseStep(l, a, e, ok) => OpenLease(d, l, a, e, ok)
    case EndLease(l) => CloseLease(d, l)
    case SessionStep(l, a, e, t, ok) => if Within(d, Act, t) then BeginSession(d, l, a, e, t, ok) else d
    case LoginStep(a, g, t, ok) => BeginLogin(d, a, g, t, ok)
    case ReadyStep(a, g, t, ok) => MarkReady(d, a, g, t, ok)
    case SessionDone(a) => FinishSession(d, a)
    case ComputerDone(r) =>
      if d.computer.requested == r && d.computer.completed < r then d.(computer := d.computer.(completed := r)) else d
    case IdentityQueued => d.(identity := d.identity.(requested := d.identity.requested + 1))
    case IdentityDone(r) =>
      if d.identity.requested == r && d.identity.completed < r then d.(identity := d.identity.(completed := r)) else d
  }

  function Start(now: int): State {
    State(map[], map[], {}, map[], map[], 1, Queue(0, 0), Queue(0, 0), now, None, {}, now)
  }

  function Run(d: State, steps: seq<Step>): State {
    if steps == [] then d else Next(Run(d, steps[..|steps| - 1]), steps[|steps| - 1])
  }

  // Invariants ------------------------------------------------------------------------------------

  /** Every account row is well formed and its connection id is recorded. */
  ghost predicate RowsRecorded(d: State) {
    forall u :: u in d.accounts ==>
      WellFormed(d.accounts[u]) && (d.accounts[u].revision > 0 ==> d.accounts[u].connection in d.credentialIds)
  }

  ghost predicate ConnectionsRecorded(d: State) { forall c :: c in d.connections ==> c in d.credentialIds }

  ghost predicate IdsUnique(d: State) {
    forall u, v :: u in d.accounts && v in d.accounts && u != v && d.accounts[u].revision > 0 ==>
      d.accounts[u].connection != d.accounts[v].connection
  }

  /** A credential behind an open connection: live, or with its cleanup under way. */
  predicate BehindOpen(r: Row, c: ConnId) {
    && r.connection == c
    && ((r.operation == Issue && r.state == Applied) || (r.operation in {Retire, Revoke} && r.state == Pending))
  }

  /** An open connection is its owner's current credential. */
  ghost predicate OpenIsCurrent(d: State) {
    forall c :: c in d.connections && IsOpen(d.connections[c].state) ==>
      d.connections[c].user in d.accounts && BehindOpen(d.accounts[d.connections[c].user], c)
  }

  ghost predicate OneOpen(d: State) {
    forall c, e | c in d.connections && e in d.connections ::
      IsOpen(d.connections[c].state) && IsOpen(d.connections[e].state) ==> c == e
  }

  /** At most one user is hot; the row of a hot user is reserved, and an issued row belongs to a hot user. */
  ghost predicate OneHot(d: State) {
    && (forall u, v :: u in d.hot && v in d.hot ==> u == v)
    && (forall u :: u in d.hot ==> u in d.accounts && Reserved(d.accounts[u]))
    && (forall u :: u in d.accounts && d.accounts[u].operation == Issue ==> u in d.hot)
  }

  /** While a credential is being installed nothing is open. */
  ghost predicate PendingIssueAlone(d: State) {
    forall u, c ::
      u in d.accounts && d.accounts[u].operation == Issue && d.accounts[u].state == Pending && c in d.connections ==>
        !IsOpen(d.connections[c].state)
  }

  ghost predicate Coherent(d: State) {
    && RowsRecorded(d) && ConnectionsRecorded(d) && IdsUnique(d)
    && OpenIsCurrent(d) && OneOpen(d) && OneHot(d) && PendingIssueAlone(d)
  }

  ghost predicate OneActiveLease(d: State) {
    forall k, l :: k in d.leases && l in d.leases && d.leases[k].active && d.leases[l].active ==> k == l
  }

  ghost predicate EpochsBounded(d: State) { forall l :: l in d.leases ==> d.leases[l].epoch <= d.epoch }

  predicate SessionBacked(d: State, a: AgentId, s: Session) {
    && s.lease in d.leases && d.leases[s.lease].agent == a && s.epoch <= d.leases[s.lease].epoch
    && (s.state in {Provisioning, Ready} <==> d.leases[s.lease].active)
    && (s.state in {Provisioning, Ready} ==> d.leases[s.lease].epoch == s.epoch)
  }

  /** A session belongs to its agent's lease and opens only while that lease is active at the same epoch. */
  ghost predicate SessionsBacked(d: State) { forall a :: a in d.sessions ==> SessionBacked(d, a, d.sessions[a]) }

  /** An active lease is younger than every session of another lease. */
  ghost predicate LeasesYounger(d: State) {
    forall a, l :: a in d.sessions && l in d.leases && d.leases[l].active && d.sessions[a].lease != l ==>
      d.sessions[a].epoch < d.leases[l].epoch
  }

  ghost predicate OneSession(d: State) {
    forall a, b :: a in d.sessions && b in d.sessions && Live(d.sessions[a].state) && Live(d.sessions[b].state) ==>
      a == b
  }

  ghost predicate Ordered(d: State) {
    OneActiveLease(d) && EpochsBounded(d) && SessionsBacked(d) && LeasesYounger(d) && OneSession(d)
  }

  /** A human reservation or an open connection keeps every Agent session away. */
  ghost predicate Separated(d: State) {
    d.hot != {} || AnyOpen(d) ==>
      && !AnyLive(d)
      && (forall l :: l in d.leases && d.leases[l].active ==> d.leases[l].expires <= d.heldSince)
      && (d.lock.Some? && d.lock.value.task == Act ==> d.heldSince <= d.lock.value.since)
      && d.heldSince <= d.now
  }

  // The human side keeps `Coherent` -----------------------------------------------------------------

  lemma BindKeepsRecords(d: State, u: UserId, id: Identity)
    requires RowsRecorded(d) && ConnectionsRecorded(d) && IdsUnique(d)
    ensures var e := Next(d, Bind(u, id)); RowsRecorded(e) && ConnectionsRecorded(e) && IdsUnique(e)
  {
  }

  lemma BindKeepsOpen(d: State, u: UserId, id: Identity)
    requires OpenIsCurrent(d) && OneOpen(d) && OneHot(d) && PendingIssueAlone(d)
    ensures var e := Next(d, Bind(u, id)); OpenIsCurrent(e) && OneOpen(e) && OneHot(e) && PendingIssueAlone(e)
  {
  }

  lemma BindKeepsCoherent(d: State, u: UserId, id: Identity)
    requires Coherent(d)
    ensures Coherent(Next(d, Bind(u, id)))
  {
    hide Next, RowsRecorded, ConnectionsRecorded, IdsUnique, OpenIsCurrent, OneOpen, OneHot, PendingIssueAlone;
    BindKeepsRecords(d, u, id);
    BindKeepsOpen(d, u, id);
  }

  lemma ReserveIssueKeepsCoherent(d: State, u: UserId, a: Row, q: Issuance, ok: bool)
    requires Coherent(d)
    ensures Coherent(ReserveIssue(d, u, a, q, ok))
  {
  }

  lemma RetireKeepsCoherent(d: State, u: UserId, a: Row, t: int)
    requires Coherent(d)
    ensures Coherent(ReserveRetire(d, u, a, t))
  {
  }

  lemma RevokeKeepsRecords(d: State, u: UserId, a: Row, t: int)
    requires RowsRecorded(d) && ConnectionsRecorded(d) && IdsUnique(d)
    ensures var e := ReserveRevoke(d, u, a, t); RowsRecorded(e) && ConnectionsRecorded(e) && IdsUnique(e)
  {
  }

  lemma RevokeKeepsOpen(d: State, u: UserId, a: Row, t: int)
    requires OpenIsCurrent(d) && OneOpen(d) && OneHot(d) && PendingIssueAlone(d)
    ensures var e := ReserveRevoke(d, u, a, t); OpenIsCurrent(e) && OneOpen(e) && OneHot(e) && PendingIssueAlone(e)
  {
  }

  lemma RevokeKeepsCoherent(d: State, u: UserId, a: Row, t: int)
    requires Coherent(d)
    ensures Coherent(ReserveRevoke(d, u, a, t))
  {
    hide ReserveRevoke, RowsRecorded, ConnectionsRecorded, IdsUnique, OpenIsCurrent, OneOpen, OneHot, PendingIssueAlone;
    RevokeKeepsRecords(d, u, a, t);
    RevokeKeepsOpen(d, u, a, t);
  }

  lemma AcknowledgeKeepsRecords(d: State, u: UserId, a: Row, t: int, ok: bool)
    requires RowsRecorded(d) && ConnectionsRecorded(d)
    ensures RowsRecorded(Acknowledge(d, u, a, t, ok)) && ConnectionsRecorded(Acknowledge(d, u, a, t, ok))
  {
  }

  lemma AcknowledgeKeepsIds(d: State, u: UserId, a: Row, t: int, ok: bool)
    requires IdsUnique(d)
    ensures IdsUnique(Acknowledge(d, u, a, t, ok))
  {
  }

  lemma AcknowledgeKeepsOpen(d: State, u: UserId, a: Row, t: int, ok: bool)
    requires OpenIsCurrent(d) && PendingIssueAlone(d) && OneOpen(d) && OneHot(d) && RowsRecorded(d)
    ensures OneOpen(Acknowledge(d, u, a, t, ok)) && OneHot(Acknowledge(d, u, a, t, ok))
    ensures PendingIssueAlone(Acknowledge(d, u, a, t, ok))
  {
  }

  lemma AcknowledgeKeepsCurrent(d: State, u: UserId, a: Row, t: int, ok: bool)
    requires OpenIsCurrent(d)
    ensures OpenIsCurrent(Acknowledge(d, u, a, t, ok))
  {
  }

  lemma MarkRevokingKeepsCoherent(d: State, c: ConnId)
    requires Coherent(d)
    ensures Coherent(MarkRevoking(d, c))
  {
  }

  lemma MarkEndedKeepsCoherent(d: State, c: ConnId)
    requires Coherent(d)
    ensures Coherent(MarkEnded(d, c))
  {
  }

  lemma AcknowledgeKeepsCoherent(d: State, u: UserId, a: Row, t: int, ok: bool)
    requires Coherent(d)
    ensures Coherent(Acknowledge(d, u, a, t, ok))
  {
    hide Acknowledge, RowsRecorded, ConnectionsRecorded, IdsUnique, OpenIsCurrent, OneOpen, OneHot, PendingIssueAlone;
    AcknowledgeKeepsRecords(d, u, a, t, ok);
    AcknowledgeKeepsIds(d, u, a, t, ok);
    AcknowledgeKeepsOpen(d, u, a, t, ok);
    AcknowledgeKeepsCurrent(d, u, a, t, ok);
  }

  predicate TouchesAccounts(s: Step) {
    || s.Bind? || s.IssueStep? || s.RetireStep? || s.RevokeStep? || s.AcknowledgeStep?
    || s.RevokeConnection? || s.EndConnection?
  }

  lemma OthersKeepHumanSide(d: State, s: Step)
    requires !TouchesAccounts(s)
    ensures var e := Next(d, s);
            && e.accounts == d.accounts && e.connections == d.connections && e.credentialIds == d.credentialIds
            && e.hot == d.hot
  {
  }

  lemma StepKeepsCoherent(d: State, s: Step)
    requires Coherent(d)
    ensures Coherent(Next(d, s))
  {
    hide Coherent, ReserveIssue, ReserveRetire, ReserveRevoke, Acknowledge, MarkRevoking, MarkEnded;
    match s
    case Bind(u, id) => BindKeepsCoherent(d, u, id);
    case IssueStep(u, a, q, ok) => ReserveIssueKeepsCoherent(d, u, a, q, ok);
    case RetireStep(u, a, t) => RetireKeepsCoherent(d, u, a, t);
    case RevokeStep(u, a, t) => RevokeKeepsCoherent(d, u, a, t);
    case AcknowledgeStep(u, a, t, ok) => AcknowledgeKeepsCoherent(d, u, a, t, ok);
    case RevokeConnection(c) => MarkRevokingKeepsCoherent(d, c);
    case EndConnection(c) => MarkEndedKeepsCoherent(d, c);
    case _ =>
      OthersKeepHumanSide(d, s);
      SameHumanSide(d, Next(d, s));
  }

  lemma SameHumanSide(d: State, e: State)
    requires Coherent(d) && e.accounts == d.accounts && e.connections == d.connections
    requires e.credentialIds == d.credentialIds && e.hot == d.hot
    ensures Coherent(e)
  {
  }

  // The Agent side keeps `Ordered` ------------------------------------------------------------------

  lemma OpenLeaseKeepsOrdered(d: State, l: LeaseId, agent: AgentId, e: int, ok: bool)
    requires Ordered(d)
    ensures Ordered(OpenLease(d, l, agent, e, ok))
  {
  }

  lemma CloseLeaseKeepsLeases(d: State, l: LeaseId)
    requires OneActiveLease(d) && EpochsBounded(d) && LeasesYounger(d)
    ensures OneActiveLease(CloseLease(d, l)) && EpochsBounded(CloseLease(d, l)) && LeasesYounger(CloseLease(d, l))
  {
  }

  lemma CloseLeaseKeepsSessions(d: State, l: LeaseId)
    requires EpochsBounded(d) && SessionsBacked(d) && OneSession(d)
    ensures SessionsBacked(CloseLease(d, l)) && OneSession(CloseLease(d, l))
  {
  }

  lemma BeginSessionKeepsOrdered(d: State, l: LeaseId, agent: AgentId, e: nat, t: int, ok: bool)
    requires Ordered(d)
    ensures Ordered(BeginSession(d, l, agent, e, t, ok))
  {
  }

  lemma BeginLoginKeepsOrdered(d: State, agent: AgentId, g: nat, t: int, ok: bool)
    requires Ordered(d)
    ensures Ordered(BeginLogin(d, agent, g, t, ok))
  {
  }

  lemma MarkReadyKeepsOrdered(d: State, agent: AgentId, g: nat, t: int, ok: bool)
    requires Ordered(d)
    ensures Ordered(MarkReady(d, agent, g, t, ok))
  {
  }

  lemma FinishSessionKeepsOrdered(d: State, agent: AgentId)
    requires Ordered(d)
    ensures Ordered(FinishSession(d, agent))
  {
  }

  lemma SameAgentSide(d: State, e: State)
    requires Ordered(d) && e.leases == d.leases && e.sessions == d.sessions && e.epoch == d.epoch
    ensures Ordered(e)
  {
  }

  lemma CloseLeaseKeepsOrdered(d: State, l: LeaseId)
    requires Ordered(d)
    ensures Ordered(CloseLease(d, l))
  {
    hide CloseLease, OneActiveLease, EpochsBounded, SessionsBacked, LeasesYounger, OneSession;
    CloseLeaseKeepsLeases(d, l);
    CloseLeaseKeepsSessions(d, l);
  }

  predicate TouchesSessions(s: Step) {
    s.LeaseStep? || s.EndLease? || s.SessionStep? || s.LoginStep? || s.ReadyStep? || s.SessionDone?
  }

  lemma OthersKeepAgentSide(d: State, s: Step)
    requires !TouchesSessions(s)
    ensures var e := Next(d, s); e.leases == d.leases && e.sessions == d.sessions && e.epoch == d.epoch
  {
    hide Admits, BeginIssue;
  }

  lemma StepKeepsOrdered(d: State, s: Step)
    requires Ordered(d)
    ensures Ordered(Next(d, s))
  {
    hide Ordered, OpenLease, CloseLease, BeginSession, BeginLogin, MarkReady, FinishSession;
    match s
    case LeaseStep(l, a, e, ok) => OpenLeaseKeepsOrdered(d, l, a, e, ok);
    case EndLease(l) => CloseLeaseKeepsOrdered(d, l);
    case SessionStep(l, a, e, t, ok) => BeginSessionKeepsOrdered(d, l, a, e, t, ok);
    case LoginStep(a, g, t, ok) => BeginLoginKeepsOrdered(d, a, g, t, ok);
    case ReadyStep(a, g, t, ok) => MarkReadyKeepsOrdered(d, a, g, t, ok);
    case SessionDone(a) => FinishSessionKeepsOrdered(d, a);
    case _ =>
      OthersKeepAgentSide(d, s);
      SameAgentSide(d, Next(d, s));
  }

  // Both sides stay apart ---------------------------------------------------------------------------

  lemma HumanStepKeepsSeparated(d: State, s: Step)
    requires Separated(d) && OneHot(d)
    requires TouchesAccounts(s)
    ensures Separated(Next(d, s))
  {
  }

  lemma AgentStepKeepsSeparated(d: State, s: Step)
    requires Separated(d) && OneHot(d)
    requires s.LeaseStep? || s.EndLease? || s.SessionStep? || s.LoginStep? || s.ReadyStep? || s.SessionDone?
    ensures Separated(Next(d, s))
  {
  }

  lemma OtherStepKeepsSeparated(d: State, s: Step)
    requires Separated(d)
    requires s.Pass? || s.Acquire? || s.Release? || s.ComputerDone? || s.IdentityQueued? || s.IdentityDone?
    ensures Separated(Next(d, s))
  {
  }

  ghost predicate Inv(d: State) { Coherent(d) && Ordered(d) && Separated(d) }

  lemma StepKeepsInv(d: State, s: Step)
    requires Inv(d)
    ensures Inv(Next(d, s))
  {
    hide Coherent, Ordered, Separated, Next;
    StepKeepsCoherent(d, s);
    StepKeepsOrdered(d, s);
    assert OneHot(d) by { CoherentHot(d); }
    match s
    case LeaseStep(_, _, _, _) => AgentStepKeepsSeparated(d, s);
    case EndLease(_) => AgentStepKeepsSeparated(d, s);
    case SessionStep(_, _, _, _, _) => AgentStepKeepsSeparated(d, s);
    case LoginStep(_, _, _, _) => AgentStepKeepsSeparated(d, s);
    case ReadyStep(_, _, _, _) => AgentStepKeepsSeparated(d, s);
    case SessionDone(_) => AgentStepKeepsSeparated(d, s);
    case Pass(_) => OtherStepKeepsSeparated(d, s);
    case Acquire(_) => OtherStepKeepsSeparated(d, s);
    case Release => OtherStepKeepsSeparated(d, s);
    case ComputerDone(_) => OtherStepKeepsSeparated(d, s);
    case IdentityQueued => OtherStepKeepsSeparated(d, s);
    case IdentityDone(_) => OtherStepKeepsSeparated(d, s);
    case _ => HumanStepKeepsSeparated(d, s);
  }

  lemma CoherentHot(d: State)
    requires Coherent(d)
    ensures OneHot(d)
  {
  }

  lemma {:induction false} RunKeepsInv(d: State, steps: seq<Step>)
    requires Inv(d)
    ensures Inv(Run(d, steps))
  {
    hide Inv, Next;
    if steps != [] {
      RunKeepsInv(d, steps[..|steps| - 1]);
      StepKeepsInv(Run(d, steps[..|steps| - 1]), steps[|steps| - 1]);
    }
  }

  lemma ReachableInv(now: int, steps: seq<Step>)
    ensures Inv(Run(Start(now), steps))
  {
    assert Inv(Start(now));
    RunKeepsInv(Start(now), steps);
  }

  // Main results ------------------------------------------------------------------------------------

  /** No reachable state has both an open human connection and an Agent session that is not disabled. */
  lemma HumanAndAgentExclude(now: int, steps: seq<Step>)
    ensures !(AnyOpen(Run(Start(now), steps)) && AnyLive(Run(Start(now), steps)))
  {
    ReachableInv(now, steps);
  }

  /**
   In every reachable state an open connection is its owner's current credential, live or with its
   cleanup pending, and the desktop has no second open connection.
   */
  lemma OpenConnectionIsCurrent(now: int, steps: seq<Step>, c: ConnId)
    requires c in Run(Start(now), steps).connections && IsOpen(Run(Start(now), steps).connections[c].state)
    ensures var d := Run(Start(now), steps);
            && d.connections[c].user in d.accounts && BehindOpen(d.accounts[d.connections[c].user], c)
            && (forall e :: e in d.connections && IsOpen(d.connections[e].state) ==> e == c)
  {
    ReachableInv(now, steps);
  }

  /** A desktop never has two Agent sessions that are not disabled, and an opening one has its lease in force. */
  lemma AtMostOneAgentSession(now: int, steps: seq<Step>, a: AgentId, b: AgentId)
    requires a in Run(Start(now), steps).sessions && Live(Run(Start(now), steps).sessions[a].state)
    requires b in Run(Start(now), steps).sessions && Live(Run(Start(now), steps).sessions[b].state)
    ensures a == b
    ensures var d := Run(Start(now), steps);
            d.sessions[a].state in {Provisioning, Ready} ==>
              d.sessions[a].lease in d.leases && d.leases[d.sessions[a].lease].active
  {
    ReachableInv(now, steps);
  }

  /**
   The row guards of the database never object to a session the store begins: a replaced session was
   disabled, its successor carries a higher control epoch, the next generation and no login.
   */
  lemma BeginSessionPassesGuard(d: State, l: LeaseId, agent: AgentId, e: nat, t: int, ok: bool)
    requires Inv(d) && agent in d.sessions && BeginSession(d, l, agent, e, t, ok) != d
    ensures var was, became := d.sessions[agent], BeginSession(d, l, agent, e, t, ok).sessions[agent];
            && was.state == Disabled && became.state == Provisioning && became.login == 0
            && became.generation == was.generation + 1
            && became.lease != was.lease && became.epoch > was.epoch
  {
  }

  /** What the account guard sees when user `u` reserves connection `c` at transaction time `t`. */
  function ContextFor(d: State, u: UserId, c: ConnId, t: int): GuardContext {
    GuardContext(t, false, LeaseInForce(d, t), OtherReserved(d, u), c in d.credentialIds)
  }

  lemma IssuePassesGuard(d: State, s: Step, u: UserId)
    requires RowsRecorded(d) && u in d.accounts && s.IssueStep?
    ensures GuardPasses(d, s, u)
  {
  }

  lemma RetirePassesGuard(d: State, s: Step, u: UserId)
    requires RowsRecorded(d) && u in d.accounts && s.RetireStep?
    ensures GuardPasses(d, s, u)
  {
  }

  lemma RevokePassesGuard(d: State, s: Step, u: UserId)
    requires RowsRecorded(d) && u in d.accounts && s.RevokeStep?
    ensures GuardPasses(d, s, u)
  {
  }

  lemma AcknowledgementPassesGuard(d: State, s: Step, u: UserId)
    requires RowsRecorded(d) && u in d.accounts && s.AcknowledgeStep?
    ensures GuardPasses(d, s, u)
  {
  }

  predicate GuardPasses(d: State, s: Step, u: UserId)
    requires u in d.accounts
  {
    var e := Next(d, s);
    && u in e.accounts
    && (e.accounts[u] != d.accounts[u] ==>
          GuardAllows(d.accounts[u], e.accounts[u], ContextFor(d, u, e.accounts[u].connection, TransactionTime(d, s))))
  }

  /** Every change of an account row passes the account guard, whoever else is using the desktop. */
  lemma AccountStepsPassGuard(d: State, s: Step, u: UserId)
    requires Inv(d) && u in d.accounts
    ensures GuardPasses(d, s, u)
  {
    hide Ordered, Separated, RowsRecorded, ConnectionsRecorded, IdsUnique;
    hide OpenIsCurrent, OneOpen, OneHot, PendingIssueAlone;
    hide ReserveIssue, ReserveRetire, ReserveRevoke, Acknowledge, GuardAllows;
    if s.IssueStep? {
      IssuePassesGuard(d, s, u);
    } else if s.RetireStep? {
      RetirePassesGuard(d, s, u);
    } else if s.RevokeStep? {
      RevokePassesGuard(d, s, u);
    } else if s.AcknowledgeStep? {
      AcknowledgementPassesGuard(d, s, u);
    }
  }

  /** The transaction clock the step compares with. */
  function TransactionTime(d: State, s: Step): int {
    match s
    case IssueStep(_, _, q, _) => q.txNow
    case RetireStep(_, _, t) => t
    case RevokeStep(_, _, t) => t
    case _ => d.now
  }

  /**
   Why the desktop lock is needed: beside a human reservation a session can begin only in a
   transaction that STARTED before the reservation's own, and such a transaction does get through.
   */
  lemma OnlyStaleStartsIntrude(d: State, l: LeaseId, agent: AgentId, e: nat, t: int, ok: bool)
    requires Inv(d) && (d.hot != {} || AnyOpen(d)) && BeginSession(d, l, agent, e, t, ok) != d
    ensures t < d.heldSince
  {
  }

  /** A desktop whose one lease ran out at 100 and on which user 1 reserved a credential at 150. */
  function ReservedAfterLease(id: Identity): State {
    State(map[1 := Row(id, 1, Issue, Pending, Connection(7), Some(1))], map[], {Connection(7)},
          map[1 := Lease(1, true, 2, 100)], map[],
          2, Queue(0, 0), Queue(0, 0), 150, Some(Lock(Connect, 150)), {1}, 150)
  }

  lemma ReservedAfterLeaseIsReachable(id: Identity)
    requires ValidIdentity(id)
    ensures var leased := Next(Next(Start(0), Bind(1, id)), LeaseStep(1, 1, 100, true));
            var held := Next(Next(leased, Pass(150)), Acquire(Connect));
            var q := Issuance(Connection(7), SECOND, 150, 150, true);
            Next(held, IssueStep(1, Bound(id), q, true)) == ReservedAfterLease(id)
  {
  }

  lemma StaleStartIntrudes(id: Identity)
    requires ValidIdentity(id)
    ensures var e := BeginSession(ReservedAfterLease(id), 1, 1, 2, 50, true);
            var f := Next(e, AcknowledgeStep(1, ReservedAfterLease(id).accounts[1], 160, true));
            AnyOpen(f) && AnyLive(f)
  {
  }
}
