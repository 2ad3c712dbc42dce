/**
 One row of `native_guest_accounts` and the conditional updates the store runs on it.
 Every update is a compare-and-swap against the caller's snapshot of the row; `None`
 is the conflict the store reports when the WHERE clause matches no row.
 */
module NativeAccount {
  import opened Common

  /** The OS account an intent is pinned to. */
  datatype Identity = Identity(username: string, uid: nat, sid: string)

  /** `NoConnection` is the empty text a row holds before its first credential. */
  datatype ConnId = NoConnection | Connection(serial: nat)

  type UserId = nat

  datatype ConnectionState = Active | Revoking | Ended
  datatype ConnectionRow = ConnectionRow(user: UserId, state: ConnectionState)

  predicate IsOpen(s: ConnectionState) { s == Active || s == Revoking }

  datatype Operation = NoOperation | Issue | Retire | Revoke
  datatype RowState = Idle | Pending | Applied

  /** `expires` counts whole seconds: an issue is refused unless its deadline has no fraction. */
  datatype Row = Row(
    identity: Identity,
    revision: nat,
    operation: Operation,
    state: RowState,
    connection: ConnId,
    expires: Option<nat>)

  predicate ValidIdentity(id: Identity) {
    1000 <= id.uid < 0x1_0000_0000 && id.sid == ""
  }

  /** A freshly bound account: identity pinned, no credential ever reserved. */
  function Bound(id: Identity): Row {
    Row(id, 0, NoOperation, Idle, NoConnection, None)
  }

  /** The CHECK constraints of the table. */
  predicate WellFormed(r: Row) {
    && ValidIdentity(r.identity)
    && r.revision <= MAX_INT64
    && (r.revision == 0 <==> r.state == Idle)
    && (r.revision == 0 <==> r.operation == NoOperation)
    && (r.revision == 0 <==> r.connection == NoConnection)
    && (r.expires.Some? <==> r.operation == Issue || r.operation == Retire)
  }

  predicate Settled(r: Row) {
    r.state == Idle || (r.state == Applied && r.operation in {Retire, Revoke})
  }

  predicate Unexpired(r: Row, now: int) {
    r.expires.Some? && r.expires.value * SECOND > now
  }

  /** The request of one credential reservation as the store receives it. */
  datatype Issuance = Issuance(
    connection: ConnId,
    expiresAt: int, // nanoseconds
    clock: int,     // the process clock that bounds the deadline
    txNow: int,     // the transaction clock that the SQL compares with
    admitted: bool) // authorization, no open connection, no Agent session, no competing reservation

  /** `BeginNativeGuestCredential`. */
  function BeginIssue(row: Row, a: Row, q: Issuance): Option<Row> {
    if !ValidIdentity(a.identity) || a.revision >= MAX_INT64 || q.connection == NoConnection
       || q.connection == a.connection
       || q.expiresAt <= q.clock || q.expiresAt > q.clock + 8 * 3600 * SECOND || q.expiresAt < 0
       || q.expiresAt % SECOND != 0
    then None
    else if row.identity == a.identity && row.revision == a.revision && row.operation == a.operation
            && row.state == a.state
            && Settled(row) && (row.operation != Retire || Unexpired(row, q.txNow)) && q.admitted
    then Some(row.(revision := row.revision + 1, operation := Issue, state := Pending,
                   connection := q.connection, expires := Some(q.expiresAt / SECOND)))
    else None
  }

  /** `beginNativeGuestCleanup` for `op` in {Retire, Revoke}. */
  function BeginCleanup(row: Row, a: Row, op: Operation, txNow: int): Option<Row> {
    if !ValidIdentity(a.identity) || a.revision == 0 || a.revision >= MAX_INT64 then None
    else if row == a && (op != Retire || Unexpired(row, txNow))
    then Some(row.(revision := row.revision + 1, operation := op, state := Pending,
                   expires := if op == Revoke then None else row.expires))
    else None
  }

  /** `RetireNativeGuestCredential`. */
  function BeginRetire(row: Row, a: Row, txNow: int): Option<Row> {
    if a.operation != Issue || a.state != Applied then None else BeginCleanup(row, a, Retire, txNow)
  }

  /** `RevokeNativeGuestAccount`. */
  function BeginRevoke(row: Row, a: Row, txNow: int): Option<Row> {
    if a.state == Idle || a.operation == Revoke then None else BeginCleanup(row, a, Revoke, txNow)
  }

  /** `completeNativeGuestAccountOperation`: `eligible` is the re-evaluated access of a pending issue. */
  function Complete(row: Row, a: Row, txNow: int, eligible: bool): Option<Row> {
    if !ValidIdentity(a.identity) || a.revision == 0 || a.state != Pending then None
    else if row == a && (row.operation != Issue || (Unexpired(row, txNow) && eligible))
    then Some(row.(state := Applied))
    else None
  }

  /** `CommitNativeGuestRecovery`: `safe` is the no-outstanding-work query of the transaction. */
  function CommitRecovery(row: Row, a: Row, revision: nat, connection: ConnId, safe: bool): Option<Row> {
    if !ValidIdentity(a.identity) || a.operation != Revoke || a.state != Applied || a.revision == 0
       || revision <= a.revision || revision >= MAX_INT64 || connection == NoConnection || connection == a.connection
    then None
    else if safe && row.identity == a.identity && row.revision == a.revision && row.connection == a.connection
            && row.operation == Revoke && row.state == Applied
    then Some(row.(revision := revision, connection := connection))
    else None
  }

  /** What the row guard of the database can see besides the row before and after the update. */
  datatype GuardContext = GuardContext(
    now: int,
    recoveryReceipt: bool,     // a recovery receipt for exactly this advance, in this transaction
    leaseActive: bool,         // an unexpired active Agent lease on the desktop
    otherReservation: bool,    // another account pending or at applied issue
    connectionIdTaken: bool)   // the connection id was already recorded as a credential id

  /** The UPDATE branch of `protect_native_guest_account_version`; false is a raised exception. */
  predicate GuardAllows(before: Row, after: Row, c: GuardContext) {
    && after.identity == before.identity
    && if after.revision > before.revision && before.operation == Revoke && before.state == Applied
          && after.operation == Revoke && after.state == Applied && after.expires == None && c.recoveryReceipt
       then !c.connectionIdTaken
       else if after.revision == before.revision then
         && after.operation == before.operation && after.connection == before.connection
         && after.expires == before.expires
         && (after.state == before.state || (before.state == Pending && after.state == Applied))
       else
         && after.revision == before.revision + 1 && after.state == Pending
         && match after.operation
            case Issue =>
              && Settled(before) && after.connection != before.connection
              && (before.operation != Retire || Unexpired(before, c.now))
              && !c.leaseActive && !c.otherReservation && !c.connectionIdTaken
            case Retire =>
              && before.operation == Issue && before.state == Applied && Unexpired(before, c.now)
              && after.connection == before.connection && after.expires == before.expires
            case Revoke => before.state != Idle && after.connection == before.connection && before.operation != Revoke
            case NoOperation => false
  }

  /**
   Each store update yields a row that meets the table's constraints and that the row guard lets
   through.  The one check the guard adds: the swap of an issue does not compare the connection, so
   a caller whose snapshot names another connection than the row could reuse the row's own id.
   */
  lemma StoreStepsPassGuard(row: Row, a: Row, q: Issuance, op: Operation, eligible: bool, revision: nat,
      c: GuardContext)
    requires WellFormed(row)
    ensures BeginIssue(row, a, q).Some? && c.now == q.txNow
            && !c.leaseActive && !c.otherReservation && !c.connectionIdTaken ==>
              WellFormed(BeginIssue(row, a, q).value)
              && (GuardAllows(row, BeginIssue(row, a, q).value, c) <==> q.connection != row.connection)
    ensures BeginRetire(row, a, c.now).Some? ==>
              WellFormed(BeginRetire(row, a, c.now).value) && GuardAllows(row, BeginRetire(row, a, c.now).value, c)
    ensures BeginRevoke(row, a, c.now).Some? ==>
              WellFormed(BeginRevoke(row, a, c.now).value) && GuardAllows(row, BeginRevoke(row, a, c.now).value, c)
    ensures Complete(row, a, c.now, eligible).Some? ==>
              && WellFormed(Complete(row, a, c.now, eligible).value)
              && GuardAllows(row, Complete(row, a, c.now, eligible).value, c)
    ensures CommitRecovery(row, a, revision, q.connection, true).Some? && c.recoveryReceipt && !c.connectionIdTaken ==>
              WellFormed(CommitRecovery(row, a, revision, q.connection, true).value)
              && GuardAllows(row, CommitRecovery(row, a, revision, q.connection, true).value, c)
  {
  }

  /** A history of a row in which every consecutive pair passed the guard, whoever wrote it. */
  ghost predicate GuardedHistory(rows: seq<Row>, contexts: seq<GuardContext>) {
    && |rows| == |contexts| + 1
    && forall i :: 0 <= i < |contexts| ==> GuardAllows(rows[i], rows[i + 1], contexts[i])
  }

  /**
   The row guard alone, for any writer: the pinned identity never changes, the revision never
   regresses, one revision names one intent, and an applied intent never becomes pending again.
   */
  lemma {:induction false} GuardedHistoryIsMonotone(rows: seq<Row>, contexts: seq<GuardContext>, i: nat, j: nat)
    requires GuardedHistory(rows, contexts)
    requires i <= j < |rows|
    ensures rows[j].identity == rows[i].identity
    ensures rows[i].revision <= rows[j].revision
    ensures rows[i].revision == rows[j].revision ==>
              && rows[j].operation == rows[i].operation && rows[j].connection == rows[i].connection
              && rows[j].expires == rows[i].expires
              && (rows[i].state == Applied ==> rows[j].state == Applied)
    decreases j - i
  {
    if i < j {
      GuardedHistoryIsMonotone(rows, contexts, i, j - 1);
      assert GuardAllows(rows[j - 1], rows[j], contexts[j - 1]);
    }
  }
}
