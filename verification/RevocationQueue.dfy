/**
 The requested/completed pair of a revocation queue row, with any number of workers racing on it.
 A worker reads the pending revision, starts Guest work, and may acknowledge exactly the revision
 it read.  Every event has its own instant, so "began after" is a comparison of instants.
 */
module RevocationQueue {
  import opened Common

  type WorkerId = nat

  datatype Work = Work(revision: nat, readAt: nat, startedAt: Option<nat>, finished: bool)

  datatype Row = Row(
    requested: nat,
    completed: nat,
    clock: nat,
    requestedAt: seq<nat>,     // the instant each request committed
    creditedTo: seq<nat>,      // for each completed request, when the Guest work it was counted by began
    work: map<WorkerId, Work>)

  datatype Event =
    | Request
    | Read(worker: WorkerId)
    | Begin(worker: WorkerId)
    | Finish(worker: WorkerId)
    | Abandon(worker: WorkerId)
    | Complete(worker: WorkerId)

  /** Requests up to `upTo` that were still open are counted by the work begun at `start`. */
  function Credit(done: seq<nat>, upTo: nat, start: nat): seq<nat> {
    done + seq(if upTo > |done| then upTo - |done| else 0, _ => start)
  }

  function Handle(r: Row, e: Event): Row {
    match e
    case Request => r.(requested := r.requested + 1, requestedAt := r.requestedAt + [r.clock])
    case Read(w) =>
      if r.requested > r.completed then r.(work := r.work[w := Work(r.requested, r.clock, None, false)]) else r
    case Begin(w) =>
      if w in r.work && r.work[w].startedAt.None?
      then r.(work := r.work[w := r.work[w].(startedAt := Some(r.clock))]) else r
    case Finish(w) =>
      if w in r.work && r.work[w].startedAt.Some? then r.(work := r.work[w := r.work[w].(finished := true)]) else r
    case Abandon(w) => r.(work := r.work - {w})
    case Complete(w) =>
      if w in r.work && r.work[w].finished && r.work[w].startedAt.Some? && r.requested == r.work[w].revision
         && r.completed < r.work[w].revision
      then r.(completed := r.work[w].revision,
              creditedTo := Credit(r.creditedTo, r.work[w].revision, r.work[w].startedAt.value))
      else r
  }

  function Next(r: Row, e: Event): Row { Handle(r, e).(clock := r.clock + 1) }

  function Fresh(): Row { Row(0, 0, 0, [], [], map[]) }

  function Run(events: seq<Event>): Row {
    if events == [] then Fresh() else Next(Run(events[..|events| - 1]), events[|events| - 1])
  }

  ghost predicate Counted(r: Row) {
    && r.completed <= r.requested == |r.requestedAt| && |r.creditedTo| == r.completed
    && (forall i :: 0 <= i < r.requested ==> r.requestedAt[i] < r.clock)
    && (forall i, j :: 0 <= i < j < r.requested ==> r.requestedAt[i] < r.requestedAt[j])
  }

  /** A worker's revision was committed before it was read, and its Guest work began after that. */
  predicate Timely(r: Row, k: Work)
    requires r.requested == |r.requestedAt|
  {
    && 0 < k.revision <= r.requested && r.requestedAt[k.revision - 1] < k.readAt < r.clock
    && (k.startedAt.Some? ==> k.readAt < k.startedAt.value < r.clock)
  }

  ghost predicate Inv(r: Row) {
    && Counted(r)
    && (forall w :: w in r.work ==> Timely(r, r.work[w]))
    && (forall i :: 0 <= i < r.completed ==> r.requestedAt[i] < r.creditedTo[i])
  }

  lemma RequestKeepsInv(r: Row)
    requires Inv(r)
    ensures Inv(Next(r, Request))
  {
  }

  lemma WorkerKeepsInv(r: Row, e: Event)
    requires Inv(r) && !e.Request? && !e.Complete?
    ensures Inv(Next(r, e))
  {
    var s := Next(r, e);
    forall w | w in s.work ensures Timely(s, s.work[w]) {
      assert w in r.work ==> Timely(r, r.work[w]);
    }
  }

  lemma CompleteKeepsInv(r: Row, w: WorkerId)
    requires Inv(r)
    ensures Inv(Next(r, Complete(w)))
  {
    var s := Next(r, Complete(w));
    forall v | v in s.work ensures Timely(s, s.work[v]) { assert Timely(r, r.work[v]); }
    if s.completed != r.completed {
      var k := r.work[w];
      assert Timely(r, k);
      forall i | 0 <= i < s.completed ensures s.requestedAt[i] < s.creditedTo[i] {
        assert r.requestedAt[i] <= r.requestedAt[k.revision - 1];
      }
    }
  }

  lemma {:induction false} RunKeepsInv(events: seq<Event>)
    ensures Inv(Run(events))
  {
    if events != [] {
      var before, e := events[..|events| - 1], events[|events| - 1];
      RunKeepsInv(before);
      if e.Request? {
        RequestKeepsInv(Run(before));
      } else if e.Complete? {
        CompleteKeepsInv(Run(before), e.worker);
      } else {
        WorkerKeepsInv(Run(before), e);
      }
    }
  }

  /**
   No revocation is lost, in every interleaving of requests and workers: completed never passes
   requested, and each completed request was counted by Guest work that began after it committed.
   */
  lemma NoRevocationIsLost(events: seq<Event>, i: nat)
    requires i < Run(events).completed
    ensures var r := Run(events);
            && r.completed <= r.requested == |r.requestedAt| && |r.creditedTo| == r.completed
            && r.requestedAt[i] < r.creditedTo[i]
  {
    RunKeepsInv(events);
  }

  function From(r: Row, events: seq<Event>): Row {
    if events == [] then r else Next(From(r, events[..|events| - 1]), events[|events| - 1])
  }

  predicate NoneCompletes(events: seq<Event>) { forall i :: 0 <= i < |events| ==> !events[i].Complete? }

  lemma {:induction false} WorkKeepsItsRevision(r: Row, later: seq<Event>, w: WorkerId)
    requires w in r.work && Read(w) !in later && NoneCompletes(later)
    ensures var s := From(r, later);
            && s.completed == r.completed && s.requested >= r.requested
            && (Request in later ==> s.requested > r.requested)
            && (w in s.work ==> s.work[w].revision == r.work[w].revision)
  {
    if later != [] {
      WorkKeepsItsRevision(r, later[..|later| - 1], w);
      assert later == later[..|later| - 1] + [later[|later| - 1]];
    }
  }

  /** Work overtaken by a new request acknowledges nothing: the row stays pending, both counters as they were. */
  lemma OvertakenWorkCompletesNothing(r: Row, later: seq<Event>, w: WorkerId)
    requires r.requested > r.completed
    requires Request in later && Read(w) !in later && NoneCompletes(later)
    ensures var s := From(Next(r, Read(w)), later);
            s.requested > s.completed && Handle(s, Complete(w)) == s
  {
    WorkKeepsItsRevision(Next(r, Read(w)), later, w);
  }
}
