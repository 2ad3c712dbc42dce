/**
 Clone jobs: durable ownership of a target VMID, one submission per request, and the task handle that
 the submitting handler and an administrator's recovery race to attach.
 */
module CloneJobs {
  import opened Common

  type JobId = string
  type Key = string
  type Upid = string
  type HandlerId = nat

  const WINDOW := 1024

  datatype JobState = Accepted | Running | Succeeded | Failed

  datatype Job = Job(key: Key, fingerprint: string, source: int, target: int, state: JobState, handle: Option<Upid>)

  /** A request's way through the creating handler: the clone call not yet made, under way, or answered. */
  datatype Stage = Reserved(job: JobId) | Submitted(job: JobId) | Answered(job: JobId, handle: Upid)

  datatype State = State(
    jobs: map<JobId, Job>,
    managed: set<int>,             // vmids of managed desktops
    builds: set<int>,              // targets of image builds
    handlers: map<HandlerId, Stage>,
    submissions: seq<JobId>,       // every clone request ever sent to the hypervisor
    attached: seq<(JobId, Upid)>,  // every handle ever written to a job that did not hold it
    tasks: set<(JobId, Upid)>)     // finished tasks whose identity, time, log and target marker match the job

  /** What one reservation asks for; `hint` is the hypervisor's suggestion, or the target itself if `fixed`. */
  datatype Wish = Wish(
    id: JobId, key: Key, fingerprint: string, source: int, hint: int,
    seen: set<int>,                // the hypervisor's inventory
    fixed: bool)

  predicate Proper(w: Wish) { w.hint > 0 && w.source > 0 && w.hint != w.source && w.id != "" && w.key != "" }

  predicate Owned(s: State, vmid: int) { exists i :: i in s.jobs && s.jobs[i].target == vmid }

  predicate Free(s: State, w: Wish, vmid: int) {
    vmid != w.source && vmid !in w.seen && vmid !in s.managed && vmid !in s.builds && !Owned(s, vmid)
  }

  predicate KeyUsed(s: State, k: Key) { exists i :: i in s.jobs && s.jobs[i].key == k }

  /** The least free id of the window. */
  predicate LeastFree(s: State, w: Wish, vmid: int) {
    w.hint <= vmid < w.hint + WINDOW && Free(s, w, vmid) && forall v :: w.hint <= v < vmid ==> !Free(s, w, v)
  }

  predicate NoneFree(s: State, w: Wish) { forall v :: w.hint <= v < w.hint + WINDOW ==> !Free(s, w, v) }

  /** The target a reservation gets; a fixed one is only checked against desktops and other clones. */
  predicate Chosen(s: State, w: Wish, vmid: int) {
    if w.fixed then vmid == w.hint && vmid !in s.managed && !Owned(s, vmid) else LeastFree(s, w, vmid)
  }

  predicate NoneChosen(s: State, w: Wish) {
    if w.fixed then w.hint in s.managed || Owned(s, w.hint) else NoneFree(s, w)
  }

  function Insert(s: State, w: Wish, vmid: int): State {
    s.(jobs := s.jobs[w.id := Job(w.key, w.fingerprint, w.source, vmid, Accepted, None)])
  }

  datatype Step =
    | Reserve(handler: HandlerId, wish: Wish, vmid: int)
    | Submit(handler: HandlerId)
    | Reply(handler: HandlerId, handle: Upid)
    | Record(handler: HandlerId)         // write the answered handle, if the job still admits it, and return
    | Lose(handler: HandlerId)           // the clone call failed: put the job back to accepted, without a handle
    | Quit(handler: HandlerId)           // return or die without another statement
    | Witness(job: JobId, handle: Upid)  // the hypervisor has such a task to show
    | Recover(job: JobId, handle: Upid)
    | Complete(job: JobId, ok: bool)
    | Manage(managedVmid: int)
    | Build(buildVmid: int)

  predicate CanAttach(j: Job, u: Upid) {
    (j.state == Accepted && j.handle.None?) || (j.state == Running && j.handle == Some(u))
  }

  function Attach(s: State, i: JobId, u: Upid): State
    requires i in s.jobs
  {
    s.(jobs := s.jobs[i := s.jobs[i].(state := Running, handle := Some(u))],
       attached := if s.jobs[i].handle == Some(u) then s.attached else s.attached + [(i, u)])
  }

  /** `RecordCloneTaskHandle`: a job that no longer admits the handle is left alone. */
  function Written(s: State, i: JobId, u: Upid): State {
    if i in s.jobs && CanAttach(s.jobs[i], u) then Attach(s, i, u) else s
  }

  /** The unguarded reset of a job whose clone call failed. */
  function Reset(s: State, i: JobId): State {
    if i in s.jobs then s.(jobs := s.jobs[i := s.jobs[i].(state := Accepted, handle := None)]) else s
  }

  function Next(s: State, step: Step): State {
    match step
    case Reserve(h, w, vmid) =>
      if Proper(w) && h !in s.handlers && w.id !in s.jobs && !KeyUsed(s, w.key) && Chosen(s, w, vmid)
      then Insert(s, w, vmid).(handlers := s.handlers[h := Reserved(w.id)]) else s
    case Submit(h) =>
      if h in s.handlers && s.handlers[h].Reserved?
      then s.(submissions := s.submissions + [s.handlers[h].job],
              handlers := s.handlers[h := Submitted(s.handlers[h].job)])
      else s
    case Reply(h, u) =>
      if h in s.handlers && s.handlers[h].Submitted?
      then s.(handlers := s.handlers[h := Answered(s.handlers[h].job, u)]) else s
    case Record(h) =>
      if h !in s.handlers || !s.handlers[h].Answered? then s
      else Written(s, s.handlers[h].job, s.handlers[h].handle).(handlers := s.handlers - {h})
    case Lose(h) =>
      if h in s.handlers && s.handlers[h].Submitted?
      then Reset(s, s.handlers[h].job).(handlers := s.handlers - {h}) else s
    case Quit(h) => s.(handlers := s.handlers - {h})
    case Witness(i, u) => if i in s.submissions then s.(tasks := s.tasks + {(i, u)}) else s
    case Recover(i, u) =>
      if (i, u) in s.tasks && i in s.jobs && s.jobs[i].state == Accepted && s.jobs[i].handle.None?
      then Attach(s, i, u) else s
    case Complete(i, ok) =>
      if i in s.jobs && s.jobs[i].state == Running
      then s.(jobs := s.jobs[i := s.jobs[i].(state := if ok then Succeeded else Failed)]) else s
    case Manage(v) => s.(managed := s.managed + {v})
    case Build(v) => s.(builds := s.builds + {v})
  }

  function Start(): State { State(map[], {}, {}, map[], [], [], {}) }

  function Run(s: State, steps: seq<Step>): State {
    if steps == [] then s else Next(Run(s, steps[..|steps| - 1]), steps[|steps| - 1])
  }

  // Invariants ------------------------------------------------------------------------------------

  ghost predicate Distinct(s: State) {
    forall i, j :: i in s.jobs && j in s.jobs && i != j ==>
      s.jobs[i].target != s.jobs[j].target && s.jobs[i].key != s.jobs[j].key
  }

  /** The right to submit a job is held by one handler, and used once. */
  ghost predicate Once(s: State) {
    && (forall i, j :: 0 <= i < j < |s.submissions| ==> s.submissions[i] != s.submissions[j])
    && (forall i :: i in s.submissions ==> i in s.jobs)
    && (forall h :: h in s.handlers ==> s.handlers[h].job in s.jobs)
    && (forall h :: h in s.handlers && s.handlers[h].Reserved? ==> s.handlers[h].job !in s.submissions)
    && (forall h, k :: h in s.handlers && k in s.handlers && h != k ==> s.handlers[h].job != s.handlers[k].job)
  }

  ghost predicate Inv(s: State) { Distinct(s) && Once(s) }

  lemma StepKeepsDistinct(s: State, step: Step)
    requires Distinct(s)
    ensures Distinct(Next(s, step))
  {
  }

  lemma StepKeepsOnce(s: State, step: Step)
    requires Once(s)
    ensures Once(Next(s, step))
  {
    hide LeastFree, KeyUsed, Proper;
  }

  lemma StepKeepsInv(s: State, step: Step)
    requires Inv(s)
    ensures Inv(Next(s, step))
  {
    hide Next, Distinct, Once;
    StepKeepsDistinct(s, step);
    StepKeepsOnce(s, step);
  }

  lemma {:induction false} RunKeepsInv(s: State, steps: seq<Step>)
    requires Inv(s)
    ensures Inv(Run(s, steps))
  {
    hide Next, Inv;
    if steps != [] {
      RunKeepsInv(s, steps[..|steps| - 1]);
      StepKeepsInv(Run(s, steps[..|steps| - 1]), steps[|steps| - 1]);
    }
  }

  /** Ownership is for good: a job keeps its key, source and target whatever happens to it. */
  lemma {:induction false} OwnershipLasts(s: State, steps: seq<Step>, i: JobId)
    requires i in s.jobs
    ensures var t := Run(s, steps);
            && i in t.jobs && t.jobs[i].key == s.jobs[i].key && t.jobs[i].source == s.jobs[i].source
            && t.jobs[i].target == s.jobs[i].target
            && t.jobs[i].fingerprint == s.jobs[i].fingerprint
  {
    if steps != [] {
      OwnershipLasts(s, steps[..|steps| - 1], i);
    }
  }

  /** Over every run clone jobs own pairwise different targets. */
  lemma {:induction false} TargetsAreDistinct(steps: seq<Step>, i: JobId, j: JobId)
    requires i in Run(Start(), steps).jobs && j in Run(Start(), steps).jobs && i != j
    ensures Run(Start(), steps).jobs[i].target != Run(Start(), steps).jobs[j].target
  {
    RunKeepsInv(Start(), steps);
  }

  /** Over every run an idempotency key leads to at most one clone request. */
  lemma OneSubmissionPerKey(steps: seq<Step>, i: nat, j: nat)
    requires i < j < |Run(Start(), steps).submissions|
    ensures var s := Run(Start(), steps);
            && s.submissions[i] in s.jobs && s.submissions[j] in s.jobs
            && s.jobs[s.submissions[i]].key != s.jobs[s.submissions[j]].key
  {
    RunKeepsInv(Start(), steps);
    var s := Run(Start(), steps);
    assert s.submissions[i] in s.submissions && s.submissions[j] in s.submissions;
  }

  // The handle race --------------------------------------------------------------------------------

  function Handles(log: seq<(JobId, Upid)>, i: JobId): seq<Upid> {
    if log == [] then []
    else if log[|log| - 1].0 == i then Handles(log[..|log| - 1], i) + [log[|log| - 1].1]
    else Handles(log[..|log| - 1], i)
  }

  /** The step resets a job that already has a handle. */
  predicate Erases(s: State, step: Step) {
    step.Lose? && step.handler in s.handlers && s.handlers[step.handler].Submitted?
    && s.handlers[step.handler].job in s.jobs && s.jobs[s.handlers[step.handler].job].handle.Some?
  }

  ghost predicate NeverErases(s: State, steps: seq<Step>) {
    forall n :: 0 <= n < |steps| ==> !Erases(Run(s, steps[..n]), steps[n])
  }

  /** The job's history of handles is exactly the handle it holds. */
  ghost predicate Faithful(s: State) {
    && (forall i :: i in s.jobs ==>
          Handles(s.attached, i) == if s.jobs[i].handle.Some? then [s.jobs[i].handle.value] else [])
    && (forall i :: i !in s.jobs ==> Handles(s.attached, i) == [])
  }

  lemma HandlesGrow(log: seq<(JobId, Upid)>, i: JobId, u: Upid, j: JobId)
    ensures Handles(log + [(i, u)], j) == if i == j then Handles(log, j) + [u] else Handles(log, j)
  {
  }

  lemma AttachKeepsFaithful(s: State, i: JobId, u: Upid)
    requires Faithful(s) && i in s.jobs && (s.jobs[i].handle.None? || s.jobs[i].handle == Some(u))
    ensures Faithful(Attach(s, i, u))
  {
    hide Handles;
    var t := Attach(s, i, u);
    if t.attached != s.attached {
      forall j
        ensures Handles(t.attached, j) == if i == j then Handles(s.attached, j) + [u] else Handles(s.attached, j)
      {
        HandlesGrow(s.attached, i, u, j);
      }
    }
  }

  lemma StepKeepsFaithful(s: State, step: Step)
    requires Faithful(s) && !Erases(s, step)
    ensures Faithful(Next(s, step))
  {
    hide Free, Owned, KeyUsed, Chosen, Handles;
    match step
    case Recover(i, u) =>
      if i in s.jobs && s.jobs[i].handle.None? {
        AttachKeepsFaithful(s, i, u);
      }
    case Record(h) =>
      if h in s.handlers && s.handlers[h].Answered? {
        var i, u := s.handlers[h].job, s.handlers[h].handle;
        if i in s.jobs && CanAttach(s.jobs[i], u) {
          AttachKeepsFaithful(s, i, u);
        }
      }
    case _ =>
  }

  lemma {:induction false} RunKeepsFaithful(steps: seq<Step>)
    requires NeverErases(Start(), steps)
    ensures Faithful(Run(Start(), steps))
  {
    hide Next, Inv, Erases;
    if steps == [] {
    } else {
      var init := steps[..|steps| - 1];
      forall n | 0 <= n < |init| ensures !Erases(Run(Start(), init[..n]), init[n]) {
        assert init[..n] == steps[..n];
      }
      RunKeepsFaithful(init);
      StepKeepsFaithful(Run(Start(), init), steps[|steps| - 1]);
    }
  }

  /** As long as no reset meets a job that has a handle, no job is ever given two. */
  lemma AtMostOneHandle(steps: seq<Step>, i: JobId)
    requires NeverErases(Start(), steps)
    ensures |Handles(Run(Start(), steps).attached, i)| <= 1
  {
    RunKeepsFaithful(steps);
  }

  /** A handle a job holds is the last one written to it. */
  ghost predicate Logged(s: State) {
    forall i :: i in s.jobs && s.jobs[i].handle.Some? ==>
      var n := |Handles(s.attached, i)|; n > 0 && Handles(s.attached, i)[n - 1] == s.jobs[i].handle.value
  }

  lemma AttachKeepsLogged(s: State, i: JobId, u: Upid)
    requires Logged(s) && i in s.jobs
    ensures Logged(Attach(s, i, u))
  {
    var t := Attach(s, i, u);
    if t.attached != s.attached {
      forall j
        ensures Handles(t.attached, j) == if i == j then Handles(s.attached, j) + [u] else Handles(s.attached, j)
      {
        HandlesGrow(s.attached, i, u, j);
      }
    }
  }

  lemma StepKeepsLogged(s: State, step: Step)
    requires Logged(s)
    ensures Logged(Next(s, step))
  {
    hide Free, Owned, KeyUsed, Chosen, Handles, Attach;
    match step
    case Recover(i, u) =>
      if i in s.jobs {
        AttachKeepsLogged(s, i, u);
      }
    case Record(h) =>
      if h in s.handlers && s.handlers[h].Answered? && s.handlers[h].job in s.jobs {
        AttachKeepsLogged(s, s.handlers[h].job, s.handlers[h].handle);
      }
    case _ =>
  }

  lemma {:induction false} RunKeepsLogged(s: State, steps: seq<Step>)
    requires Logged(s)
    ensures Logged(Run(s, steps))
  {
    hide Next, Logged;
    if steps != [] {
      RunKeepsLogged(s, steps[..|steps| - 1]);
      StepKeepsLogged(Run(s, steps[..|steps| - 1]), steps[|steps| - 1]);
    }
  }

  /**
   And in every run a reset that does meet one leaves the job open to whatever task passes the
   recovery's verification: the erased handle and the new one are then both in the job's history.
   */
  lemma ErasureAdmitsSecondHandle(steps: seq<Step>, h: HandlerId, u: Upid)
    requires var s := Run(Start(), steps); Erases(s, Lose(h)) && (s.handlers[h].job, u) in s.tasks
    ensures var s := Run(Start(), steps);
            var i := s.handlers[h].job;
            var before, t := Handles(s.attached, i), Run(s, [Lose(h), Recover(i, u)]);
            && before != [] && before[|before| - 1] == s.jobs[i].handle.value
            && Handles(t.attached, i) == before + [u] && i in t.jobs && t.jobs[i].handle == Some(u)
  {
    var s := Run(Start(), steps);
    RunKeepsLogged(Start(), steps);
    EraseThenRecover(s, h, u);
  }

  lemma EraseThenRecover(s: State, h: HandlerId, u: Upid)
    requires Erases(s, Lose(h)) && (s.handlers[h].job, u) in s.tasks
    ensures var i := s.handlers[h].job;
            var t := Run(s, [Lose(h), Recover(i, u)]);
            Handles(t.attached, i) == Handles(s.attached, i) + [u] && i in t.jobs && t.jobs[i].handle == Some(u)
  {
    var i := s.handlers[h].job;
    RunTwo(s, Lose(h), Recover(i, u));
    HandlesGrow(s.attached, i, u, i);
  }

  lemma RunTwo(s: State, a: Step, b: Step)
    ensures Run(s, [a, b]) == Next(Next(s, a), b)
  {
    hide Next;
    assert [a, b][..1] == [a] && [a][..0] == [];
    assert Run(s, [a]) == Next(s, a);
  }

  // When an attached handle and a finished job are final --------------------------------------------

  /** Some request for the job has still to make its clone call, or has one that is not answered. */
  ghost predicate CallOpen(s: State, i: JobId) {
    exists h :: h in s.handlers && s.handlers[h].job == i && !s.handlers[h].Answered?
  }

  predicate Finished(j: Job) { j.state == Succeeded || j.state == Failed }

  lemma StepKeepsRecord(s: State, step: Step, i: JobId)
    requires i in s.jobs && !CallOpen(s, i) && s.jobs[i].handle.Some? && s.jobs[i].state != Accepted
    ensures var t := Next(s, step);
            && i in t.jobs && !CallOpen(t, i) && t.jobs[i].handle == s.jobs[i].handle && t.jobs[i].state != Accepted
            && (Finished(s.jobs[i]) ==> t.jobs[i] == s.jobs[i])
  {
    hide Free, Owned, KeyUsed, Chosen;
  }

  lemma {:induction false} RunKeepsRecord(s: State, future: seq<Step>, i: JobId)
    requires i in s.jobs && !CallOpen(s, i) && s.jobs[i].handle.Some? && s.jobs[i].state != Accepted
    ensures var t := Run(s, future);
            && i in t.jobs && !CallOpen(t, i) && t.jobs[i].handle == s.jobs[i].handle && t.jobs[i].state != Accepted
            && (Finished(s.jobs[i]) ==> t.jobs[i] == s.jobs[i])
  {
    hide Next, CallOpen;
    if future != [] {
      RunKeepsRecord(s, future[..|future| - 1], i);
      StepKeepsRecord(Run(s, future[..|future| - 1]), future[|future| - 1], i);
    }
  }

  /** A request whose clone call is not answered can still reset the job, whatever it has become. */
  lemma CallerCanReset(s: State, h: HandlerId) returns (future: seq<Step>)
    requires h in s.handlers && s.handlers[h].job in s.jobs && !s.handlers[h].Answered?
    ensures var i, t := s.handlers[h].job, Run(s, future);
            i in t.jobs && t.jobs[i].state == Accepted && t.jobs[i].handle == None
  {
    if s.handlers[h].Reserved? {
      future := [Submit(h), Lose(h)];
      RunTwo(s, Submit(h), Lose(h));
    } else {
      future := [Lose(h)];
      assert [Lose(h)][..0] == [];
    }
  }

  /**
   Terminal work stays terminal, with its handle, in every continuation if and only if no request for
   the job has its clone call before it or unanswered.  The same condition makes a handle final.
   */
  lemma FinalOnceAnswered(s: State, i: JobId)
    requires Inv(s) && i in s.jobs && s.jobs[i].handle.Some? && s.jobs[i].state != Accepted
    ensures (forall future :: i in Run(s, future).jobs && Run(s, future).jobs[i].handle == s.jobs[i].handle) <==>
              !CallOpen(s, i)
    ensures Finished(s.jobs[i]) ==>
              ((forall future :: i in Run(s, future).jobs && Run(s, future).jobs[i] == s.jobs[i]) <==> !CallOpen(s, i))
  {
    hide Next, Run;
    if CallOpen(s, i) {
      var h :| h in s.handlers && s.handlers[h].job == i && !s.handlers[h].Answered?;
      var future := CallerCanReset(s, h);
      assert Run(s, future).jobs[i].handle == None;
    } else {
      forall future ensures i in Run(s, future).jobs && Run(s, future).jobs[i].handle == s.jobs[i].handle
                            && (Finished(s.jobs[i]) ==> Run(s, future).jobs[i] == s.jobs[i]) {
        RunKeepsRecord(s, future, i);
      }
    }
  }

  const WISH := Wish("job", "key", "print", 100, 200, {}, false)
  const JOB := Job("key", "print", 100, 200, Accepted, None)

  /** The job reserved, its clone request sent, and the task that request started seen to have finished. */
  const SENT := State(map["job" := JOB], {}, {}, map[1 := Submitted("job")], ["job"], [], {})
  const SEEN := SENT.(tasks := {("job", "UPID:a")})

  lemma SeenIsReachable()
    ensures Run(Start(), [Reserve(1, WISH, 200), Submit(1)]) == SENT && Next(SENT, Witness("job", "UPID:a")) == SEEN
  {
    assert LeastFree(Start(), WISH, 200);
    RunTwo(Start(), Reserve(1, WISH, 200), Submit(1));
  }

  /**
   The reply is lost, the one task is recovered and completes, and only then the failed call's own
   reset runs: the finished job is back at accepted, without its handle.
   */
  lemma ResetAfterRecovery()
    ensures Run(Start(), [Reserve(1, WISH, 200), Submit(1)]) == SENT && Next(SENT, Witness("job", "UPID:a")) == SEEN
    ensures var done := Run(SEEN, [Recover("job", "UPID:a"), Complete("job", true)]);
            && "job" in done.jobs && done.jobs["job"] == JOB.(state := Succeeded, handle := Some("UPID:a"))
            && "job" in Next(done, Lose(1)).jobs && Next(done, Lose(1)).jobs["job"] == JOB
  {
    SeenIsReachable();
    RunTwo(SEEN, Recover("job", "UPID:a"), Complete("job", true));
    var s := Next(SEEN, Recover("job", "UPID:a"));
    assert s.handlers == SEEN.handlers && s.jobs == map["job" := JOB.(state := Running, handle := Some("UPID:a"))];
    var done := Next(s, Complete("job", true));
    assert done.handlers == SEEN.handlers && done.jobs["job"] == JOB.(state := Succeeded, handle := Some("UPID:a"));
  }
}
