/**
 The browser's recovery controller for one clone job.  Requests overlap: a superseded or timed-out one
 may still answer at any later moment, and the page may be left at any time.
 */
module CloneFlow {
  import opened Common
  import J = CloneJobs

  type Upid = string

  datatype Job = Job(id: string, operation: string, state: J.JobState, upid: Option<Upid>)

  datatype Candidate = Candidate(upid: Upid, startTime: int, stopped: bool, exitOk: bool, logMatches: bool)
  datatype Evidence = Evidence(job: string, markerMatches: bool, candidates: seq<Candidate>)

  // What an administrator may choose from ------------------------------------------------------------

  predicate CanInspect(j: Job) { j.operation == "pve.template_clone" && j.state == J.Accepted && j.upid.None? }

  const PREFIX := "UPID:"

  predicate WellFormed(c: Candidate) { PREFIX <= c.upid && 0 < c.startTime < 0x20_0000_0000_0000 }

  predicate NoRepeats(s: seq<Candidate>) { forall i, j :: 0 <= i < j < |s| ==> s[i].upid != s[j].upid }

  predicate Trusted(j: Job, e: Evidence) {
    && CanInspect(j) && e.job == j.id && e.markerMatches && |e.candidates| <= 50
    && (forall i :: 0 <= i < |e.candidates| ==> WellFormed(e.candidates[i])) && NoRepeats(e.candidates)
  }

  predicate Finished(c: Candidate) { c.stopped && c.exitOk && c.logMatches }

  function Eligible(s: seq<Candidate>): seq<Upid> {
    if s == [] then []
    else Eligible(s[..|s| - 1]) + if Finished(s[|s| - 1]) then [s[|s| - 1].upid] else []
  }

  /** `cloneRecoveryChoices`: one malformed or repeated candidate discredits all of them. */
  function Choices(j: Job, e: Evidence): seq<Upid> { if Trusted(j, e) then Eligible(e.candidates) else [] }

  lemma {:induction false} EligibleMembers(s: seq<Candidate>, u: Upid)
    ensures u in Eligible(s) <==> exists i :: 0 <= i < |s| && Finished(s[i]) && s[i].upid == u
  {
    if s != [] {
      var init, c := s[..|s| - 1], s[|s| - 1];
      EligibleMembers(init, u);
      if u in Eligible(init) {
        var i :| 0 <= i < |init| && Finished(init[i]) && init[i].upid == u;
        assert s[i] == init[i];
      } else if Finished(c) && c.upid == u {
        assert s[|s| - 1].upid == u;
      }
    }
  }

  method ListChoices(j: Job, e: Evidence) returns (r: seq<Upid>)
    ensures r == Choices(j, e)
    ensures forall u ::
              u in r <==>
              && Trusted(j, e)
              && exists i :: 0 <= i < |e.candidates| && Finished(e.candidates[i]) && e.candidates[i].upid == u
  {
    var s := e.candidates;
    if !CanInspect(j) || e.job != j.id || !e.markerMatches || |s| > 50 {
      return [];
    }
    var seen: set<Upid> := {};
    for i := 0 to |s|
      invariant forall k :: 0 <= k < i ==> WellFormed(s[k])
      invariant NoRepeats(s[..i]) && seen == set k | 0 <= k < i :: s[k].upid
    {
      if !WellFormed(s[i]) || s[i].upid in seen {
        if s[i].upid in seen {
          var k :| 0 <= k < i && s[k].upid == s[i].upid;
          assert !NoRepeats(s);
        }
        return [];
      }
      seen := seen + {s[i].upid};
    }
    assert s[..|s|] == s;
    r := [];
    for i := 0 to |s|
      invariant r == Eligible(s[..i])
    {
      assert s[..i + 1][..i] == s[..i];
      if Finished(s[i]) {
        r := r + [s[i].upid];
      }
    }
    forall u { EligibleMembers(s, u); }
  }

  // The controller -----------------------------------------------------------------------------------

  datatype View =
    | Idle | Loading | Broken
    | Ready(evidence: Evidence)
    | Submitting(upid: Upid) | Uncertain(upid: Upid) | Checking(upid: Upid)
    | Settled(job: Job) | Conflict(job: Job)

  datatype Purpose = ForEvidence | ForSubmit(upid: Upid) | ForCheck(upid: Upid)

  datatype Flow = Flow(
    job: Job,
    view: View,
    revision: nat,
    disposed: bool,
    outstanding: map<nat, Purpose>, // requests that have not answered, by the revision they were made under
    posts: seq<Upid>)               // every recovery ever submitted

  /** An answer; `Failed_` stands for every rejection, the timeout and the abort included. */
  datatype Answer = Found(evidence: Evidence) | Fetched(job: Job) | Failed_

  datatype Event =
    | Load
    | Submit(upid: Upid, reasonFits: bool)
    | Check
    | Answered(version: nat, answer: Answer)
    | Dispose

  predicate Past(v: View) { v.Submitting? || v.Uncertain? || v.Checking? || v.Settled? || v.Conflict? }

  function Ask(f: Flow, p: Purpose, v: View): Flow {
    f.(revision := f.revision + 1, outstanding := f.outstanding[f.revision + 1 := p], view := v)
  }

  /** What a current answer makes of the view. */
  function Outcome(f: Flow, p: Purpose, a: Answer): View {
    match p
    case ForEvidence => if a.Found? then Ready(a.evidence) else Broken
    case ForSubmit(u) =>
      if a.Fetched? && a.job.id == f.job.id && a.job.upid == Some(u) && a.job.state != J.Accepted
      then Settled(a.job) else Uncertain(u)
    case ForCheck(u) =>
      if a.Fetched? && a.job.id == f.job.id && a.job.upid.Some? && a.job.upid.value != "" && a.job.state != J.Accepted
      then (if a.job.upid == Some(u) then Settled(a.job) else Conflict(a.job)) else Uncertain(u)
  }

  function Next(f: Flow, e: Event): Flow {
    match e
    case Load => if f.disposed || Past(f.view) then f else Ask(f, ForEvidence, Loading)
    case Submit(u, fits) =>
      if f.disposed || !f.view.Ready? || u !in Choices(f.job, f.view.evidence) || !fits then f
      else Ask(f, ForSubmit(u), Submitting(u)).(posts := f.posts + [u])
    case Check => if f.disposed || !f.view.Uncertain? then f else Ask(f, ForCheck(f.view.upid), Checking(f.view.upid))
    case Answered(v, a) =>
      if v !in f.outstanding then f
      else
        var g := f.(outstanding := f.outstanding - {v});
        if f.disposed || v != f.revision then g else g.(view := Outcome(f, f.outstanding[v], a))
    case Dispose => f.(disposed := true, revision := f.revision + 1)
  }

  function Start(j: Job): Flow { Flow(j, Idle, 0, false, map[], []) }

  function Run(f: Flow, events: seq<Event>): Flow {
    if events == [] then f else Next(Run(f, events[..|events| - 1]), events[|events| - 1])
  }

  /** The handle the view speaks of. */
  predicate About(v: View, u: Upid) {
    match v
    case Submitting(w) => w == u
    case Uncertain(w) => w == u
    case Checking(w) => w == u
    case Settled(j) => j.upid == Some(u) && j.state != J.Accepted
    case Conflict(j) => j.upid.Some? && j.upid != Some(u)
    case _ => false
  }

  ghost predicate Inv(f: Flow) {
    && |f.posts| <= 1
    && (Past(f.view) <==> f.posts != [])
    && (f.posts != [] ==> About(f.view, f.posts[0]))
    && (f.view.Settled? || f.view.Conflict? ==> f.view.job.id == f.job.id)
    && (forall v :: v in f.outstanding ==> v <= f.revision)
    && (!f.disposed && f.revision in f.outstanding ==>
          match f.outstanding[f.revision]
          case ForEvidence => f.view == Loading
          case ForSubmit(u) => f.view == Submitting(u)
          case ForCheck(u) => f.view == Checking(u))
  }

  lemma StepKeepsInv(f: Flow, e: Event)
    requires Inv(f)
    ensures Inv(Next(f, e)) && Next(f, e).job == f.job
  {
    hide Choices;
  }

  lemma {:induction false} RunKeepsInv(f: Flow, events: seq<Event>)
    requires Inv(f)
    ensures Inv(Run(f, events)) && Run(f, events).job == f.job
  {
    hide Next, Inv;
    if events != [] {
      RunKeepsInv(f, events[..|events| - 1]);
      StepKeepsInv(Run(f, events[..|events| - 1]), events[|events| - 1]);
    }
  }

  /** In its whole life a controller submits at most once, and only a handle it was offered. */
  lemma SubmitsAtMostOnce(j: Job, events: seq<Event>)
    ensures |Run(Start(j), events).posts| <= 1
  {
    RunKeepsInv(Start(j), events);
  }

  /** Settled always speaks of this job and of the handle that was submitted. */
  lemma SettledCarriesSubmission(j: Job, events: seq<Event>)
    requires Run(Start(j), events).view.Settled?
    ensures var f := Run(Start(j), events);
            && f.view.job.id == j.id && f.view.job.upid.Some? && f.posts == [f.view.job.upid.value]
            && f.view.job.state != J.Accepted
  {
    RunKeepsInv(Start(j), events);
  }

  /** The request made under `v` no longer counts. */
  predicate Superseded(f: Flow, v: nat) { v < f.revision || f.disposed }

  /** Once superseded, a request never counts again, whatever happens later. */
  lemma {:induction false} SupersededForGood(f: Flow, later: seq<Event>, v: nat)
    requires Superseded(f, v)
    ensures Superseded(Run(f, later), v)
  {
    if later != [] {
      SupersededForGood(f, later[..|later| - 1], v);
    }
  }

  /** Two controllers that differ only in which superseded requests have already answered. */
  ghost predicate Alike(f: Flow, g: Flow) {
    && g == f.(outstanding := g.outstanding)
    && (!f.disposed ==> (f.revision in f.outstanding <==> f.revision in g.outstanding))
    && (!f.disposed && f.revision in f.outstanding ==> f.outstanding[f.revision] == g.outstanding[f.revision])
  }

  lemma StepKeepsAlike(f: Flow, g: Flow, e: Event)
    requires Alike(f, g)
    ensures Alike(Next(f, e), Next(g, e))
  {
    hide Choices;
  }

  /**
   A reply to a superseded request never matters: delivered at any point, it leaves every later view,
   every submission and every request made afterwards exactly as without it.
   */
  lemma {:induction false} SupersededNeverMatters(f: Flow, v: nat, a: Answer, later: seq<Event>)
    requires Superseded(f, v)
    ensures Alike(Run(f, later), Run(Next(f, Answered(v, a)), later))
  {
    hide Choices;
    if later != [] {
      SupersededNeverMatters(f, v, a, later[..|later| - 1]);
      var init := later[..|later| - 1];
      StepKeepsAlike(Run(f, init), Run(Next(f, Answered(v, a)), init), later[|later| - 1]);
    }
  }

  /** After disposal neither the view nor the submissions ever change. */
  lemma {:induction false} DisposedIsFinal(f: Flow, later: seq<Event>)
    requires f.disposed
    ensures var g := Run(f, later); g.disposed && g.view == f.view && g.posts == f.posts
  {
    if later != [] {
      DisposedIsFinal(f, later[..|later| - 1]);
    }
  }

  /** Settled and conflict are final, whatever is clicked or still arrives. */
  lemma {:induction false} SettledIsFinal(j: Job, past: seq<Event>, future: seq<Event>)
    requires Run(Start(j), past).view.Settled? || Run(Start(j), past).view.Conflict?
    ensures Run(Run(Start(j), past), future).view == Run(Start(j), past).view
  {
    if future != [] {
      var f := Run(Start(j), past);
      SettledIsFinal(j, past, future[..|future| - 1]);
      RunKeepsInv(Start(j), past);
      RunKeepsInv(f, future[..|future| - 1]);
      FinalStep(Run(f, future[..|future| - 1]), future[|future| - 1]);
    }
  }

  lemma FinalStep(f: Flow, e: Event)
    requires Inv(f) && (f.view.Settled? || f.view.Conflict?)
    ensures Next(f, e).view == f.view
  {
  }

  /** The closure over `state`, `revision`, `disposed` and the requests under way. */
  class Controller {
    const job: Job
    var view: View
    var revision: nat
    var disposed: bool
    var outstanding: map<nat, Purpose>
    ghost var posts: seq<Upid>

    ghost function Value(): Flow
      reads this
    {
      Flow(job, view, revision, disposed, outstanding, posts)
    }

    constructor (j: Job)
      ensures Value() == Start(j) && Inv(Value())
    {
      job := j;
      view, revision, disposed, outstanding, posts := Idle, 0, false, map[], [];
    }

    method Request(p: Purpose)
      modifies this`revision, this`outstanding
      ensures revision == old(revision) + 1 && outstanding == old(outstanding)[revision := p]
    {
      revision := revision + 1;
      outstanding := outstanding[revision := p];
    }

    method Load()
      requires Inv(Value())
      modifies this
      ensures Value() == Next(old(Value()), Event.Load) && Inv(Value())
    {
      StepKeepsInv(Value(), Event.Load);
      if disposed || Past(view) {
        return;
      }
      Request(ForEvidence);
      view := Loading;
    }

    method Submit(upid: Upid, reasonFits: bool)
      requires Inv(Value())
      modifies this
      ensures Value() == Next(old(Value()), Event.Submit(upid, reasonFits)) && Inv(Value())
    {
      StepKeepsInv(Value(), Event.Submit(upid, reasonFits));
      if disposed || !view.Ready? {
        return;
      }
      var choices := ListChoices(job, view.evidence);
      if upid !in choices || !reasonFits {
        return;
      }
      Request(ForSubmit(upid));
      view := Submitting(upid);
      posts := posts + [upid];
    }

    method Check()
      requires Inv(Value())
      modifies this
      ensures Value() == Next(old(Value()), Event.Check) && Inv(Value())
    {
      StepKeepsInv(Value(), Event.Check);
      if disposed || !view.Uncertain? {
        return;
      }
      var upid := view.upid;
      Request(ForCheck(upid));
      view := Checking(upid);
    }

    method Receive(version: nat, a: Answer)
      requires Inv(Value()) && version in outstanding
      modifies this
      ensures Value() == Next(old(Value()), Answered(version, a)) && Inv(Value())
      ensures version != old(revision) || old(disposed) ==> view == old(view)
    {
      StepKeepsInv(Value(), Answered(version, a));
      var purpose := outstanding[version];
      outstanding := outstanding - {version};
      if !disposed && version == revision {
        view := Outcome(Flow(job, view, revision, disposed, outstanding, []), purpose, a);
      }
    }

    method Dispose()
      requires Inv(Value())
      modifies this
      ensures Value() == Next(old(Value()), Event.Dispose) && Inv(Value())
      ensures forall later :: Run(Value(), later).view == old(view) && Run(Value(), later).posts == old(posts)
    {
      StepKeepsInv(Value(), Event.Dispose);
      disposed := true;
      revision := revision + 1;
      forall later ensures Run(Value(), later).view == old(view) && Run(Value(), later).posts == old(posts) {
        DisposedIsFinal(Value(), later);
      }
    }
  }
}
