/**
 The Guest's durable credential fence and the account gate around it.  A command is planned
 against the stored fence, its intent is persisted, the OS account is changed step by step,
 and only then is the completed fence persisted.  The dispatcher can fail or be killed between
 any two of those steps; a local sweep then closes the account at the same revision.
 */
module GuestFence {
  import opened Common
  import opened NativeAccount

  datatype Phase = Issuing | Issued | Retiring | Retired | Revoked

  datatype Fence = Fence(identity: Identity, connection: ConnId, revision: nat, expires: nat, phase: Phase)

  /** A credential command; the password of an issue is an opaque value named by its revision. */
  datatype Request = Request(identity: Identity, connection: ConnId, revision: nat, expires: nat, operation: Operation)

  predicate ValidExpiry(e: nat) { 0 < e < 0xffff_ffff }

  predicate ValidRequest(q: Request) {
    && ValidIdentity(q.identity) && q.connection != NoConnection && 0 < q.revision <= MAX_INT64
    && match q.operation
       case Issue => ValidExpiry(q.expires)
       case Retire => ValidExpiry(q.expires)
       case Revoke => q.expires == 0
       case NoOperation => false
  }

  predicate ValidFence(f: Fence) {
    && ValidIdentity(f.identity) && f.connection != NoConnection && 0 < f.revision <= MAX_INT64
    && (if f.phase == Revoked then f.expires == 0 else ValidExpiry(f.expires))
  }

  predicate RetainedFence(f: Fence, now: nat) {
    (f.phase == Issued || f.phase == Retired) && f.expires > now
  }

  function RevokedFence(f: Fence): Fence { f.(phase := Revoked, expires := 0) }

  function PendingPhase(op: Operation): Phase {
    match op case Issue => Issuing case Retire => Retiring case _ => Revoked
  }

  function CompletedPhase(op: Operation): Phase {
    match op case Issue => Issued case Retire => Retired case _ => Revoked
  }

  function PendingFence(q: Request): Fence {
    Fence(q.identity, q.connection, q.revision, q.expires, PendingPhase(q.operation))
  }
  function CompletedFence(q: Request): Fence {
    Fence(q.identity, q.connection, q.revision, q.expires, CompletedPhase(q.operation))
  }

  datatype Plan = Plan(observeOnly: bool, preserveDesktop: bool)

  /** `plan`: `None` is a denied request.  The pending and completed fences are those of the request. */
  function PlanFor(previous: Option<Fence>, q: Request, now: nat): Option<Plan> {
    if !ValidRequest(q) || (q.operation != Revoke && (q.expires <= now || q.expires - now > 28_800)) then None
    else if previous.Some?
            && (|| !ValidFence(previous.value)
                || previous.value.identity != q.identity || q.revision < previous.value.revision)
    then None
    else match q.operation
      case Issue =>
        if previous.Some? then
          var prior := previous.value;
          if q.revision != prior.revision + 1 || q.connection == prior.connection
             || !(prior.phase == Revoked || (prior.phase == Retired && RetainedFence(prior, now)))
          then None
          else Some(Plan(false, prior.phase == Retired))
        else if q.revision != 1 then None else Some(Plan(false, false))
      case Retire =>
        if previous.None? then None
        else
          var prior := previous.value;
          if q.connection != prior.connection || q.expires != prior.expires || !RetainedFence(prior, now)
             || !(|| (prior.phase == Issued && q.revision == prior.revision + 1)
                  || (prior.phase == Retired && q.revision == prior.revision))
          then None
          else Some(Plan(prior.phase == Retired, true))
      case _ =>
        if previous.Some? && q.revision == previous.value.revision
           && (q.connection != previous.value.connection || previous.value.phase != Revoked)
        then None
        else Some(Plan(false, false))
  }

  /**
   The OS account: whether its login is unlocked, its shadow expiry day, whether any process or
   login writer of it is alive, and the revision whose issued password it accepts, if any.
   */
  datatype Os = Os(unlocked: bool, expiryDay: Option<nat>, occupied: bool, secret: Option<nat>)

  /** How far the dispatcher holding the account gate has come. */
  datatype Stage = Begun | Locked | Drained | Keyed | Done

  datatype Job = Job(request: Request, preserve: bool, stage: Stage)

  datatype Guest = Guest(identity: Identity, fence: Option<Fence>, os: Os, job: Option<Job>, clock: nat)

  /** A provisioned account: disabled, empty, without a fence. */
  function Provisioned(id: Identity, clock: nat): Guest {
    Guest(id, None, Os(false, None, false, None), None, clock)
  }

  predicate Disabled(os: Os, clock: nat) {
    !os.unlocked || (os.expiryDay.Some? && os.expiryDay.value <= clock / 86400)
  }

  predicate LiveState(os: Os, f: Fence, clock: nat) {
    RetainedFence(f, clock) && !Disabled(os, clock) && os.expiryDay == Some(ShadowDay(f.expires))
  }

  function LockLogin(os: Os): Os { os.(unlocked := false, expiryDay := Some(1)) }
  function Drain(os: Os): Os { os.(occupied := false) }

  /** `disable` interrupted after nothing, after locking the login, or run to its end. */
  function DisableUpTo(os: Os, progress: nat): Os {
    if progress == 0 then os else if progress == 1 then LockLogin(os) else Drain(LockLogin(os))
  }

  /** Steps of the Guest.  A step whose guard fails leaves the Guest as it is. */
  datatype GuestStep =
    | Accept(request: Request)      // take the gate, plan, persist the intent
    | Advance                       // the dispatcher's next OS write
    | Finish                        // persist the completed fence and return its receipt
    | Fail(recorded: bool, progress: nat) // try to persist the revoked fence, disable as far as `progress`
    | Crash                         // the dispatcher dies; the gate is released as things stand
    | Reconcile(progress: nat)      // the local sweep
    | Login                         // an interactive login through the PAM fence
    | Leave                         // the last process of the account exits
    | Tick(seconds: nat)

  function AcceptRequest(g: Guest, q: Request): Guest {
    if g.job.Some? || q.identity != g.identity then g
    else
      var plan := PlanFor(g.fence, q, g.clock);
      if plan.None? then g
      else if plan.value.preserveDesktop && !(g.fence.Some? && LiveState(g.os, g.fence.value, g.clock)) then g
      else if plan.value.observeOnly then g
      else g.(fence := Some(PendingFence(q)), job := Some(Job(q, plan.value.preserveDesktop, Begun)))
  }

  function AdvanceJob(g: Guest): Guest {
    if g.job.None? then g
    else
      var j := g.job.value;
      match (j.request.operation, j.stage)
      case (Issue, Begun) => g.(os := LockLogin(g.os), job := Some(j.(stage := if j.preserve then Drained else Locked)))
      case (Issue, Locked) => g.(os := Drain(g.os), job := Some(j.(stage := Drained)))
      case (Issue, Drained) => g.(os := g.os.(secret := Some(j.request.revision)), job := Some(j.(stage := Keyed)))
      case (Issue, Keyed) =>
        g.(os := g.os.(unlocked := true, expiryDay := Some(ShadowDay(j.request.expires))),
           job := Some(j.(stage := Done)))
      case (Retire, Begun) => g.(os := g.os.(secret := None), job := Some(j.(stage := Done)))
      case (Revoke, Begun) => g.(os := LockLogin(g.os), job := Some(j.(stage := Locked)))
      case (Revoke, Locked) => g.(os := Drain(g.os), job := Some(j.(stage := Done)))
      case _ => g
  }

  function FinishJob(g: Guest): Guest {
    if g.job.None? || g.job.value.stage != Done then g
    else
      var q := g.job.value.request;
      if q.operation != Revoke && !LiveState(g.os, CompletedFence(q), g.clock) then g
      else g.(fence := Some(CompletedFence(q)), job := None)
  }

  function FailJob(g: Guest, recorded: bool, progress: nat): Guest {
    if g.job.None? then g
    else
      var pending := PendingFence(g.job.value.request);
      g.(fence := Some(if recorded then RevokedFence(pending) else pending),
         os := DisableUpTo(g.os, progress), job := None)
  }

  function ReconcileAccount(g: Guest, progress: nat): Guest {
    if g.job.Some? || g.fence.None? || LiveState(g.os, g.fence.value, g.clock) then g
    else g.(fence := Some(RevokedFence(g.fence.value)), os := DisableUpTo(g.os, progress))
  }

  /** A login needs the gate free, an enabled account and an issued, unexpired fence. */
  predicate LoginPossible(g: Guest) {
    && g.job.None? && g.fence.Some? && g.fence.value.phase == Issued && g.fence.value.expires > g.clock
    && !Disabled(g.os, g.clock)
  }

  function GuestNext(g: Guest, s: GuestStep): Guest {
    match s
    case Accept(q) => AcceptRequest(g, q)
    case Advance => AdvanceJob(g)
    case Finish => FinishJob(g)
    case Fail(r, p) => FailJob(g, r, p)
    case Crash => g.(job := None)
    case Reconcile(p) => ReconcileAccount(g, p)
    case Login => if LoginPossible(g) then g.(os := g.os.(occupied := true)) else g
    case Leave => g.(os := g.os.(occupied := false))
    case Tick(d) => g.(clock := g.clock + d)
  }

  /** The account is shut: no login can start and nothing of it runs. */
  predicate Shut(g: Guest) { Disabled(g.os, g.clock) && !g.os.occupied }

  function FenceRevision(g: Guest): nat { if g.fence.Some? then g.fence.value.revision else 0 }

  /** A fence the command `q` can have left behind, at any point of its execution or after a self-closure. */
  predicate LeftBy(f: Fence, q: Request) {
    && f.identity == q.identity && f.connection == q.connection && f.revision == q.revision
    && (if f.phase == Revoked then f.expires == 0
        else f.expires == q.expires && (f.phase == PendingPhase(q.operation) || f.phase == CompletedPhase(q.operation)))
  }

  /** What holds of the Guest alone after any number of its steps. */
  predicate GuestInv(g: Guest) {
    && (g.fence.Some? ==> ValidFence(g.fence.value) && g.fence.value.identity == g.identity)
    && (g.job.Some? ==>
          && g.fence == Some(PendingFence(g.job.value.request)) && ValidRequest(g.job.value.request)
          && g.job.value.request.operation in {Issue, Retire, Revoke})
    && (g.job.Some? && g.job.value.request.operation == Issue && g.job.value.stage in {Keyed, Done} ==>
          g.os.secret == Some(g.job.value.request.revision))
    && (g.job.Some? && g.job.value.request.operation == Retire && g.job.value.stage == Done ==> g.os.secret == None)
    && (g.fence.Some? && g.fence.value.phase == Issued ==> g.os.secret == Some(g.fence.value.revision))
    && (g.fence.Some? && g.fence.value.phase == Retired ==> g.os.secret == None)
  }

  lemma GuestStepKeepsInv(g: Guest, s: GuestStep)
    requires GuestInv(g)
    ensures GuestInv(GuestNext(g, s))
  {
  }

  /** The fence never goes back, keeps the pinned identity, and one revision keeps one connection. */
  lemma GuestStepIsMonotone(g: Guest, s: GuestStep)
    requires GuestInv(g)
    ensures FenceRevision(g) <= FenceRevision(GuestNext(g, s))
    ensures GuestNext(g, s).identity == g.identity
    ensures g.fence.Some? && FenceRevision(GuestNext(g, s)) == FenceRevision(g) ==>
              GuestNext(g, s).fence.value.connection == g.fence.value.connection
    ensures g.fence.Some? && g.fence.value.phase == Revoked && FenceRevision(GuestNext(g, s)) == FenceRevision(g) ==>
              GuestNext(g, s).fence == g.fence
  {
  }

  /** What a revocation does at the Guest when nothing interrupts it. */
  function RunRevocation(g: Guest, q: Request): Guest {
    FinishJob(AdvanceJob(AdvanceJob(AcceptRequest(g, q))))
  }

  /**
   A free gate always takes a higher revocation, and takes the exact one again; run through, it
   leaves the account shut.  This is what lets an unknown outcome be superseded.
   */
  lemma RevocationCloses(g: Guest, q: Request)
    requires GuestInv(g) && g.job.None?
    requires ValidRequest(q) && q.operation == Revoke && q.identity == g.identity
    requires q.revision > FenceRevision(g) || g.fence == Some(CompletedFence(q))
    ensures RunRevocation(g, q).fence == Some(CompletedFence(q)) && RunRevocation(g, q).job.None?
    ensures Shut(RunRevocation(g, q)) && RunRevocation(g, q).identity == g.identity
  {
  }

  // What the control plane learns from one inspection -------------------------------------------

  datatype Observation = Observation(
    identity: Identity, exists_: bool, disabled: bool, expiryDay: Option<nat>, empty: bool, lifecycle: Option<Fence>)

  /** An inspection takes the gate, so it reports only states between commands. */
  function Observe(g: Guest): Option<Observation> {
    if g.job.Some? then None
    else Some(Observation(g.identity, true, Disabled(g.os, g.clock), g.os.expiryDay, !g.os.occupied, g.fence))
  }

  predicate Matches(o: Observation, q: Request, phase: Phase) {
    o.identity == q.identity && o.lifecycle == Some(Fence(q.identity, q.connection, q.revision, q.expires, phase))
  }

  predicate Closed(o: Observation) { o.disabled && o.empty }

  predicate Retained(o: Observation, now: nat) {
    && o.exists_ && !o.disabled && o.lifecycle.Some?
    && (o.lifecycle.value.phase == Issued || o.lifecycle.value.phase == Retired)
    && o.lifecycle.value.expires > now && o.expiryDay == Some(ShadowDay(o.lifecycle.value.expires))
  }
}
