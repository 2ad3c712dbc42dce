/**
 The Guest side of an Agent login: a durable fence ordered by lease epoch and login generation,
 and the OS account behind it.  One command performs the whole login: it closes the account,
 installs a password, logs in, retires the password and seals the fence; it can fail or die
 between any two of these.
 */
module AgentFence {
  import opened Common

  type LeaseId = nat

  datatype Phase = Opening | Sealed | Revoked

  datatype Fence = Fence(lease: LeaseId, epoch: nat, login: nat, expires: nat, phase: Phase)

  /** A login (`stop` false) or a revocation of one login generation of one lease. */
  datatype Request = Request(uid: nat, lease: LeaseId, epoch: nat, login: nat, expires: nat, stop: bool)

  predicate ValidRequest(q: Request) {
    && 0 < q.epoch <= MAX_INT64 && 0 < q.login <= MAX_INT64
    && (if q.stop then q.expires == 0 else 0 < q.expires < 0xffff_ffff)
  }

  /** Opening counts as interrupted: only a sealed, unexpired fence keeps a lease usable. */
  predicate LoginLive(f: Fence, now: nat) { f.phase == Sealed && f.expires > now }

  function Revoke(f: Fence): Fence { f.(phase := Revoked, expires := 0) }

  function PendingFence(q: Request): Fence {
    Fence(q.lease, q.epoch, q.login, q.expires, if q.stop then Revoked else Opening)
  }

  function CompletedFence(q: Request): Fence {
    Fence(q.lease, q.epoch, q.login, q.expires, if q.stop then Revoked else Sealed)
  }

  /** `plan`. */
  predicate Accepts(previous: Option<Fence>, q: Request, now: nat) {
    && ValidRequest(q)
    && (q.stop || now < q.expires <= now + 28_800)
    && (previous.Some? ==>
          var prior := previous.value;
          && q.epoch >= prior.epoch
          && (q.epoch == prior.epoch ==>
                && q.lease == prior.lease && q.login >= prior.login
                && (!q.stop ==> q.login > prior.login && LoginLive(prior, now) && q.expires == prior.expires)))
  }

  datatype Stage = Begun | Locked | Drained | Keyed | Usable | Done

  datatype Job = Job(request: Request, stage: Stage)

  /** `secret`: the account's password is known to the login in progress. */
  datatype Guest = Guest(
    uid: Option<nat>, fence: Option<Fence>, unlocked: bool, expiryDay: Option<nat>,
    processes: bool, writers: bool, secret: bool, job: Option<Job>, clock: nat)

  predicate Disabled(g: Guest) { !g.unlocked || (g.expiryDay.Some? && g.expiryDay.value <= g.clock / 86400) }

  predicate LiveState(g: Guest, f: Fence) {
    LoginLive(f, g.clock) && !Disabled(g) && g.expiryDay == Some(ShadowDay(f.expires))
  }

  function LockLogin(g: Guest): Guest { g.(unlocked := false, expiryDay := Some(1)) }
  function Drain(g: Guest): Guest { g.(processes := false, writers := false) }

  function DisableUpTo(g: Guest, progress: nat): Guest {
    if progress == 0 then g else if progress == 1 then LockLogin(g) else Drain(LockLogin(g))
  }

  datatype GuestStep =
    | Provision(uid: nat)
    | Accept(request: Request)
    | Advance
    | Finish
    | Fail(recorded: bool, progress: nat)
    | Crash
    | Reconcile(progress: nat)
    | Activity(processes: bool, writers: bool) // logins, children and exits of the account
    | Tick(seconds: nat)

  function AdvanceJob(g: Guest, j: Job): Guest {
    match (j.request.stop, j.stage)
    case (_, Begun) => LockLogin(g).(job := Some(j.(stage := Locked)))
    case (true, Locked) => Drain(g).(job := Some(j.(stage := Done)))
    case (false, Locked) => Drain(g).(job := Some(j.(stage := Drained)))
    case (false, Drained) => g.(secret := true, job := Some(j.(stage := Keyed)))
    case (false, Keyed) =>
      g.(unlocked := true, expiryDay := Some(ShadowDay(j.request.expires)), job := Some(j.(stage := Usable)))
    case (false, Usable) => if g.processes then g.(secret := false, job := Some(j.(stage := Done))) else g
    case _ => g
  }

  /** A password that would still let somebody in. */
  predicate CanLogin(g: Guest) { g.secret && !Disabled(g) }

  function GuestNext(g: Guest, s: GuestStep): Guest {
    match s
    case Provision(u) => if g.uid.None? && g.job.None? then LockLogin(g).(uid := Some(u)) else g
    case Accept(q) =>
      if g.job.None? && g.uid == Some(q.uid) && Accepts(g.fence, q, g.clock)
      then g.(fence := Some(PendingFence(q)), job := Some(Job(q, Begun))) else g
    case Advance => if g.job.Some? then AdvanceJob(g, g.job.value) else g
    case Finish =>
      if g.job.Some? && g.job.value.stage == Done
         && (g.job.value.request.stop || LiveState(g, CompletedFence(g.job.value.request)))
      then g.(fence := Some(CompletedFence(g.job.value.request)), job := None) else g
    case Fail(recorded, progress) =>
      if g.job.None? then g
      else
        var pending := PendingFence(g.job.value.request);
        DisableUpTo(g, progress).(fence := Some(if recorded then Revoke(pending) else pending), job := None)
    case Crash => g.(job := None)
    case Reconcile(progress) =>
      if g.job.Some? || g.fence.None? || LiveState(g, g.fence.value) then g
      else DisableUpTo(g, progress).(fence := Some(Revoke(g.fence.value)))
    case Activity(p, w) => if g.processes || g.writers || CanLogin(g) then g.(processes := p, writers := w) else g
    case Tick(d) => g.(clock := g.clock + d)
  }

  predicate GuestInv(g: Guest) {
    && (g.job.Some? ==> g.fence == Some(PendingFence(g.job.value.request)))
    && (g.job.Some? && g.job.value.stage == Done && !g.job.value.request.stop ==> !g.secret)
    && (g.fence.Some? && g.fence.value.phase == Sealed ==> !g.secret)
  }

  predicate OpenJob(g: Guest) { g.job.Some? && !g.job.value.request.stop }

  /** Nothing of the account runs, nothing is starting, and nobody could log in. */
  predicate Quiet(g: Guest) { !g.processes && !g.writers && !CanLogin(g) && !OpenJob(g) }

  /** The fence turns the login away, now and for good. */
  predicate Spent(g: Guest, q: Request) {
    && g.fence.Some?
    && var f := g.fence.value;
       f.epoch > q.epoch || (f.epoch == q.epoch && (f.phase == Revoked || q.login <= f.login))
  }

  predicate RevokedFrom(g: Guest, epoch: nat) {
    g.fence.Some? && (g.fence.value.epoch > epoch || (g.fence.value.epoch == epoch && g.fence.value.phase == Revoked))
  }

  lemma GuestStepKeepsInv(g: Guest, s: GuestStep)
    requires GuestInv(g)
    ensures GuestInv(GuestNext(g, s)) && (g.uid.Some? ==> GuestNext(g, s).uid == g.uid)
  {
  }

  lemma SpentForGood(g: Guest, s: GuestStep, q: Request)
    requires GuestInv(g) && Spent(g, q)
    ensures Spent(GuestNext(g, s), q)
  {
  }

  lemma RevocationLasts(g: Guest, s: GuestStep, epoch: nat)
    requires GuestInv(g) && RevokedFrom(g, epoch)
    ensures RevokedFrom(GuestNext(g, s), epoch)
  {
  }

  /** The step takes up a login. */
  predicate TakesLogin(g: Guest, s: GuestStep) { s.Accept? && !s.request.stop && GuestNext(g, s) != g }

  /** Only a login that is taken up ends the quiet. */
  lemma QuietLasts(g: Guest, s: GuestStep)
    requires GuestInv(g) && Quiet(g) && !TakesLogin(g, s)
    ensures Quiet(GuestNext(g, s))
  {
  }

  lemma TakenLoginIsSpent(g: Guest, s: GuestStep)
    requires TakesLogin(g, s)
    ensures !Spent(g, s.request) && Spent(GuestNext(g, s), s.request)
  {
  }

  // What an inspection under the account gate shows ------------------------------------------------

  datatype Observation = Observation(
    uid: Option<nat>, disabled: bool, expiryDay: Option<nat>, processes: bool, writers: bool, lifecycle: Option<Fence>)

  function Observe(g: Guest): Observation {
    Observation(g.uid, Disabled(g), g.expiryDay, g.processes, g.writers, g.fence)
  }
}
