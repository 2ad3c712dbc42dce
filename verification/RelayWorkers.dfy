/**
 The goroutines of the relay: for each tunnel the serving routine, two copy workers and the renewal
 request it may have outstanding, with their channels, interleaved in every order.  The stages after
 `Selecting` are the deferred calls in the order in which they run.
 */
module RelayWorkers {
  type TunnelId = nat

  datatype Worker = Unstarted | Copying | Finished

  datatype Stage =
    | Arrived
    | Holding                  // slot taken, redemption under way
    | Connecting               // valid grant, dialling
    | Selecting                // in the select loop
    | PuttingBack(failed: bool)// took a worker's result, about to put it back
    | Joining(left: nat)       // sockets closed, waiting for that many results
    | Closing                  // about to send the close RPC
    | Releasing                // about to give the slot back
    | Exited

  datatype Tunnel = Tunnel(
    stage: Stage,
    toGuest: Worker, toClient: Worker,
    done: seq<bool>,      // the two-slot result channel
    armed: bool,          // the renewal timer
    asking: nat,          // renewal requests under way
    replies: nat,         // the one-slot reply channel
    mustClose: bool, closeCalls: nat, taken: nat, released: nat)

  const DONE_CAPACITY := 2
  const REPLY_CAPACITY := 1

  datatype Relay = Relay(capacity: nat, slots: nat, tunnels: map<TunnelId, Tunnel>)

  datatype Redemption = NoGrant | UnusableGrant | GoodGrant
  datatype Pick = Cancelled | Expired | WorkerResult | RenewalDue | Reply(accepted: bool)

  datatype Step =
    | Arrive(tunnel: TunnelId)
    | TakeSlot(tunnel: TunnelId)
    | Redeem(tunnel: TunnelId, outcome: Redemption)
    | Connect(tunnel: TunnelId, ok: bool)
    | Select(tunnel: TunnelId, pick: Pick)
    | PutBack(tunnel: TunnelId)
    | Join(tunnel: TunnelId)
    | CallClose(tunnel: TunnelId)
    | ReleaseSlot(tunnel: TunnelId)
    | FinishCopy(tunnel: TunnelId, outbound: bool, failed: bool)
    | AnswerRenewal(tunnel: TunnelId)

  function Fresh(): Tunnel { Tunnel(Arrived, Unstarted, Unstarted, [], false, 0, 0, false, 0, 0, 0) }

  /** After a failure before the workers started, the remaining deferred calls begin with the close RPC, if owed. */
  function Leave(k: Tunnel): Tunnel { k.(stage := if k.mustClose then Closing else Releasing) }

  function Picked(k: Tunnel, pick: Pick): Tunnel {
    match pick
    case Cancelled => k.(stage := Joining(2))
    case Expired => k.(stage := Joining(2))
    case WorkerResult => if k.done == [] then k else k.(done := k.done[1..], stage := PuttingBack(k.done[0]))
    case RenewalDue => if !k.armed then k else k.(armed := false, asking := k.asking + 1)
    case Reply(accepted) =>
      if k.replies == 0 then k
      else if accepted then k.(replies := k.replies - 1, armed := true)
      else k.(replies := k.replies - 1, stage := Joining(2))
  }

  /** A copy worker sends its result when the channel has room, and ends. */
  function Copied(k: Tunnel, outbound: bool, failed: bool): Tunnel {
    if |k.done| >= DONE_CAPACITY then k
    else if outbound && k.toGuest == Copying then k.(toGuest := Finished, done := k.done + [failed])
    else if !outbound && k.toClient == Copying then k.(toClient := Finished, done := k.done + [failed])
    else k
  }

  /** The step of one tunnel that does not touch the slots. */
  function Advance(k: Tunnel, step: Step): Tunnel {
    match step
    case Redeem(_, outcome) =>
      if k.stage != Holding then k
      else if outcome == NoGrant then Leave(k)
      else if outcome == UnusableGrant then Leave(k.(mustClose := true))
      else k.(stage := Connecting, mustClose := true)
    case Connect(_, ok) =>
      if k.stage != Connecting then k
      else if ok then k.(stage := Selecting, toGuest := Copying, toClient := Copying, armed := true)
      else Leave(k)
    case Select(_, pick) => if k.stage == Selecting then Picked(k, pick) else k
    case PutBack(_) =>
      if k.stage.PuttingBack? && |k.done| < DONE_CAPACITY
      then k.(done := k.done + [k.stage.failed], stage := Joining(2)) else k
    case Join(_) =>
      if !k.stage.Joining? then k
      else if k.stage.left == 0 then k.(stage := Closing)
      else if k.done != [] then k.(done := k.done[1..], stage := Joining(k.stage.left - 1)) else k
    case CallClose(_) => if k.stage == Closing then k.(closeCalls := k.closeCalls + 1, stage := Releasing) else k
    case FinishCopy(_, outbound, failed) => Copied(k, outbound, failed)
    case AnswerRenewal(_) =>
      if k.asking > 0 && k.replies < REPLY_CAPACITY then k.(asking := k.asking - 1, replies := k.replies + 1) else k
    case _ => k
  }

  function Next(r: Relay, step: Step): Relay {
    var t := step.tunnel;
    match step
    case Arrive(_) => if t in r.tunnels then r else r.(tunnels := r.tunnels[t := Fresh()])
    case TakeSlot(_) =>
      if t !in r.tunnels || r.tunnels[t].stage != Arrived then r
      else if r.slots < r.capacity
      then r.(slots := r.slots + 1,
              tunnels := r.tunnels[t := r.tunnels[t].(stage := Holding, taken := r.tunnels[t].taken + 1)])
      else r.(tunnels := r.tunnels[t := r.tunnels[t].(stage := Exited)])
    case ReleaseSlot(_) =>
      if t in r.tunnels && r.tunnels[t].stage == Releasing && r.slots > 0
      then r.(slots := r.slots - 1,
              tunnels := r.tunnels[t := r.tunnels[t].(stage := Exited, released := r.tunnels[t].released + 1)])
      else r
    case _ => if t in r.tunnels then r.(tunnels := r.tunnels[t := Advance(r.tunnels[t], step)]) else r
  }

  function Start(capacity: nat): Relay { Relay(capacity, 0, map[]) }

  function Run(r: Relay, steps: seq<Step>): Relay {
    if steps == [] then r else Next(Run(r, steps[..|steps| - 1]), steps[|steps| - 1])
  }

  // Invariants ------------------------------------------------------------------------------------

  function Count(b: bool): nat { if b then 1 else 0 }
  function Finishers(k: Tunnel): nat { Count(k.toGuest == Finished) + Count(k.toClient == Finished) }

  predicate BeforeWorkers(s: Stage) { s in {Arrived, Holding, Connecting} }

  /** Results the serving routine has taken out of the channel for good or for the moment. */
  function InHand(s: Stage): int {
    match s
    case PuttingBack(_) => 1
    case Joining(left) => 2 - left
    case _ => 0
  }

  predicate WorkersOk(k: Tunnel) {
    && (BeforeWorkers(k.stage) ==> k.toGuest == Unstarted && k.toClient == Unstarted && k.done == [])
    && (k.toGuest == Unstarted <==> k.toClient == Unstarted)
    && (k.stage == Selecting || k.stage.PuttingBack? || k.stage.Joining? ==>
          k.toGuest != Unstarted && 0 <= InHand(k.stage) && |k.done| + InHand(k.stage) == Finishers(k))
    && (k.stage in {Closing, Releasing, Exited} ==>
          (k.toGuest == Unstarted || (k.toGuest == Finished && k.toClient == Finished)) && k.done == [])
    && (k.stage.Joining? ==> k.stage.left <= 2)
  }

  predicate RenewalOk(k: Tunnel) {
    && k.asking + k.replies <= 1 && (k.armed ==> k.asking + k.replies == 0)
    && (BeforeWorkers(k.stage) ==> !k.armed && k.asking + k.replies == 0)
  }

  predicate HoldsSlot(s: Stage) { s != Arrived && s != Exited }

  predicate CallsOk(k: Tunnel) {
    && (k.stage == Arrived ==> k.taken == 0 && k.released == 0)
    && (HoldsSlot(k.stage) ==> k.taken == 1 && k.released == 0)
    && (k.stage == Exited ==> k.released == k.taken <= 1)
    && (k.stage in {Arrived, Holding} ==> !k.mustClose)
    && (|| k.stage == Connecting || k.stage == Selecting || k.stage.PuttingBack?
        || k.stage.Joining? || k.stage == Closing ==>
          k.mustClose)
    && k.closeCalls == Count(k.mustClose && (k.stage == Releasing || k.stage == Exited))
  }

  predicate TunnelOk(k: Tunnel) { WorkersOk(k) && RenewalOk(k) && CallsOk(k) }

  function Holders(r: Relay): set<TunnelId> { set t | t in r.tunnels && HoldsSlot(r.tunnels[t].stage) }

  ghost predicate Inv(r: Relay) {
    && (forall t :: t in r.tunnels ==> TunnelOk(r.tunnels[t]))
    && r.slots == |Holders(r)| <= r.capacity
  }

  lemma AdvanceKeepsWorkers(k: Tunnel, step: Step)
    requires WorkersOk(k)
    ensures WorkersOk(Advance(k, step))
  {
    match step
    case Select(_, pick) =>
    case FinishCopy(_, _, _) =>
    case Join(_) =>
    case _ =>
  }

  lemma AdvanceKeepsRenewal(k: Tunnel, step: Step)
    requires WorkersOk(k) && RenewalOk(k)
    ensures RenewalOk(Advance(k, step))
  {
  }

  lemma AdvanceKeepsCalls(k: Tunnel, step: Step)
    requires CallsOk(k)
    ensures CallsOk(Advance(k, step)) && HoldsSlot(Advance(k, step).stage) == HoldsSlot(k.stage)
  {
  }

  lemma AdvanceKeepsTunnel(k: Tunnel, step: Step)
    requires TunnelOk(k)
    ensures TunnelOk(Advance(k, step)) && HoldsSlot(Advance(k, step).stage) == HoldsSlot(k.stage)
  {
    hide Advance, WorkersOk, RenewalOk, CallsOk, HoldsSlot;
    AdvanceKeepsWorkers(k, step);
    AdvanceKeepsRenewal(k, step);
    AdvanceKeepsCalls(k, step);
  }

  lemma SameHolders(r: Relay, t: TunnelId, k: Tunnel)
    requires Inv(r) && TunnelOk(k)
    requires (if t in r.tunnels then HoldsSlot(r.tunnels[t].stage) == HoldsSlot(k.stage) else !HoldsSlot(k.stage))
    ensures Inv(r.(tunnels := r.tunnels[t := k]))
  {
    hide TunnelOk;
    assert Holders(r.(tunnels := r.tunnels[t := k])) == Holders(r);
  }

  lemma TakeKeepsInv(r: Relay, t: TunnelId)
    requires Inv(r)
    ensures Inv(Next(r, TakeSlot(t)))
  {
    hide TunnelOk;
    if t in r.tunnels && r.tunnels[t].stage == Arrived {
      SlotStepKeepsTunnel(r.tunnels[t]);
      if r.slots < r.capacity {
        assert Holders(Next(r, TakeSlot(t))) == Holders(r) + {t};
      } else {
        SameHolders(r, t, r.tunnels[t].(stage := Exited));
      }
    }
  }

  lemma ReleaseKeepsInv(r: Relay, t: TunnelId)
    requires Inv(r)
    ensures Inv(Next(r, ReleaseSlot(t)))
  {
    hide TunnelOk;
    if t in r.tunnels && r.tunnels[t].stage == Releasing {
      SlotStepKeepsTunnel(r.tunnels[t]);
      assert t in Holders(r);
      assert Holders(Next(r, ReleaseSlot(t))) == Holders(r) - {t};
    }
  }

  lemma StepKeepsInv(r: Relay, step: Step)
    requires Inv(r)
    ensures Inv(Next(r, step)) && Next(r, step).capacity == r.capacity
  {
    hide Inv, TunnelOk, HoldsSlot, Advance;
    var t := step.tunnel;
    match step
    case TakeSlot(_) => TakeKeepsInv(r, t);
    case ReleaseSlot(_) => ReleaseKeepsInv(r, t);
    case Arrive(_) =>
      FreshIsOk();
      if t !in r.tunnels {
        SameHolders(r, t, Fresh());
      }
    case _ =>
      if t in r.tunnels {
        InvAt(r, t);
        AdvanceKeepsTunnel(r.tunnels[t], step);
        SameHolders(r, t, Advance(r.tunnels[t], step));
      }
  }

  lemma InvAt(r: Relay, t: TunnelId)
    requires Inv(r) && t in r.tunnels
    ensures TunnelOk(r.tunnels[t])
  {
  }

  lemma FreshIsOk()
    ensures TunnelOk(Fresh()) && !HoldsSlot(Fresh().stage)
  {
  }

  lemma SlotStepKeepsTunnel(k: Tunnel)
    requires TunnelOk(k)
    ensures k.stage == Arrived ==> TunnelOk(k.(stage := Holding, taken := k.taken + 1)) && TunnelOk(k.(stage := Exited))
    ensures k.stage == Releasing ==> TunnelOk(k.(stage := Exited, released := k.released + 1))
  {
  }

  lemma {:induction false} RunKeepsInv(capacity: nat, steps: seq<Step>)
    ensures Inv(Run(Start(capacity), steps)) && Run(Start(capacity), steps).capacity == capacity
  {
    hide Next;
    if steps == [] {
      assert Holders(Start(capacity)) == {};
    } else {
      RunKeepsInv(capacity, steps[..|steps| - 1]);
      StepKeepsInv(Run(Start(capacity), steps[..|steps| - 1]), steps[|steps| - 1]);
    }
  }

  // What holds of every interleaving ----------------------------------------------------------------

  /** The relay never serves more tunnels than it has slots for, and gives every slot back exactly once. */
  lemma CapacityHolds(capacity: nat, steps: seq<Step>, t: TunnelId)
    requires t in Run(Start(capacity), steps).tunnels
    ensures var r := Run(Start(capacity), steps);
            && |Holders(r)| <= capacity
            && r.tunnels[t].released <= r.tunnels[t].taken <= 1
            && (r.tunnels[t].stage == Exited ==> r.tunnels[t].released == r.tunnels[t].taken)
  {
    RunKeepsInv(capacity, steps);
    assert TunnelOk(Run(Start(capacity), steps).tunnels[t]);
  }

  /**
   By the time the close RPC goes out both copy workers have ended; it goes out exactly once for a
   tunnel that got a usable tunnel id, and never for one that did not.
   */
  lemma WorkersEndBeforeClose(capacity: nat, steps: seq<Step>, t: TunnelId)
    requires t in Run(Start(capacity), steps).tunnels
    ensures var k := Run(Start(capacity), steps).tunnels[t];
            && (k.stage == Closing || k.closeCalls > 0 ==> k.toGuest != Copying && k.toClient != Copying)
            && k.closeCalls <= 1
            && (k.stage == Exited ==> k.closeCalls == Count(k.mustClose))
  {
    RunKeepsInv(capacity, steps);
    assert TunnelOk(Run(Start(capacity), steps).tunnels[t]);
  }

  /**
   Nothing blocks for good: the result taken in the select loop always finds room when it is put
   back, a worker and a renewal always find room for theirs, the join waits only for a worker that is
   still copying, and never is more than one renewal outstanding.
   */
  lemma NothingBlocks(capacity: nat, steps: seq<Step>, t: TunnelId)
    requires t in Run(Start(capacity), steps).tunnels
    ensures var k := Run(Start(capacity), steps).tunnels[t];
            && (k.stage.PuttingBack? ==> |k.done| < DONE_CAPACITY)
            && (k.toGuest == Copying || k.toClient == Copying ==> |k.done| < DONE_CAPACITY)
            && (k.stage.Joining? && k.stage.left > 0 && k.done == [] ==> k.toGuest == Copying || k.toClient == Copying)
            && k.asking + k.replies <= 1 && (k.asking > 0 ==> k.replies < REPLY_CAPACITY)
            && (k.stage == Releasing ==> Run(Start(capacity), steps).slots > 0)
  {
    RunKeepsInv(capacity, steps);
    var r := Run(Start(capacity), steps);
    assert TunnelOk(r.tunnels[t]);
    if r.tunnels[t].stage == Releasing {
      assert t in Holders(r);
    }
  }
}
