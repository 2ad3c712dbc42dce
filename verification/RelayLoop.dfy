/**
 The relay's serving routine as it runs: one local deadline, moved only by a renewal that arrives in
 time, over whatever sequence of events the select statement picks.
 */
module RelayLoop {
  import opened Common
  import T = GatewayTicket
  import G = Gateway

  /** `usable`: the rest of the grant is well formed and names the same target and certificate. */
  datatype Event =
    | Cancel
    | Expiry
    | CopyEnded(failed: bool)
    | RenewDue(at: nat)
    | ReplyAt(at: nat, reply: Option<T.Grant>, usable: bool)

  datatype Result = Serving | Cancelled | LeaseExpired | AuthorizationFailed | TransportFailed | Finished

  /** A deadline the loop worked under: when the grant was asked for, and when it was adopted. */
  datatype Adopted = Adopted(asked: nat, at: nat, deadline: nat, grant: T.Grant)

  /** The relay after one event, in the terms of the timed model. */
  function React(k: G.Relay, e: Event): G.Relay {
    if !k.Running? then k
    else match e
      case RenewDue(at) => if k.renewal.NoRenewal? then k.(renewal := G.Asked(at)) else k
      case ReplyAt(at, reply, usable) =>
        if !k.renewal.Asked? then k
        else if !usable then G.Stopped
        else G.Extended(k.(renewal := G.Answered(k.renewal.started, reply)), at)
      case _ => G.Stopped
  }

  function ReactAll(k: G.Relay, events: seq<Event>): G.Relay {
    if events == [] then k else React(ReactAll(k, events[..|events| - 1]), events[|events| - 1])
  }

  lemma {:induction false} StoppedStays(events: seq<Event>)
    ensures ReactAll(G.Stopped, events) == G.Stopped
  {
    if events != [] {
      StoppedStays(events[..|events| - 1]);
    }
  }

  lemma {:induction false} ReactSplit(k: G.Relay, events: seq<Event>, i: nat)
    requires i <= |events|
    ensures ReactAll(k, events) == ReactAll(ReactAll(k, events[..i]), events[i..])
  {
    if i == |events| {
      assert events[..i] == events;
    } else {
      var init := events[..|events| - 1];
      ReactSplit(k, init, i);
      var rest := events[i..];
      assert init[..i] == events[..i];
      assert rest[|rest| - 1] == events[|events| - 1];
      assert init[i..] == rest[..|rest| - 1];
    }
  }

  /** The loop ended at event `i`; the remaining events find nothing to act on. */
  lemma EndsHere(k: G.Relay, events: seq<Event>, i: nat)
    requires i < |events| && React(ReactAll(k, events[..i]), events[i]) == G.Stopped
    ensures ReactAll(k, events) == G.Stopped
  {
    assert events[..i + 1][..i] == events[..i];
    ReactSplit(k, events, i + 1);
    StoppedStays(events[i + 1..]);
  }

  /**
   Every deadline lies within the window of its own request, and was adopted before it and before its
   predecessor ran out.
   */
  ghost predicate Seamless(log: seq<Adopted>) {
    && (forall i :: 0 <= i < |log| ==>
          && log[i].at < log[i].deadline <= log[i].asked + T.WINDOW
          && G.ValidFor(log[i].grant) == Some(log[i].deadline - log[i].asked))
    && (forall i :: 0 < i < |log| ==> log[i].at < log[i - 1].deadline && G.SameTunnel(log[i].grant, log[i - 1].grant))
  }

  lemma ReactOne(k: G.Relay, events: seq<Event>, i: nat)
    requires i < |events|
    ensures ReactAll(k, events[..i + 1]) == React(ReactAll(k, events[..i]), events[i])
  {
    assert events[..i + 1][..i] == events[..i];
  }

  lemma Grows(log: seq<Adopted>, a: Adopted)
    requires Seamless(log) && a.at < a.deadline && G.ValidFor(a.grant) == Some(a.deadline - a.asked)
    requires log != [] ==> a.at < log[|log| - 1].deadline && G.SameTunnel(a.grant, log[|log| - 1].grant)
    ensures Seamless(log + [a])
  {
    hide G.ValidFor, G.SameTunnel;
    WithinWindow(a.grant);
    forall i | 0 <= i <= |log| ensures (log + [a])[i] == if i < |log| then log[i] else a { }
  }

  lemma WithinWindow(g: T.Grant)
    ensures G.ValidFor(g).Some? ==> G.ValidFor(g).value <= T.WINDOW
  {
  }

  /** The select loop, from a running relay with its first deadline. */
  method Loop(first: G.Relay, start: Adopted, events: seq<Event>)
    returns (result: Result, final: G.Relay, log: seq<Adopted>)
    requires first.Running? && first.renewal.NoRenewal? && Seamless([start]) && start.deadline == first.deadline
    requires start.grant == first.grant
    ensures final == ReactAll(first, events) && (final.Running? || final.Stopped?)
    ensures (result == Serving) == final.Running?
    ensures Seamless(log) && log != [] && log[0] == start
    ensures (final.Running? ==> final.deadline == log[|log| - 1].deadline)
  {
    hide ReactAll, Seamless, G.ValidFor, G.SameTunnel;
    log := [start];
    var k := first;
    assert ReactAll(first, events[..0]) == first by { ReactNone(first); assert events[..0] == []; }
    for i := 0 to |events|
      invariant k.Running? && !k.renewal.Answered? && k == ReactAll(first, events[..i])
      invariant Seamless(log) && log != [] && log[0] == start && log[|log| - 1].deadline == k.deadline
      invariant log[|log| - 1].grant == k.grant
    {
      ReactOne(first, events, i);
      match events[i]
      case Cancel =>
        EndsHere(first, events, i);
        return Cancelled, G.Stopped, log;
      case Expiry =>
        EndsHere(first, events, i);
        return LeaseExpired, G.Stopped, log;
      case CopyEnded(failed) =>
        EndsHere(first, events, i);
        return if failed then TransportFailed else Finished, G.Stopped, log;
      case RenewDue(at) =>
        if k.renewal.NoRenewal? {
          k := k.(renewal := G.Asked(at));
        }
      case ReplyAt(at, reply, usable) =>
        if k.renewal.Asked? {
          if !usable || reply.None? || G.ValidFor(reply.value).None? || !G.SameTunnel(reply.value, k.grant) {
            EndsHere(first, events, i);
            return AuthorizationFailed, G.Stopped, log;
          }
          var deadline := k.renewal.started + G.ValidFor(reply.value).value;
          if k.deadline <= at || deadline <= at {
            EndsHere(first, events, i);
            return LeaseExpired, G.Stopped, log;
          }
          Grows(log, Adopted(k.renewal.started, at, deadline, reply.value));
          log := log + [Adopted(k.renewal.started, at, deadline, reply.value)];
          k := k.(grant := reply.value, started := k.renewal.started, deadline := deadline, renewal := G.NoRenewal);
        }
    }
    assert events[..|events|] == events;
    return Serving, k, log;
  }

  lemma ReactNone(k: G.Relay)
    ensures ReactAll(k, []) == k
  {
  }

  /** `serve` from the redemption reply on. */
  method Serve(k: G.Relay, received: nat, connected: bool, dialled: nat, events: seq<Event>)
    returns (result: Result, final: G.Relay, log: seq<Adopted>)
    requires k.Replied?
    ensures (result == Serving) == final.Running?
    ensures final == if connected && G.Opened(k, received).Running? && dialled < G.Opened(k, received).deadline
                     then ReactAll(G.Opened(k, received), events) else G.Stopped
    ensures !G.Opened(k, received).Running? ==> result in {AuthorizationFailed, LeaseExpired} && log == []
    ensures Seamless(log) && (final.Running? ==> log != [] && final.deadline == log[|log| - 1].deadline)
  {
    hide ReactAll;
    log := [];
    if k.reply.None? || G.ValidFor(k.reply.value).None? || k.reply.value.gateway != k.gateway {
      return AuthorizationFailed, G.Stopped, log;
    }
    var deadline := k.started + G.ValidFor(k.reply.value).value;
    if deadline <= received {
      return LeaseExpired, G.Stopped, log;
    }
    if !connected {
      return TransportFailed, G.Stopped, log;
    }
    if deadline <= dialled {
      return LeaseExpired, G.Stopped, log;
    }
    result, final, log := Loop(G.Opened(k, received), Adopted(k.started, received, deadline, k.reply.value), events);
  }
}
