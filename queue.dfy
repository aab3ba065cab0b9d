/** The combinator's output queue as values: what the discovery adapter appends,
    what one poll takes out, and what a run of polls hands out. The class in
    behaviour.dfy is proved against these functions. */
module OutputQueue {
  import opened NetworkTypes
  import opened EventAdapters

  type PollOutput = Poll<NetworkBehaviourAction>

  // ---------------------------------------------------------------------------
  // Discovery adapter
  // ---------------------------------------------------------------------------

  /** One random-query-started event per Kademlia namespace, in the namespaces' order. */
  function FanOut(protocols: seq<ProtocolId>): (r: seq<BehaviourOut>)
    ensures |r| == |protocols|
    ensures forall i :: 0 <= i < |r| ==> r[i] == BehaviourOut.RandomKademliaStarted(protocols[i])
  {
    if protocols == [] then []
    else [BehaviourOut.RandomKademliaStarted(protocols[0])] + FanOut(protocols[1..])
  }

  /** The namespaces named by a run of random-query-started events. */
  function Namespaces(events: seq<BehaviourOut>): seq<ProtocolId>
    requires forall i :: 0 <= i < |events| ==> events[i].RandomKademliaStarted?
  {
    if events == [] then [] else [events[0].kademlia] + Namespaces(events[1..])
  }

  /** The fan-out maps namespaces to events bijectively: reading the namespaces back
      gives exactly the list the discovery event carried, order and repeats included. */
  lemma {:induction false} FanOutNamespaces(protocols: seq<ProtocolId>)
    ensures Namespaces(FanOut(protocols)) == protocols
  {
    if protocols != [] {
      var r := FanOut(protocols);
      assert r[1..] == FanOut(protocols[1..]);
      FanOutNamespaces(protocols[1..]);
      assert protocols == [protocols[0]] + protocols[1..];
    }
  }

  /** One query-started event for `ps1 + ps2` enqueues the same as one for `ps1`
      followed by one for `ps2`. */
  lemma FanOutAppend(ps1: seq<ProtocolId>, ps2: seq<ProtocolId>)
    ensures FanOut(ps1 + ps2) == FanOut(ps1) + FanOut(ps2)
  {
  }

  /** A DHT output event reports the same query outcome, with the same key or records,
      as the discovery event it came from. */
  predicate SameDhtOutcome(out: DiscoveryOut, e: DhtEvent)
  {
    || (out.ValueFound? && e.ValueFound? && e.records == out.records)
    || (out.ValueNotFound? && e.ValueNotFound? && e.key == out.key)
    || (out.ValuePut? && e.ValuePut? && e.key == out.key)
    || (out.ValuePutFailed? && e.ValuePutFailed? && e.key == out.key)
  }

  predicate IsDhtOutcome(out: DiscoveryOut)
  {
    out.ValueFound? || out.ValueNotFound? || out.ValuePut? || out.ValuePutFailed?
  }

  /** The events the discovery adapter appends to the queue for one discovery event:
      a DHT outcome gives exactly one event with the same payload and duration, a
      random query gives one event per namespace, and a peer becoming discovered or
      unroutable gives nothing. */
  function DiscoveryEvents(out: DiscoveryOut): (r: seq<BehaviourOut>)
    ensures forall i :: 0 <= i < |r| ==> SourceOf(r[i]) == FromDiscovery
    ensures out.UnroutablePeer? || out.Discovered? ==> r == []
    ensures IsDhtOutcome(out) ==>
              |r| == 1 && r[0].Dht? && SameDhtOutcome(out, r[0].dhtEvent) && r[0].duration == out.duration
    ensures out.RandomKademliaStarted? ==>
              |r| == |out.protocols| && (forall i :: 0 <= i < |r| ==> r[i].RandomKademliaStarted?)
              && Namespaces(r) == out.protocols
  {
    match out
    case UnroutablePeer(_) => []
    case Discovered(_) => []
    case ValueFound(results, duration) => [Dht(DhtEvent.ValueFound(results), duration)]
    case ValueNotFound(key, duration) => [Dht(DhtEvent.ValueNotFound(key), duration)]
    case ValuePut(key, duration) => [Dht(DhtEvent.ValuePut(key), duration)]
    case ValuePutFailed(key, duration) => [Dht(DhtEvent.ValuePutFailed(key), duration)]
    case RandomKademliaStarted(protocols) =>
      FanOutNamespaces(protocols);
      FanOut(protocols)
  }

  /** The peers a discovery event hands down to the chain-sync protocol's peer set. */
  function DiscoveredNodes(out: DiscoveryOut): (r: seq<PeerId>)
    ensures |r| <= 1
    ensures r != [] <==> out.Discovered?
    ensures out.Discovered? ==> r[0] == out.peerId
  {
    if out.Discovered? then [out.peerId] else []
  }

  // ---------------------------------------------------------------------------
  // Queue operations as values
  // ---------------------------------------------------------------------------

  /** The queue after the discovery adapter has seen each of `outs`, in order. */
  function InjectAll(q: seq<BehaviourOut>, outs: seq<DiscoveryOut>): seq<BehaviourOut>
    decreases outs
  {
    if outs == [] then q else InjectAll(q + DiscoveryEvents(outs[0]), outs[1..])
  }

  /** Everything the discovery adapter enqueues for `outs`, concatenated. */
  function Enqueued(outs: seq<DiscoveryOut>): seq<BehaviourOut>
  {
    if outs == [] then [] else DiscoveryEvents(outs[0]) + Enqueued(outs[1..])
  }

  /** Injecting never touches what is already queued: it only appends. */
  lemma {:induction false} InjectAllAppends(q: seq<BehaviourOut>, outs: seq<DiscoveryOut>)
    ensures InjectAll(q, outs) == q + Enqueued(outs)
    decreases outs
  {
    if outs != [] {
      var first := DiscoveryEvents(outs[0]);
      InjectAllAppends(q + first, outs[1..]);
      AppendAssociative(q, first, Enqueued(outs[1..]));
    }
  }

  lemma AppendAssociative(a: seq<BehaviourOut>, b: seq<BehaviourOut>, c: seq<BehaviourOut>)
    ensures (a + b) + c == a + (b + c)
  {
  }

  /** One poll: the oldest event when there is one, otherwise `Pending` and the queue
      as it was. */
  function PollStep(q: seq<BehaviourOut>): (r: (PollOutput, seq<BehaviourOut>))
    ensures r.0.Pending? <==> q == []
    ensures r.0.Pending? ==> r.1 == q
    ensures r.0.Ready? ==> [r.0.value.event] + r.1 == q
  {
    if q == [] then (Pending, q) else (Ready(GenerateEvent(q[0])), q[1..])
  }

  /** `n` consecutive polls: what each returned, and the queue left behind. */
  function Drain(q: seq<BehaviourOut>, n: nat): (seq<PollOutput>, seq<BehaviourOut>)
  {
    if n == 0 then ([], q)
    else
      var step := PollStep(q);
      var after := Drain(step.1, n - 1);
      ([step.0] + after.0, after.1)
  }

  /** Each queued event, in order, as a poll hands it out. */
  function ReadyAll(es: seq<BehaviourOut>): (r: seq<PollOutput>)
    ensures |r| == |es|
    ensures forall i :: 0 <= i < |es| ==> r[i] == Ready(GenerateEvent(es[i]))
  {
    seq(|es|, i requires 0 <= i < |es| => Ready(GenerateEvent(es[i])))
  }

  /** Polling as many times as there are events at the front of the queue hands out
      exactly those events, oldest first, and leaves whatever was queued behind them. */
  lemma {:induction false} DrainInOrder(es: seq<BehaviourOut>, rest: seq<BehaviourOut>)
    ensures Drain(es + rest, |es|) == (ReadyAll(es), rest)
  {
    if es == [] {
      assert es + rest == rest;
    } else {
      assert (es + rest)[1..] == es[1..] + rest;
      DrainInOrder(es[1..], rest);
      assert ReadyAll(es) == [Ready(GenerateEvent(es[0]))] + ReadyAll(es[1..]);
    }
  }

  /** First in, first out: after the discovery adapter has seen `outs` on an empty queue,
      the polls hand out everything it enqueued in that order, and the next poll is
      `Pending`. */
  lemma Fifo(outs: seq<DiscoveryOut>)
    ensures var es := Enqueued(outs);
            Drain(InjectAll([], outs), |es| + 1) == (ReadyAll(es) + [Pending], [])
  {
    var es := Enqueued(outs);
    InjectAllAppends([], outs);
    assert [] + es == es + [];
    DrainInOrder(es, []);
    DrainThenOne(es + [], |es|);
  }

  /** One more poll after `n` polls. */
  lemma {:induction false} DrainThenOne(q: seq<BehaviourOut>, n: nat)
    ensures Drain(q, n + 1).0 == Drain(q, n).0 + [PollStep(Drain(q, n).1).0]
    ensures Drain(q, n + 1).1 == PollStep(Drain(q, n).1).1
  {
    if n > 0 {
      var step := PollStep(q);
      DrainThenOne(step.1, n - 1);
      var ps := Drain(step.1, n - 1).0;
      var last := PollStep(Drain(step.1, n - 1).1).0;
      assert [step.0] + (ps + [last]) == ([step.0] + ps) + [last];
    }
  }

  /** Injecting never reorders: while the queue is non-empty, the next poll hands out
      the same event whatever the discovery adapter appends meanwhile. */
  lemma InjectKeepsHead(q: seq<BehaviourOut>, out: DiscoveryOut)
    requires q != []
    ensures PollStep(q + DiscoveryEvents(out)).0 == PollStep(q).0
    ensures PollStep(q + DiscoveryEvents(out)).1 == PollStep(q).1 + DiscoveryEvents(out)
  {
  }
}
