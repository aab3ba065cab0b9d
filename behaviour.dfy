/** The network behaviour combinator: it owns the sub-protocols and one FIFO queue of
    output events, adapts discovery events into that queue, hands the queue out one
    event per poll, and delegates its control surface to the sub-protocols.

    The sub-protocols themselves are stand-ins: each keeps only what the combinator
    can observe of it (the answers it gives to the delegated queries and a record of
    the requests handed to it). */
module NetworkBehaviour {
  import opened NetworkTypes
  import opened OutputQueue
  import opened RequestProtocols

  // ---------------------------------------------------------------------------
  // Sub-protocol stand-ins
  // ---------------------------------------------------------------------------

  /** The chain-sync protocol. Only the nodes handed to its default peer set are kept. */
  class SyncProtocol {
    ghost var discoveredNodes: seq<PeerId>

    constructor ()
      ensures discoveredNodes == []
    {
      discoveredNodes := [];
    }

    method AddDefaultSetDiscoveredNodes(nodes: seq<PeerId>)
      modifies this
      ensures discoveredNodes == old(discoveredNodes) + nodes
    {
      discoveredNodes := discoveredNodes + nodes;
    }
  }

  /** Cached information about one peer. */
  datatype NodeInfo = NodeInfo(id: nat)

  /** The peer-identification protocol and its cache of peer information. */
  class PeerInfoBehaviour {
    const userAgent: string
    const localPublicKey: PublicKey
    var nodes: map<PeerId, NodeInfo>

    constructor (userAgent: string, localPublicKey: PublicKey)
      ensures this.userAgent == userAgent && this.localPublicKey == localPublicKey
      ensures nodes == map[]
    {
      this.userAgent := userAgent;
      this.localPublicKey := localPublicKey;
      nodes := map[];
    }
  }

  datatype DiscoveryConfig = DiscoveryConfig(id: nat)

  /** Per-namespace occupancy of one Kademlia instance. */
  datatype KademliaStats = KademliaStats(protocol: ProtocolId, kbuckets: seq<(nat, nat)>, records: nat, recordsTotalSize: nat)

  /** A request the combinator hands to the discovery protocol. */
  datatype DiscoveryRequest =
    | AddKnownAddress(peerId: PeerId, addr: Multiaddr)
    | AddSelfReportedAddress(peerId: PeerId, supportedProtocols: seq<Bytes>, addr: Multiaddr)
    | GetValue(key: RecordKey)
    | PutValue(key: RecordKey, value: Bytes)

  /** The discovery protocol. */
  class DiscoveryBehaviour {
    const config: DiscoveryConfig
    var knownPeers: set<PeerId>
    var kademlias: seq<KademliaStats>
    ghost var requests: seq<DiscoveryRequest>

    /** Finishing a discovery configuration. */
    constructor (config: DiscoveryConfig)
      ensures this.config == config && knownPeers == {} && kademlias == [] && requests == []
    {
      this.config := config;
      knownPeers, kademlias, requests := {}, [], [];
    }

    method Submit(request: DiscoveryRequest)
      modifies this
      ensures requests == old(requests) + [request]
      ensures knownPeers == old(knownPeers) && kademlias == old(kademlias)
    {
      requests := requests + [request];
    }
  }

  /** The block-data exchange protocol; it has no state the combinator observes. */
  class Bitswap {
    constructor ()
    {
    }
  }

  datatype PeersetHandle = PeersetHandle(id: nat)

  /** A request the combinator hands to the request/response protocols. */
  datatype OutboundRequest =
    OutboundRequest(target: PeerId, protocol: string, request: Bytes, pendingResponse: ResponseSender, connect: IfDisconnected)

  /** The generic request/response protocols, registered once with distinct names. */
  class RequestResponsesBehaviour {
    const protocols: seq<ProtocolConfig>
    const peerset: PeersetHandle
    ghost var sent: seq<OutboundRequest>

    constructor (protocols: seq<ProtocolConfig>, peerset: PeersetHandle)
      requires NamesDistinct(protocols)
      ensures this.protocols == protocols && this.peerset == peerset && sent == []
    {
      this.protocols := protocols;
      this.peerset := peerset;
      sent := [];
    }

    /** Registers `protocols`, failing on the first name that is already taken. */
    static method New(protocols: seq<ProtocolConfig>, peerset: PeersetHandle)
      returns (r: Result<RequestResponsesBehaviour, RegisterError>)
      ensures r.Err? <==> !NamesDistinct(protocols)
      ensures r.Err? ==> r.error == DuplicateProtocol(FirstDuplicate(protocols).value)
      ensures r.Ok? ==> fresh(r.value) && r.value.protocols == protocols && r.value.peerset == peerset
                        && r.value.sent == []
    {
      var dup := FindDuplicateProtocol(protocols);
      if dup.Some? {
        return Err(DuplicateProtocol(dup.value));
      }
      var behaviour := new RequestResponsesBehaviour(protocols, peerset);
      return Ok(behaviour);
    }

    method SendRequest(request: OutboundRequest)
      modifies this
      ensures sent == old(sent) + [request]
    {
      sent := sent + [request];
    }
  }

  // ---------------------------------------------------------------------------
  // The combinator
  // ---------------------------------------------------------------------------

  class Behaviour {
    const substrate: SyncProtocol
    const peerInfo: PeerInfoBehaviour
    const discovery: DiscoveryBehaviour
    const bitswap: Option<Bitswap>
    const requestResponses: RequestResponsesBehaviour
    /** Queue of events to hand to the outside, oldest first. */
    var events: seq<BehaviourOut>

    constructor (substrate: SyncProtocol, peerInfo: PeerInfoBehaviour, discovery: DiscoveryBehaviour,
                 bitswap: Option<Bitswap>, requestResponses: RequestResponsesBehaviour)
      ensures this.substrate == substrate && this.peerInfo == peerInfo && this.discovery == discovery
      ensures this.bitswap == bitswap && this.requestResponses == requestResponses
      ensures events == []
    {
      this.substrate := substrate;
      this.peerInfo := peerInfo;
      this.discovery := discovery;
      this.bitswap := bitswap;
      this.requestResponses := requestResponses;
      events := [];
    }

    /** Builds the combinator. The request/response protocols registered are the
        caller's list followed by warp sync (when given), block, state and light-client
        requests; a name collision among them is returned as the registration error and
        no combinator is built. On success the event queue starts empty. */
    static method New(substrate: SyncProtocol, userAgent: string, localPublicKey: PublicKey,
                      discoConfig: DiscoveryConfig, blockRequestProtocolConfig: ProtocolConfig,
                      stateRequestProtocolConfig: ProtocolConfig, warpSyncProtocolConfig: Option<ProtocolConfig>,
                      bitswap: Option<Bitswap>, lightClientRequestProtocolConfig: ProtocolConfig,
                      requestResponseProtocols: seq<ProtocolConfig>, peerset: PeersetHandle)
      returns (r: Result<Behaviour, RegisterError>)
      ensures var registered := RequestProtocolList(requestResponseProtocols, warpSyncProtocolConfig,
                                                    blockRequestProtocolConfig, stateRequestProtocolConfig,
                                                    lightClientRequestProtocolConfig);
              && (r.Err? <==> !NamesDistinct(registered))
              && (r.Err? ==> r.error == DuplicateProtocol(FirstDuplicate(registered).value))
              && (r.Ok? ==> && fresh(r.value)
                            && r.value.events == []
                            && r.value.substrate == substrate
                            && r.value.bitswap == bitswap
                            && fresh(r.value.peerInfo) && r.value.peerInfo.userAgent == userAgent
                            && r.value.peerInfo.localPublicKey == localPublicKey
                            && fresh(r.value.discovery) && r.value.discovery.config == discoConfig
                            && fresh(r.value.requestResponses)
                            && r.value.requestResponses.protocols == registered
                            && r.value.requestResponses.peerset == peerset
                            && NamesDistinct(r.value.requestResponses.protocols))
    {
      var protocols := requestResponseProtocols;
      if warpSyncProtocolConfig.Some? {
        protocols := protocols + [warpSyncProtocolConfig.value];
      }
      protocols := protocols + [blockRequestProtocolConfig];
      protocols := protocols + [stateRequestProtocolConfig];
      protocols := protocols + [lightClientRequestProtocolConfig];
      assert protocols == RequestProtocolList(requestResponseProtocols, warpSyncProtocolConfig,
                                              blockRequestProtocolConfig, stateRequestProtocolConfig,
                                              lightClientRequestProtocolConfig);

      var peerInfo := new PeerInfoBehaviour(userAgent, localPublicKey);
      var discovery := new DiscoveryBehaviour(discoConfig);
      var registration := RequestResponsesBehaviour.New(protocols, peerset);
      if registration.Err? {
        return Err(registration.error);
      }
      var behaviour := new Behaviour(substrate, peerInfo, discovery, bitswap, registration.value);
      return Ok(behaviour);
    }

    // -------------------------------------------------------------------------
    // Control surface: each call goes to exactly one sub-protocol and leaves the
    // queue as it was.
    // -------------------------------------------------------------------------

    /** The nodes discovery knows to exist in the network. */
    method KnownPeers() returns (peers: set<PeerId>)
      ensures peers == discovery.knownPeers
    {
      peers := discovery.knownPeers;
    }

    /** Adds an address for `peerId` that never expires. */
    method AddKnownAddress(peerId: PeerId, addr: Multiaddr)
      modifies discovery
      ensures discovery.requests == old(discovery.requests) + [DiscoveryRequest.AddKnownAddress(peerId, addr)]
      ensures events == old(events)
    {
      discovery.Submit(DiscoveryRequest.AddKnownAddress(peerId, addr));
    }

    /** Number of nodes in each k-bucket, one entry per Kademlia instance. */
    method NumEntriesPerKbucket() returns (entries: seq<(ProtocolId, seq<(nat, nat)>)>)
      ensures |entries| == |discovery.kademlias|
      ensures forall i :: 0 <= i < |entries| ==>
                entries[i] == (discovery.kademlias[i].protocol, discovery.kademlias[i].kbuckets)
    {
      entries := seq(|discovery.kademlias|, i requires 0 <= i < |discovery.kademlias| reads discovery =>
                       (discovery.kademlias[i].protocol, discovery.kademlias[i].kbuckets));
    }

    /** Number of records in each Kademlia record store, one entry per instance. */
    method NumKademliaRecords() returns (counts: seq<(ProtocolId, nat)>)
      ensures |counts| == |discovery.kademlias|
      ensures forall i :: 0 <= i < |counts| ==>
                counts[i] == (discovery.kademlias[i].protocol, discovery.kademlias[i].records)
    {
      counts := seq(|discovery.kademlias|, i requires 0 <= i < |discovery.kademlias| reads discovery =>
                      (discovery.kademlias[i].protocol, discovery.kademlias[i].records));
    }

    /** Total size of the records in each Kademlia record store, one entry per instance. */
    method KademliaRecordsTotalSize() returns (sizes: seq<(ProtocolId, nat)>)
      ensures |sizes| == |discovery.kademlias|
      ensures forall i :: 0 <= i < |sizes| ==>
                sizes[i] == (discovery.kademlias[i].protocol, discovery.kademlias[i].recordsTotalSize)
    {
      sizes := seq(|discovery.kademlias|, i requires 0 <= i < |discovery.kademlias| reads discovery =>
                     (discovery.kademlias[i].protocol, discovery.kademlias[i].recordsTotalSize));
    }

    /** What peer identification knows about `peerId`; nothing when it was never seen. */
    function Node(peerId: PeerId): (r: Option<NodeInfo>)
      reads peerInfo
      ensures r.Some? <==> peerId in peerInfo.nodes
      ensures r.Some? ==> r.value == peerInfo.nodes[peerId]
    {
      if peerId in peerInfo.nodes then Some(peerInfo.nodes[peerId]) else Option.None
    }

    /** Initiates a request; its outcome reaches the caller through `pendingResponse`,
        never through the event queue. */
    method SendRequest(target: PeerId, protocol: string, request: Bytes, pendingResponse: ResponseSender,
                       connect: IfDisconnected)
      modifies requestResponses
      ensures requestResponses.sent
              == old(requestResponses.sent) + [OutboundRequest(target, protocol, request, pendingResponse, connect)]
      ensures events == old(events)
    {
      requestResponses.SendRequest(OutboundRequest(target, protocol, request, pendingResponse, connect));
    }

    /** The chain-sync protocol; the reference permits mutation, as the mutable borrow does. */
    function UserProtocol(): (p: SyncProtocol)
      ensures p == substrate
    {
      substrate
    }

    /** Adds a peer's self-reported address to the routing tables of the DHTs it supports. */
    method AddSelfReportedAddress(peerId: PeerId, supportedProtocols: seq<Bytes>, addr: Multiaddr)
      modifies discovery
      ensures discovery.requests
              == old(discovery.requests) + [DiscoveryRequest.AddSelfReportedAddress(peerId, supportedProtocols, addr)]
      ensures events == old(events)
    {
      discovery.Submit(DiscoveryRequest.AddSelfReportedAddress(peerId, supportedProtocols, addr));
    }

    /** Starts a DHT lookup; its result arrives later as a discovery event. */
    method GetValue(key: RecordKey)
      modifies discovery
      ensures discovery.requests == old(discovery.requests) + [DiscoveryRequest.GetValue(key)]
      ensures events == old(events)
    {
      discovery.Submit(DiscoveryRequest.GetValue(key));
    }

    /** Starts a DHT write; its result arrives later as a discovery event. */
    method PutValue(key: RecordKey, value: Bytes)
      modifies discovery
      ensures discovery.requests == old(discovery.requests) + [DiscoveryRequest.PutValue(key, value)]
      ensures events == old(events)
    {
      discovery.Submit(DiscoveryRequest.PutValue(key, value));
    }

    // -------------------------------------------------------------------------
    // Discovery adapter and poll
    // -------------------------------------------------------------------------

    /** Adapts one discovery event: DHT outcomes and random-query starts are appended
        to the queue, a discovered peer goes to the chain-sync peer set instead, and an
        unroutable peer is dropped. What was queued before stays untouched. */
    method InjectDiscovery(out: DiscoveryOut)
      modifies this, substrate
      ensures events == old(events) + DiscoveryEvents(out)
      ensures substrate.discoveredNodes == old(substrate.discoveredNodes) + DiscoveredNodes(out)
    {
      match out
      case UnroutablePeer(_) =>
      case Discovered(peerId) =>
        substrate.AddDefaultSetDiscoveredNodes([peerId]);
      case ValueFound(results, duration) =>
        events := events + [Dht(DhtEvent.ValueFound(results), duration)];
      case ValueNotFound(key, duration) =>
        events := events + [Dht(DhtEvent.ValueNotFound(key), duration)];
      case ValuePut(key, duration) =>
        events := events + [Dht(DhtEvent.ValuePut(key), duration)];
      case ValuePutFailed(key, duration) =>
        events := events + [Dht(DhtEvent.ValuePutFailed(key), duration)];
      case RandomKademliaStarted(protocols) =>
        for i := 0 to |protocols|
          invariant events == old(events) + FanOut(protocols[..i])
          invariant substrate.discoveredNodes == old(substrate.discoveredNodes)
        {
          FanOutAppend(protocols[..i], [protocols[i]]);
          assert protocols[..i + 1] == protocols[..i] + [protocols[i]];
          events := events + [BehaviourOut.RandomKademliaStarted(protocols[i])];
        }
        assert protocols[..|protocols|] == protocols;
    }

    /** Hands out the oldest queued event, or reports `Pending` on an empty queue and
        leaves it empty. Never fails and never waits. */
    method Poll() returns (p: PollOutput)
      modifies this
      ensures (p, events) == PollStep(old(events))
      ensures old(events) == [] ==> p == Pending && events == []
      ensures old(events) != [] ==> p == Ready(GenerateEvent(old(events)[0])) && events == old(events)[1..]
    {
      if events != [] {
        var event := events[0];
        events := events[1..];
        return Ready(GenerateEvent(event));
      }
      return Pending;
    }
  }

  /** A DHT lookup on a freshly built combinator, answered by discovery as not found
      after 50 ms: the next poll hands out exactly that outcome, and the one after it
      reports `Pending`. */
  method ValueNotFoundScenario(key: RecordKey, blockRequest: ProtocolConfig, stateRequest: ProtocolConfig,
                               lightClientRequest: ProtocolConfig)
    returns (first: PollOutput, second: PollOutput)
    requires blockRequest.name != stateRequest.name && blockRequest.name != lightClientRequest.name
    requires stateRequest.name != lightClientRequest.name
    ensures first == Ready(GenerateEvent(Dht(DhtEvent.ValueNotFound(key), Duration(50_000_000))))
    ensures second == Pending
  {
    var substrate := new SyncProtocol();
    var r := Behaviour.New(substrate, "node", PublicKey(0), DiscoveryConfig(0), blockRequest, stateRequest,
                           Option.None, Option.None, lightClientRequest, [], PeersetHandle(0));
    assert RequestProtocolList([], Option.None, blockRequest, stateRequest, lightClientRequest)
           == [blockRequest, stateRequest, lightClientRequest];
    var behaviour := r.value;
    behaviour.GetValue(key);
    behaviour.InjectDiscovery(DiscoveryOut.ValueNotFound(key, Duration(50_000_000)));
    first := behaviour.Poll();
    second := behaviour.Poll();
  }
}
