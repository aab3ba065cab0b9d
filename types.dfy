/** The values that flow through the network behaviour combinator.
    Payloads, identities, durations and channel ends are opaque tokens: the
    combinator only moves them from one event to another and never looks inside. */
module NetworkTypes {

  datatype Option<+T> = None | Some(value: T)

  datatype Result<+T, +E> = Ok(value: T) | Err(error: E)

  // ---------------------------------------------------------------------------
  // Opaque tokens
  // ---------------------------------------------------------------------------

  datatype PeerId = PeerId(id: nat)
  datatype Multiaddr = Multiaddr(id: nat)
  datatype PublicKey = PublicKey(id: nat)
  /** Name of a request/response or notifications protocol; names are compared when protocols register. */
  datatype ProtocolName = ProtocolName(name: string)
  /** Identifies one Kademlia instance (a discovery namespace). */
  datatype ProtocolId = ProtocolId(id: string)
  datatype Duration = Duration(nanos: nat)

  datatype BlockOrigin = BlockOrigin(id: nat)
  datatype ImportOrigin = ImportOrigin(id: nat)
  datatype IncomingBlock = IncomingBlock(id: nat)
  datatype BlockHash = BlockHash(id: nat)
  datatype BlockNumber = BlockNumber(n: nat)
  datatype Justifications = Justifications(id: nat)

  datatype OpaqueBlockRequest = OpaqueBlockRequest(id: nat)
  datatype OpaqueStateRequest = OpaqueStateRequest(id: nat)
  datatype WarpProofRequest = WarpProofRequest(id: nat)

  /** The sending end of a one-shot reply channel; the combinator only forwards it. */
  datatype ResponseSender = ResponseSender(id: nat)
  /** Handle that permits sending notifications to one peer on one protocol. */
  datatype NotificationsSink = NotificationsSink(id: nat)

  datatype IdentifyInfo = IdentifyInfo(id: nat)
  datatype RecordKey = RecordKey(id: nat)
  datatype PeerRecords = PeerRecords(id: nat)
  datatype ResponseFailure = ResponseFailure(id: nat)
  datatype RequestFailure = RequestFailure(id: nat)
  datatype ReputationChange = ReputationChange(value: int, reason: string)
  datatype IfDisconnected = TryConnect | ImmediateError
  type Bytes = seq<bv8>

  /** A request/response protocol descriptor. Only its name matters to the combinator. */
  datatype ProtocolConfig = ProtocolConfig(name: ProtocolName, settings: nat)

  /** Error of registering the request/response protocols. */
  datatype RegisterError = DuplicateProtocol(name: ProtocolName)

  // ---------------------------------------------------------------------------
  // Roles
  // ---------------------------------------------------------------------------

  /** Capability flags a peer reports about itself in its handshake. */
  datatype Roles = Roles(full: bool, light: bool, authority: bool)
  {
    predicate IsAuthority() { authority }
    predicate IsFull() { full }
  }

  /** Role of a remote as the local node classifies it. */
  datatype ObservedRole = Authority | Full | Light

  // ---------------------------------------------------------------------------
  // Events coming in from the sub-protocols
  // ---------------------------------------------------------------------------

  /** Outcome of the chain-sync protocol's message handling. */
  datatype CustomMessageOutcome =
    | BlockImport(blockOrigin: BlockOrigin, blocks: seq<IncomingBlock>)
    | JustificationImport(origin: ImportOrigin, hash: BlockHash, number: BlockNumber, justifications: Justifications)
    | BlockRequest(target: PeerId, blockRequest: OpaqueBlockRequest, pendingResponse: ResponseSender)
    | StateRequest(target: PeerId, stateRequest: OpaqueStateRequest, pendingResponse: ResponseSender)
    | WarpSyncRequest(target: PeerId, warpRequest: WarpProofRequest, pendingResponse: ResponseSender)
    | NotificationStreamOpened(remote: PeerId, protocol: ProtocolName, negotiatedFallback: Option<ProtocolName>,
                               roles: Roles, notificationsSink: NotificationsSink)
    | NotificationStreamReplaced(remote: PeerId, protocol: ProtocolName, notificationsSink: NotificationsSink)
    | NotificationStreamClosed(remote: PeerId, protocol: ProtocolName)
    | NotificationsReceived(remote: PeerId, messages: seq<(ProtocolName, Bytes)>)
    | PeerNewBest(peerId: PeerId, number: BlockNumber)
    | SyncConnected(peerId: PeerId)
    | SyncDisconnected(peerId: PeerId)
    | None

  /** Events of the generic request/response protocols. */
  datatype RequestResponseEvent =
    | InboundRequest(peer: PeerId, protocol: ProtocolName, inboundResult: Result<Duration, ResponseFailure>)
    | RequestFinished(peer: PeerId, protocol: ProtocolName, duration: Duration, finishedResult: Result<(), RequestFailure>)
    | ReputationChanges(peer: PeerId, changes: seq<ReputationChange>)

  /** Events of the peer-identification protocol. */
  datatype PeerInfoEvent = Identified(peerId: PeerId, info: IdentifyInfo)

  /** Events of the discovery (Kademlia) protocol. */
  datatype DiscoveryOut =
    | UnroutablePeer(peerId: PeerId)
    | Discovered(peerId: PeerId)
    | ValueFound(records: PeerRecords, duration: Duration)
    | ValueNotFound(key: RecordKey, duration: Duration)
    | ValuePut(key: RecordKey, duration: Duration)
    | ValuePutFailed(key: RecordKey, duration: Duration)
    | RandomKademliaStarted(protocols: seq<ProtocolId>)

  /** Result of a DHT query, as handed to the outside. */
  datatype DhtEvent =
    | ValueFound(records: PeerRecords)
    | ValueNotFound(key: RecordKey)
    | ValuePut(key: RecordKey)
    | ValuePutFailed(key: RecordKey)

  // ---------------------------------------------------------------------------
  // The one event type the combinator hands out
  // ---------------------------------------------------------------------------

  datatype BehaviourOut =
    | BlockImport(blockOrigin: BlockOrigin, blocks: seq<IncomingBlock>)
    | JustificationImport(origin: ImportOrigin, hash: BlockHash, number: BlockNumber, justifications: Justifications)
    | RandomKademliaStarted(kademlia: ProtocolId)
    | InboundRequest(peer: PeerId, protocol: ProtocolName, inboundResult: Result<Duration, ResponseFailure>)
    | RequestFinished(peer: PeerId, protocol: ProtocolName, duration: Duration, finishedResult: Result<(), RequestFailure>)
    | ReputationChanges(peer: PeerId, changes: seq<ReputationChange>)
    | NotificationStreamOpened(remote: PeerId, protocol: ProtocolName, negotiatedFallback: Option<ProtocolName>,
                               notificationsSink: NotificationsSink, role: ObservedRole)
    | NotificationStreamReplaced(remote: PeerId, protocol: ProtocolName, notificationsSink: NotificationsSink)
    | NotificationStreamClosed(remote: PeerId, protocol: ProtocolName)
    | NotificationsReceived(remote: PeerId, messages: seq<(ProtocolName, Bytes)>)
    | BlockRequest(target: PeerId, blockRequest: OpaqueBlockRequest, pendingResponse: ResponseSender)
    | StateRequest(target: PeerId, stateRequest: OpaqueStateRequest, pendingResponse: ResponseSender)
    | WarpSyncRequest(target: PeerId, warpRequest: WarpProofRequest, pendingResponse: ResponseSender)
    | SyncConnected(peerId: PeerId)
    | SyncDisconnected(peerId: PeerId)
    | PeerIdentify(peerId: PeerId, info: IdentifyInfo)
    | Dht(dhtEvent: DhtEvent, duration: Duration)
    | None

  /** What a poll hands to the transport driver. */
  datatype NetworkBehaviourAction = GenerateEvent(event: BehaviourOut)

  datatype Poll<+T> = Ready(value: T) | Pending
}
