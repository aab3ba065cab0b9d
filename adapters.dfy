/** The role classifier and the adapters that turn the chain-sync, request/response
    and peer-identification events into the combinator's single output event type.
    All of them are pure translations. */
module EventAdapters {
  import opened NetworkTypes

  /** The sub-protocol an output event originates from; `Nowhere` is the ignored event. */
  datatype Source = FromSync | FromRequestResponses | FromPeerInfo | FromDiscovery | Nowhere

  function SourceOf(o: BehaviourOut): Source
  {
    if o.BlockImport? || o.JustificationImport? || o.BlockRequest? || o.StateRequest? || o.WarpSyncRequest?
       || o.NotificationStreamOpened? || o.NotificationStreamReplaced? || o.NotificationStreamClosed?
       || o.NotificationsReceived? || o.SyncConnected? || o.SyncDisconnected?
    then FromSync
    else if o.InboundRequest? || o.RequestFinished? || o.ReputationChanges? then FromRequestResponses
    else if o.PeerIdentify? then FromPeerInfo
    else if o.RandomKademliaStarted? || o.Dht? then FromDiscovery
    else Nowhere
  }

  /** The reply channel an output event carries, if it is a request to emit. */
  function PendingResponse(o: BehaviourOut): Option<ResponseSender>
  {
    if o.BlockRequest? || o.StateRequest? || o.WarpSyncRequest? then Some(o.pendingResponse) else Option.None
  }

  /** The reply channel a chain-sync outcome carries, if it is a request to emit. */
  function OutcomePendingResponse(e: CustomMessageOutcome): Option<ResponseSender>
  {
    if e.BlockRequest? || e.StateRequest? || e.WarpSyncRequest? then Some(e.pendingResponse) else Option.None
  }

  // ---------------------------------------------------------------------------
  // Role classifier
  // ---------------------------------------------------------------------------

  /** Classifies a remote by the roles it reports: the authority flag wins over the
      full flag, which wins over everything else. Total: every flag combination
      yields exactly one role. */
  function ReportedRolesToObservedRole(roles: Roles): (r: ObservedRole)
    ensures r == Authority <==> roles.IsAuthority()
    ensures r == Full <==> !roles.IsAuthority() && roles.IsFull()
    ensures r == Light <==> !roles.IsAuthority() && !roles.IsFull()
  {
    if roles.IsAuthority() then
      Authority
    else if roles.IsFull() then
      Full
    else
      Light
  }

  // ---------------------------------------------------------------------------
  // Chain-sync outcomes
  // ---------------------------------------------------------------------------

  /** Recovers the chain-sync outcome an output event passes through unchanged, if any:
      every chain-sync variant except the two ignored ones and the opened stream, whose
      roles are replaced by a classification. */
  function AsCustomMessageOutcome(o: BehaviourOut): Option<CustomMessageOutcome>
  {
    match o
    case BlockImport(origin, blocks) =>
      Some(CustomMessageOutcome.BlockImport(origin, blocks))
    case JustificationImport(origin, hash, nb, justification) =>
      Some(CustomMessageOutcome.JustificationImport(origin, hash, nb, justification))
    case BlockRequest(target, request, pendingResponse) =>
      Some(CustomMessageOutcome.BlockRequest(target, request, pendingResponse))
    case StateRequest(target, request, pendingResponse) =>
      Some(CustomMessageOutcome.StateRequest(target, request, pendingResponse))
    case WarpSyncRequest(target, request, pendingResponse) =>
      Some(CustomMessageOutcome.WarpSyncRequest(target, request, pendingResponse))
    case NotificationStreamReplaced(remote, protocol, notificationsSink) =>
      Some(CustomMessageOutcome.NotificationStreamReplaced(remote, protocol, notificationsSink))
    case NotificationStreamClosed(remote, protocol) =>
      Some(CustomMessageOutcome.NotificationStreamClosed(remote, protocol))
    case NotificationsReceived(remote, messages) =>
      Some(CustomMessageOutcome.NotificationsReceived(remote, messages))
    case SyncConnected(peerId) =>
      Some(CustomMessageOutcome.SyncConnected(peerId))
    case SyncDisconnected(peerId) =>
      Some(CustomMessageOutcome.SyncDisconnected(peerId))
    case _ => Option.None
  }

  /** Translates a chain-sync outcome. New-best-block notices and the explicit no-op
      both become the ignored event; every other outcome keeps its variant and its
      fields, except that an opened stream gets the remote's observed role
      in place of its reported roles; reply channels are forwarded, never resolved. */
  function FromCustomMessageOutcome(e: CustomMessageOutcome): (r: BehaviourOut)
    ensures r.None? <==> e.PeerNewBest? || e.None?
    ensures SourceOf(r) == if r.None? then Nowhere else FromSync
    ensures PendingResponse(r) == OutcomePendingResponse(e)
    ensures !(e.PeerNewBest? || e.None? || e.NotificationStreamOpened?) ==> AsCustomMessageOutcome(r) == Some(e)
    ensures e.NotificationStreamOpened? ==>
              && r.NotificationStreamOpened?
              && r.remote == e.remote && r.protocol == e.protocol
              && r.negotiatedFallback == e.negotiatedFallback
              && r.notificationsSink == e.notificationsSink
              && r.role == ReportedRolesToObservedRole(e.roles)
  {
    match e
    case BlockImport(origin, blocks) =>
      BehaviourOut.BlockImport(origin, blocks)
    case JustificationImport(origin, hash, nb, justification) =>
      BehaviourOut.JustificationImport(origin, hash, nb, justification)
    case BlockRequest(target, request, pendingResponse) =>
      BehaviourOut.BlockRequest(target, request, pendingResponse)
    case StateRequest(target, request, pendingResponse) =>
      BehaviourOut.StateRequest(target, request, pendingResponse)
    case WarpSyncRequest(target, request, pendingResponse) =>
      BehaviourOut.WarpSyncRequest(target, request, pendingResponse)
    case NotificationStreamOpened(remote, protocol, negotiatedFallback, roles, notificationsSink) =>
      BehaviourOut.NotificationStreamOpened(remote, protocol, negotiatedFallback, notificationsSink,
                                            ReportedRolesToObservedRole(roles))
    case NotificationStreamReplaced(remote, protocol, notificationsSink) =>
      BehaviourOut.NotificationStreamReplaced(remote, protocol, notificationsSink)
    case NotificationStreamClosed(remote, protocol) =>
      BehaviourOut.NotificationStreamClosed(remote, protocol)
    case NotificationsReceived(remote, messages) =>
      BehaviourOut.NotificationsReceived(remote, messages)
    case PeerNewBest(_, _) =>
      BehaviourOut.None
    case SyncConnected(peerId) =>
      BehaviourOut.SyncConnected(peerId)
    case SyncDisconnected(peerId) =>
      BehaviourOut.SyncDisconnected(peerId)
    case None =>
      BehaviourOut.None
  }

  /** The chain-sync translation loses information in exactly two places: the two
      ignored outcomes become indistinguishable, and an opened stream keeps only the
      classification of the remote's roles. Any two outcomes with the same
      translation are otherwise equal. */
  lemma SyncTranslationLosesOnlyIgnoredAndRoles(a: CustomMessageOutcome, b: CustomMessageOutcome)
    requires FromCustomMessageOutcome(a) == FromCustomMessageOutcome(b)
    ensures || a == b
            || ((a.PeerNewBest? || a.None?) && (b.PeerNewBest? || b.None?))
            || (&& a.NotificationStreamOpened? && b.NotificationStreamOpened?
                && a.(roles := b.roles) == b
                && ReportedRolesToObservedRole(a.roles) == ReportedRolesToObservedRole(b.roles))
  {
  }

  /** The converse direction: every output event that passes a chain-sync outcome
      through is exactly the translation of that outcome. */
  lemma SyncTranslationOnto(o: BehaviourOut, e: CustomMessageOutcome)
    requires AsCustomMessageOutcome(o) == Some(e)
    ensures FromCustomMessageOutcome(e) == o
  {
  }

  // ---------------------------------------------------------------------------
  // Request/response events
  // ---------------------------------------------------------------------------

  /** Recovers the request/response event an output event was made from, if any. */
  function AsRequestResponseEvent(o: BehaviourOut): Option<RequestResponseEvent>
  {
    match o
    case InboundRequest(peer, protocol, result) =>
      Some(RequestResponseEvent.InboundRequest(peer, protocol, result))
    case RequestFinished(peer, protocol, duration, result) =>
      Some(RequestResponseEvent.RequestFinished(peer, protocol, duration, result))
    case ReputationChanges(peer, changes) =>
      Some(RequestResponseEvent.ReputationChanges(peer, changes))
    case _ => Option.None
  }

  /** Translates a request/response event one-to-one, keeping every field. */
  function FromRequestResponseEvent(e: RequestResponseEvent): (r: BehaviourOut)
    ensures SourceOf(r) == FromRequestResponses
    ensures AsRequestResponseEvent(r) == Some(e)
  {
    match e
    case InboundRequest(peer, protocol, result) =>
      BehaviourOut.InboundRequest(peer, protocol, result)
    case RequestFinished(peer, protocol, duration, result) =>
      BehaviourOut.RequestFinished(peer, protocol, duration, result)
    case ReputationChanges(peer, changes) =>
      BehaviourOut.ReputationChanges(peer, changes)
  }

  /** The converse direction: every output event that carries a request/response
      event is exactly the translation of that event. */
  lemma RequestResponseTranslationOnto(o: BehaviourOut, e: RequestResponseEvent)
    requires AsRequestResponseEvent(o) == Some(e)
    ensures FromRequestResponseEvent(e) == o
  {
  }

  // ---------------------------------------------------------------------------
  // Peer-identification events
  // ---------------------------------------------------------------------------

  /** Translates the single peer-identification event, keeping the peer and its info. */
  function FromPeerInfoEvent(e: PeerInfoEvent): (r: BehaviourOut)
    ensures SourceOf(r) == FromPeerInfo
    ensures r.PeerIdentify? && r.peerId == e.peerId && r.info == e.info
  {
    var Identified(peerId, info) := e;
    BehaviourOut.PeerIdentify(peerId, info)
  }
}
