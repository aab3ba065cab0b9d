# Network behaviour combinator — a Dafny model

This project models the protocol-composition layer of Substrate's networking
service (`client/network/src/behaviour.rs`). The `Behaviour` combinator owns five
sub-protocols:

- chain sync (`Protocol`);
- peer identification (`PeerInfoBehaviour`);
- Kademlia discovery (`DiscoveryBehaviour`);
- the optional bitswap server;
- the generic request/response protocols.

It also owns one first-in-first-out queue of `BehaviourOut` events. The model covers these parts:

- **Construction** (`NetworkBehaviour.Behaviour.New`). It assembles the request/response protocol list: the caller's protocols, then warp sync if present, then block, state and light-client requests. It registers that list and passes on a registration error unchanged. On success it starts with an empty queue.
- **The role classifier** (`EventAdapters.ReportedRolesToObservedRole`).
- **The three pure `From` adapters.** These turn chain-sync outcomes, request/response events and peer-identification events into `BehaviourOut`.
- **The discovery adapter** (`inject_event(DiscoveryOut)` → `Behaviour.InjectDiscovery`). It appends DHT outcomes to the queue one-to-one. It fans a random Kademlia query out into one event per namespace. It hands discovered peers down to chain sync's peer set and drops unroutable peers.
- **`poll`** (`Behaviour.Poll`). It pops the oldest event or reports `Pending`.
- **The delegation methods.** Each one touches exactly one sub-protocol and leaves the queue unchanged.

Layout:

- `types.dfy` (module `NetworkTypes`): the event types and opaque tokens.
- `adapters.dfy` (module `EventAdapters`): the classifier and the pure adapters.
- `queue.dfy` (module `OutputQueue`): the queue as values. It defines what the discovery adapter appends and what one poll and a run of polls return. It also holds the FIFO and fan-out lemmas.
- `registration.dfy` (module `RequestProtocols`): the assembled protocol list and the name-collision scan.
- `behaviour.dfy` (module `NetworkBehaviour`): the `Behaviour` class and stand-ins for the sub-protocols. The class's `events: seq<BehaviourOut>` field is reassigned by `InjectDiscovery` and `Poll`, and both methods are proved against the functions in `queue.dfy`.

Payloads, peer ids, protocol names, durations, reply channels (`oneshot::Sender`) and notification sinks are opaque tokens. The combinator only moves them from one event to another. The sub-protocols are classes that keep only what the combinator can observe of them:

- chain sync keeps a ghost record of the nodes handed to its peer set;
- discovery keeps its answers to the delegated queries and a ghost record of the requests handed to it;
- peer identification keeps a node cache;
- request/response keeps its registered protocols and a ghost record of the requests sent.

Each sub-protocol is a `const` field of `Behaviour`. Each method's `modifies` clause therefore names exactly the sub-protocol that method may change.

## Model

| member | source | states |
|---|---|---|
| `EventAdapters.ReportedRolesToObservedRole` | client/network/src/behaviour.rs:361-369 | Total classification with precedence. The result is Authority exactly when the authority flag is set. It is Full exactly when the authority flag is clear and the full flag is set. It is Light exactly when both are clear. |
| `EventAdapters.FromCustomMessageOutcome` | client/network/src/behaviour.rs:377-419 | The result is the ignored event exactly for `PeerNewBest` and `None`. Every other result is tagged as a chain-sync event. The ten pass-through outcomes (imports, the three requests, stream replaced and closed, notifications received, sync connected and disconnected) keep their variant and every field: `AsCustomMessageOutcome` recovers the original outcome from the result. An opened stream keeps remote, protocol, fallback and sink, and its role is the classifier's verdict on the reported roles. The reply channel of a block/state/warp request is forwarded unchanged. |
| `EventAdapters.SyncTranslationLosesOnlyIgnoredAndRoles` | client/network/src/behaviour.rs:377-419 | Two outcomes with the same translation are equal, with two exceptions. Both may be one of the two ignored outcomes. Or both may be opened streams that differ only in roles of the same classification. |
| `EventAdapters.SyncTranslationOnto` | client/network/src/behaviour.rs:377-419 | The converse direction. Every output event that passes a chain-sync outcome through is exactly that outcome's translation. |
| `EventAdapters.FromRequestResponseEvent` | client/network/src/behaviour.rs:421-432 | One-to-one translation. Reading the event back out of the result gives the original event with every field kept, and the result is tagged as a request/response event. |
| `EventAdapters.RequestResponseTranslationOnto` | client/network/src/behaviour.rs:421-432 | The converse direction. Every output event that carries a request/response event is exactly that event's translation. |
| `EventAdapters.FromPeerInfoEvent` | client/network/src/behaviour.rs:434-439 | `Identified` becomes `PeerIdentify` with the same peer and info. |
| `OutputQueue.FanOut` | client/network/src/behaviour.rs:471-474 | One `RandomKademliaStarted` per namespace: as many events as namespaces, the i-th carrying the i-th namespace. |
| `OutputQueue.FanOutNamespaces` | client/network/src/behaviour.rs:471-474 | Reading the namespaces back from the fanned-out events gives exactly the original list, with order and repeats kept. The mapping is a bijection. |
| `OutputQueue.FanOutAppend` | client/network/src/behaviour.rs:471-474 | Fanning out `ps1 + ps2` equals fanning out `ps1` and then `ps2`. |
| `OutputQueue.DiscoveryEvents` | client/network/src/behaviour.rs:446-476 | Describes what the discovery adapter enqueues. `UnroutablePeer` and `Discovered` enqueue nothing. Each DHT outcome enqueues exactly one `Dht` event with the same outcome, key or records, and duration. A random query enqueues one event per namespace, in order. Every enqueued event is tagged as a discovery event. |
| `OutputQueue.DiscoveredNodes` | client/network/src/behaviour.rs:454-456 | Only `Discovered(p)` hands a peer to chain sync, and then exactly `p`. |
| `OutputQueue.InjectAllAppends` | client/network/src/behaviour.rs:457-474 | Injecting a run of discovery events only appends, in order. The earlier queue is a prefix of the result, followed by everything enqueued. |
| `OutputQueue.PollStep` | client/network/src/behaviour.rs:490-494 | A poll returns `Pending` exactly on an empty queue, and the queue is then unchanged. Otherwise it returns the oldest event, and that event followed by the new queue is the old queue. |
| `OutputQueue.DrainInOrder` | client/network/src/behaviour.rs:490-494 | Polling once per event at the front of the queue hands those events out oldest first. It leaves behind exactly what was queued after them. |
| `OutputQueue.DrainThenOne` | client/network/src/behaviour.rs:490-494 | Polling `n + 1` times equals polling `n` times followed by one more poll on the remaining queue. |
| `OutputQueue.Fifo` | client/network/src/behaviour.rs:446-495 | Start from an empty queue and inject discovery events. Then poll once per enqueued event: the polls yield exactly those events in enqueue order. One more poll returns `Pending`, and the queue is empty. |
| `OutputQueue.InjectKeepsHead` | client/network/src/behaviour.rs:457-494 | On a non-empty queue, appending discovery events does not change what the next poll returns. It only extends the queue left behind. |
| `RequestProtocols.RequestProtocolList` | client/network/src/behaviour.rs:253-258 | The assembled list is the caller's list, then warp sync when given, then block, state and light-client requests. Length and positions are stated. |
| `RequestProtocols.FirstDuplicate` | client/network/src/behaviour.rs:265-268 | Registration rejects a name exactly when the names are not distinct. The rejected name is the one at the first position where the list stops being distinct. |
| `RequestProtocols.DuplicateFromSpec` | client/network/src/behaviour.rs:265-268 | Generalises the previous row to a scan that starts after a distinct prefix. This is the induction that proves it. |
| `RequestProtocols.FindDuplicateProtocol` | client/network/src/behaviour.rs:265-268 | A scan that remembers the names seen so far finds exactly `FirstDuplicate`. It finds nothing exactly when the names are distinct. |
| `RequestProtocols.BuiltinNameCollision` | client/network/src/behaviour.rs:253-268 | A caller-supplied protocol named like the block, state or light-client request protocol always makes registration fail. |
| `NetworkBehaviour.RequestResponsesBehaviour.New` | client/network/src/behaviour.rs:265-268 | Registration fails exactly when names collide, with `DuplicateProtocol` of the first repeated name. Otherwise it yields a fresh object holding exactly the given list. |
| `NetworkBehaviour.SyncProtocol.AddDefaultSetDiscoveredNodes` | client/network/src/behaviour.rs:454-456 | The given nodes are added to chain sync's discovered set, and nothing else is added. |
| `NetworkBehaviour.Behaviour.constructor` | client/network/src/behaviour.rs:260-270 | Holds the given sub-protocols and starts with an empty queue. |
| `NetworkBehaviour.Behaviour.New` | client/network/src/behaviour.rs:239-271 | Registers the assembled list (`RequestProtocolList`). On a collision it returns that registration error unchanged and builds nothing. On success it returns a fresh combinator whose queue is empty. That combinator holds the given chain-sync protocol and bitswap toggle, a peer-info built from the user agent and key, and a discovery built from the config. Its request/response protocols are exactly the assembled list, with distinct names. |
| `NetworkBehaviour.Behaviour.KnownPeers` | client/network/src/behaviour.rs:273-276 | The answer is discovery's known-peer set. Nothing is modified. |
| `NetworkBehaviour.Behaviour.AddKnownAddress` | client/network/src/behaviour.rs:278-281 | Exactly this request is handed to discovery. Only discovery may change, and the queue is unchanged. |
| `NetworkBehaviour.Behaviour.NumEntriesPerKbucket` | client/network/src/behaviour.rs:283-291 | One entry per Kademlia instance, in order: its protocol id and its k-bucket occupancy. |
| `NetworkBehaviour.Behaviour.NumKademliaRecords` | client/network/src/behaviour.rs:293-296 | One entry per Kademlia instance: its protocol id and its record count. |
| `NetworkBehaviour.Behaviour.KademliaRecordsTotalSize` | client/network/src/behaviour.rs:298-303 | One entry per Kademlia instance: its protocol id and the total size of its records. |
| `NetworkBehaviour.Behaviour.Node` | client/network/src/behaviour.rs:305-312 | Returns `None` exactly when peer identification has no entry for the peer. Otherwise it returns that entry. |
| `NetworkBehaviour.Behaviour.SendRequest` | client/network/src/behaviour.rs:314-325 | The request is handed, with its reply channel and disconnect policy, to the request/response protocols only. The queue is unchanged. |
| `NetworkBehaviour.Behaviour.UserProtocol` | client/network/src/behaviour.rs:327-335 | Returns the owned chain-sync protocol itself. |
| `NetworkBehaviour.Behaviour.AddSelfReportedAddress` | client/network/src/behaviour.rs:337-346 | Exactly this request is handed to discovery. Only discovery may change, and the queue is unchanged. |
| `NetworkBehaviour.Behaviour.GetValue` | client/network/src/behaviour.rs:348-352 | A DHT lookup for the key is handed to discovery. The queue is unchanged, and the result arrives later as a discovery event. |
| `NetworkBehaviour.Behaviour.PutValue` | client/network/src/behaviour.rs:354-358 | A DHT write for the key and value is handed to discovery. The queue is unchanged. |
| `NetworkBehaviour.Behaviour.InjectDiscovery` | client/network/src/behaviour.rs:446-476 | The new queue is the old queue followed by `DiscoveryEvents(out)`, so earlier contents are untouched. Chain sync's discovered set grows by exactly `DiscoveredNodes(out)`. No other sub-protocol changes. |
| `NetworkBehaviour.Behaviour.Poll` | client/network/src/behaviour.rs:484-495 | On a non-empty queue it returns `Ready(GenerateEvent(oldest))`, and the queue becomes the old tail. On an empty queue it returns `Pending` and the queue stays empty. The result and new queue are exactly `PollStep` of the old queue. |
| `NetworkBehaviour.ValueNotFoundScenario` | client/network/src/behaviour.rs:446-495 | Build with no caller protocols and no bitswap, start a DHT lookup, then inject a value-not-found after 50 ms. The next poll returns exactly that `Dht` event, and the one after it returns `Pending`. |

## Left out

- The derive-generated wiring is framework glue and is not modelled. This covers `#[derive(NetworkBehaviour)]`, its `poll_method` and `event_process` settings, and `From<void::Void>`. It also covers how the framework feeds sub-protocol events to the adapters, and the `Context`/`PollParameters` arguments of `poll`. The three `From` adapters are modelled as functions. How and when the framework invokes them is not modelled, and neither is whether their results pass through `events`.
- The sub-protocols' internals are not part of this model: `Protocol`, `DiscoveryBehaviour`, `Bitswap`, `PeerInfoBehaviour` and `RequestResponsesBehaviour`. The stand-in classes record what is handed to them. They never change their answers (known peers, k-bucket statistics, cached nodes) on their own.
- `KnownPeers`, `NumEntriesPerKbucket`, `NumKademliaRecords` and `KademliaRecordsTotalSize` take `&mut self` in the source. The model's discovery stand-in answers them without changing.
- `RequestProtocols.FirstDuplicate`: the name-collision check belongs to `RequestResponsesBehaviour::new`, which is not part of this model. Which name is reported is this model's own choice: the first protocol name, in registration order, that repeats an earlier one. Only the fact that a collision is rejected as `DuplicateProtocol` comes from the call at client/network/src/behaviour.rs:265-268. Fallback names are not checked.
- `EventAdapters.ReportedRolesToObservedRole`: `Roles::is_authority` and `Roles::is_full` are defined in `protocol/message.rs`, which is not part of this model. Reading each of them as "the flag is set" is this model's assumption. It does not model the bit-mask encoding of `Roles`. If the real `is_authority` tests for exactly the authority role, a peer that reports both authority and full is classified Full by the source but Authority by this model.
- Reply channels (`oneshot::Sender`) and notification sinks are opaque tokens. The model proves they are forwarded unchanged. It does not model their single resolution or how a stale sink fails, because those are concurrency primitives outside this layer.
- `user_protocol_mut` has no member of its own. `NetworkBehaviour.Behaviour.UserProtocol` returns the chain-sync object as a reference, and a Dafny reference already permits mutation.
- The request/response end-to-end behaviour is not modelled. For example, failing a request fast when the peer is disconnected happens inside the request/response protocols.
- The other files of the repository are not part of the combinator: the scheduler storage migration, the staking-miner analysis, and the elections-phragmen election stub and mock.
