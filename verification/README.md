# minip2p in Dafny

A model of minip2p, a libp2p stack whose protocols are deterministic machines without sockets, clocks
or threads, and proofs of what those machines promise over every sequence of inputs, every
interleaving and every fragmentation. `dafny verify dfyconfig.toml` checks the whole project.

Each stateful protocol is given twice: as a value with step functions, about which the theorems are
proved, and as a class whose methods update their fields in place and are proved to be those steps.
Runs are sequences of steps; a main theorem speaks about every run.

The layers, each resting on the one before:

- **Wire formats.** `Varint`, `Utf8`, `Framing`, `Protobuf` and the messages on top of it
  (`RelayMessage`, `HolePunch`, `IdentifyMessage`, `AutonatMessage`); `Base58`, `Base32`, `PeerIds`;
  `Multiaddr` and `MultiaddrText`. `WireForms` pins the encodings down to literal bytes,
  `MessageMeaning` says which byte strings are which messages, and `TextForms` which texts are which
  peer ids and addresses.
- **Byte-stream protocols.** `Multistream`, with two machines over FIFO pipes in
  `MultistreamAgreement` and one machine facing any remote in `MultistreamOutcome` and
  `MultistreamVerdicts`; `Dcutr` with two-party safety in `DcutrSafety` and any remote in
  `DcutrRemote`; `Relay` with bridge conservation in `RelayBridge` and what each side says in
  `RelaySpeech`; `Ping` with its clocks in `PingTime` and its streams in `PingStreams`; `Identify` from
  end to end in `IdentifyExchange` and its streams in `IdentifyStreams`.
- **The swarm core.** `Swarm` gives every step as a function on values. `SwarmRouting` gives the
  drain loops in closed form, `SwarmInvariant` and `SwarmSteps` what every step keeps, and
  `SwarmEffects` what each stream event does. `SwarmScripts` describes each step by what the core owes
  for it and by the inputs it gives to ping and identify; `SwarmActions` shows that every step does
  exactly that, and `SwarmTables` gives all tables after it in closed form. The theorems about runs are
  in `SwarmRuns` (tables, tokens, readiness), `SwarmFidelity` (user streams, protocols and targets),
  `SwarmEvents` (event order, placeholders), `SwarmAgreement` (routing), `SwarmTraffic` (what is opened
  and told) and `SwarmConduct` (what is done on whose behalf). `SwarmObject` is the class.
- **Around the core.** `Driver` is the drain loop and the poll loop, shown to be lawful runs of the
  core; `Quic` is the transport's bookkeeping.

## Environment and reading notes

- Swarm runs are those a transport obeying its contract can cause
  (`SwarmInvariant.Allowed`, after crates/transport/src/transport.rs:13-46 and
  crates/transport/src/event.rs:51-62): a connection connects once, identities and new streams come
  between its `Connected` and its `Closed`, and stream ids are fresh. The counter of open tokens is
  taken not to have wrapped. Nothing else is asked of events: data, half-closes and closes may come
  for any stream at any time.
- A peer is a verified multihash or the placeholder of a connection (`Ids.PeerId`). The source
  derives a placeholder by hashing a text; the model takes placeholders of different connections to
  differ from each other and from real identities. Identities reported by the transport are real
  ones.
- Machine words are bounded where it matters: varints, tokens, the id allocator, the base32 bit
  buffers and saturating ids are modelled with their width. Bit operations are written as arithmetic.
- `used + length` in two frame decoders is unchecked. An overflow, or the slice after it, stops the
  program; the model has a separate outcome for it (`Framing.Overflow`), `Framing.OverflowIff` says
  when it occurs, and the two-party theorem for DCUtR shows that honest peers never cause it.
- Where the documentation and the code differ, the model follows the code: a dialer takes the reply
  `na` for success when it asked for `na`; an identity upgrade does not supersede an older
  connection; the close of a connection that was never identified is reported under its placeholder;
  the size limits of relay and DCUtR apply to the whole receive buffer; the base58 lookup compares
  the low byte of a character.
- Multistream machines are started when they are created, as the swarm does.
- Errors are compared by kind, without their texts.

## Model

| member | source | states |
|---|---|---|
| `SwarmSteps.StepKeeps` | crates/swarm/src/core.rs:240-577 | every event, report, tick or call that the transport contract allows keeps all table, readiness and idleness invariants at once |
| `SwarmRuns.MapCoherence` | crates/swarm/src/core.rs:714-738 | over every lawful run, supersession and identity upgrade included, `peer_to_conn[p] = c` implies `conn_to_peer[c] = p`, so the assertion before an open cannot fail |
| `SwarmRuns.ClosedForgotten` | crates/swarm/src/core.rs:1089-1120 | once a connection has closed, no table mentions it in any later state of any run |
| `SwarmRuns.ClosedSoFar` | crates/swarm/src/core.rs:494-496 | a connection counts as closed from its `Closed` event on, and only then |
| `SwarmRuns.StreamTables` | crates/swarm/src/core.rs:943-963 | the inbound-negotiator, outbound-negotiator and owner tables are pairwise disjoint, owned, negotiating and pending streams sit on connections with a peer, and tokens in use come from the counter |
| `SwarmRuns.TokenResolvedOnce` | crates/swarm/src/core.rs:514-544 | after a token has been reported once, opened or failed, a report of either kind in any later state of any run opens nothing and is answered with a fault |
| `SwarmTraffic.TokensDistinct` | crates/swarm/src/core.rs:740-748 | over every run the `OpenStream` actions carry strictly increasing tokens, exactly those the counter passed, so no two are equal |
| `SwarmTraffic.ActionsInOrder` | crates/swarm/src/core.rs:222-238 | over every run, actions handed to the driver followed by actions still queued are exactly the actions queued, in order and unchanged |
| `SwarmTraffic.QueuedTokens` | crates/swarm/src/core.rs:730-737 | in every state of every run the tokens still queued lie below the counter |
| `SwarmRuns.ReadinessAgrees` | crates/swarm/src/core.rs:674-690 | after every step the established peers are exactly the verified peers with a connection, ready peers are established and have sent their info, and both embedded machines are idle |
| `SwarmFidelity.UserStreamFidelity` | crates/swarm/src/core.rs:965-1029 | over every run and chunking, a stream owned by a user protocol has reported ready first and then exactly the bytes received behind the handshake frames, pipelined ones included; a negotiating stream has reported nothing and has not received a complete handshake; every such event, when queued, names the peer of its connection |
| `SwarmFidelity.StepNames` | crates/swarm/src/core.rs:987-1029 | whatever a step tells about user streams is about the stream of that step and names the peer of its connection; until handed out, an identity upgrade of that connection may rename it |
| `SwarmFidelity.RunNames` | crates/swarm/src/core.rs:987-1087 | the same in every step of every run |
| `SwarmFidelity.TargetsMatch` | crates/swarm/src/core.rs:714-738 | over every run, a stream being opened or dialled for ping, identify or a user protocol is for `/ipfs/ping/1.0.0`, `/ipfs/id/1.0.0` or that protocol, and a stream belongs to one of them only once the transport has delivered the whole handshake for that very protocol |
| `SwarmFidelity.InboundCompletes` | crates/swarm/src/core.rs:1126-1181 | once the bytes of a registered user protocol's handshake are all there, the inbound stream belongs to that protocol, whatever the chunking |
| `SwarmFidelity.OutboundCompletes` | crates/swarm/src/core.rs:1183-1258 | the same for a stream the application asked for |
| `SwarmFidelity.NothingUnrecorded` | crates/swarm/src/core.rs:439-507 | no step other than data, write-close or close of a stream queues a user-stream event |
| `SwarmEvents.EventsInOrder` | crates/swarm/src/core.rs:222-238 | over every run, events handed out followed by events still queued are exactly the events queued, in order; only peer names may be rewritten by an identity upgrade |
| `SwarmEvents.PlaceholdersStayInternal` | crates/swarm/src/core.rs:750-763 | over every run no event reports a placeholder peer as established, identified or ready, and of the errors only those of ping streams and of a second identify stream name one |
| `SwarmEvents.PlaceholderClosesIff` | crates/swarm/src/core.rs:1089-1110 | over every run, the `ConnectionClosed` events that name placeholders, handed out or queued, are exactly those of the connections that closed while their placeholder led to them, in order |
| `SwarmEvents.StepClosesIff` | crates/swarm/src/core.rs:1089-1110 | a step queues the close of a placeholder if and only if it closes a connection named by a placeholder that leads to it |
| `SwarmEvents.CloseTells` | crates/swarm/src/core.rs:1089-1110 | a close tells exactly the peer it leaves without a connection, and nothing else |
| `SwarmEvents.UnidentifiedNamed` | crates/swarm/src/core.rs:1016-1027 | the other events that may name a placeholder do: user-stream bytes, a refused second identify stream and a refused ping stream name whatever the connection is called |
| `SwarmEvents.PlaceholderCloses` | crates/swarm/src/core.rs:1093-1110 | a run in which the close of an unidentified connection does name a placeholder |
| `SwarmAgreement.RoutingAgreement` | crates/swarm/src/core.rs:765-903 | in every run in which no connection takes on the identity of another, identity upgrades included, the two connection tables are mutual inverses, at most one ping stream per connection is opening or negotiating, registering it cannot be refused, and every stream held by ping or identify is owned for that protocol on its peer's connection |
| `SwarmAgreement.AgreementIff` | crates/swarm/src/core.rs:845-903 | that agreement holds in every state of a lawful run if and only if no identity upgrade in it is to a peer with another connection |
| `SwarmAgreement.StepAgrees` | crates/swarm/src/core.rs:240-577 | one allowed step keeps the agreement if and only if it is not such an upgrade |
| `SwarmAgreement.UpgradeAgreesIff` | crates/swarm/src/core.rs:845-903 | an identity upgrade keeps tables and both machines in agreement, streams moved to the new name included, if and only if the new identity has no other connection |
| `SwarmAgreement.SendsRouted` | crates/swarm/src/core.rs:1440-1480 | in a core whose tables and machines agree, the sends of the ping machine on any input become exactly one `SendStream` each, in order, on streams that the connection of their peer owns for ping |
| `SwarmConduct.ActionsOfRun` | crates/swarm/src/core.rs:965-1525 | over every lawful run in which no connection takes on the identity of another, the actions queued, sends, closes, resets and opens alike, are exactly those the core owes for each event and call and those that a ping and an identify machine, run on their own over the inputs routed to them, want: in order, each once, on a stream owned for that protocol on its peer's connection |
| `SwarmConduct.ActionsOfStep` | crates/swarm/src/core.rs:965-1525 | the same for one step |
| `SwarmConduct.UserCallsOfRun` | crates/swarm/src/core.rs:355-392 | over every such run the sends, closes of the writing side and resets on streams of the application are, in order, exactly those it called for, each as the action it names and on the connection of the peer it names |
| `SwarmConduct.UserCallsOfStep` | crates/swarm/src/core.rs:355-392 | the same for one step |
| `SwarmConduct.ResetCauses` | crates/swarm/src/core.rs:1126-1434 | a stream is reset only because the application resets it, because ping asks for it on a stream of its own, or because it was negotiating and is given up: negotiation failed, or it is a second identify or ping stream; and whatever is given up is reset |
| `SwarmTraffic.NewsOfRun` | crates/swarm/src/core.rs:240-577 | over every lawful run, the events queued for the application are exactly those the core owes for each event and call and those that a ping and an identify machine, run on their own, report, in order and each once |
| `SwarmTraffic.NewsOfStep` | crates/swarm/src/core.rs:240-577 | the same for one step |
| `SwarmActions.StepPerforms` | crates/swarm/src/core.rs:240-577 | every allowed step does exactly what its script says: the actions and events queued, the inputs each embedded machine gets and the state that leaves it in, and the opens under the next tokens |
| `SwarmTables.StepNet` | crates/swarm/src/core.rs:439-507 | the tables after every step that is not about one stream, in closed form: names, addresses and states of connections as the event says, everything of a connection that leaves gone, everything else untouched, and the streams asked for |
| `SwarmTables.StreamNet` | crates/swarm/src/core.rs:943-985 | the tables after every event about one stream: a listener offers ping, identify and the registered protocols, a dialer proposes what was asked for, a stream whose verdict falls belongs to the protocol agreed on or to nobody, and nothing else changes |
| `SwarmTables.StepOpens` | crates/swarm/src/core.rs:714-748 | the streams being opened after a step are those that were, less the ones reported or of a connection that leaves, and the ones the step asks for, in order under the next tokens |
| `SwarmTables.IdentifyAsked` | crates/swarm/src/core.rs:786-790 | whenever a connection gets a name it did not have, on connecting or when its identity is verified, exactly one identify stream is asked for, on that connection and for `/ipfs/id/1.0.0` |
| `SwarmTables.StepApp` | crates/swarm/src/core.rs:765-903 | queued pings, peer infos, readiness, established peers, protocols and addresses after every step, in closed form |
| `SwarmTables.EventsReaddressed` | crates/swarm/src/core.rs:905-938 | an identity upgrade readdresses exactly the queued events about the former name and changes nothing else about them |
| `SwarmTables.OpenRefused` | crates/swarm/src/core.rs:317-350 | opening is refused for an unregistered protocol, then for an unknown peer, then for a protocol a ready peer does not speak, and never otherwise; a refusal changes nothing |
| `SwarmTables.PingRefused` | crates/swarm/src/core.rs:275-312 | a ping is refused exactly for an unknown peer, or on an open ping stream when it is not 32 bytes or one is in flight; a refusal changes nothing |
| `SwarmTables.UserCallRefused` | crates/swarm/src/core.rs:607-628 | a call on a user stream is refused exactly when no connection of the peer has such a stream |
| `SwarmTables.DisconnectRefused` | crates/swarm/src/core.rs:395-405 | disconnecting asks for the close of the peer's connection and is refused exactly when there is none |
| `SwarmConduct.PingStaysSound` | crates/swarm/src/core.rs:240-577 | the per-peer invariants of the ping machine hold of the embedded one in every state of every run |
| `SwarmAgreement.PingLeaves` | crates/swarm/src/core.rs:275-300 | a ping on an open stream leaves as exactly one `SendStream` on the peer's connection |
| `SwarmAgreement.DeferredPingLeaves` | crates/swarm/src/core.rs:1398-1413 | a ping queued until its stream was open leaves, once the stream is agreed on, as exactly one `SendStream` on that stream |
| `SwarmAgreement.EchoLeaves` | crates/swarm/src/core.rs:987-1006 | a completed inbound payload leaves as exactly one echo on the connection it came from |
| `SwarmAgreement.IdentifyAnswers` | crates/swarm/src/core.rs:1309-1357 | a negotiated identify stream is answered with our key, local addresses, protocols and versions, each in its own field, and the address the connection was seen from, framed, and then half-closed, on the connection and stream it came in on |
| `SwarmAgreement.UpgradeInverse` | crates/swarm/src/core.rs:845-903 | an identity upgrade keeps the tables mutually inverse if and only if the new identity has no other connection |
| `SwarmAgreement.TwinConnections` | crates/swarm/src/core.rs:879-880 | three allowed events after which two connections have the same peer, because an upgrade does not supersede |
| `SwarmRouting.DrainPingForm` | crates/swarm/src/core.rs:1509-1516 | draining the ping machine appends its routed actions and reported events, in order, and changes nothing else |
| `SwarmRouting.DrainIdentifyForm` | crates/swarm/src/core.rs:1518-1525 | draining the identify machine appends its routed actions and reported events and updates only peer info and readiness |
| `SwarmInvariant.SupersedeForm` | crates/swarm/src/core.rs:815-843 | superseding removes every trace of the old connection, keeps the queued ping, and asks for the connection to be closed |
| `SwarmInvariant.RekeyForm` | crates/swarm/src/core.rs:850-877 | an identity upgrade moves pings, peer info, readiness and buffered events from the stale name to the new one |
| `SwarmEffects.FeedInboundCases` | crates/swarm/src/core.rs:1126-1181 | an inbound negotiator goes on, is dropped and reset with a complaint if it failed, or gives way to the agreed protocol and exactly the bytes it did not consume; what it says is sent |
| `SwarmEffects.FeedOutboundCases` | crates/swarm/src/core.rs:1183-1258 | the same for an outbound negotiator |
| `SwarmEffects.InboundNegotiatedEffect` | crates/swarm/src/core.rs:1293-1370 | who owns an inbound stream after agreement, what the embedded machines hold, and what the application is told |
| `SwarmEffects.OutboundNegotiatedEffect` | crates/swarm/src/core.rs:1372-1434 | who owns an outbound stream after agreement, when ping refuses it, and what the application is told |
| `SwarmEffects.StreamClosedEffect` | crates/swarm/src/core.rs:1059-1087 | a closed stream is in no table, its owner is told, and a user stream is reported closed |
| `SwarmEffects.StreamDataElsewhere` | crates/swarm/src/core.rs:965-985 | data on one stream changes no pending open and no entry of another stream |
| `SwarmObject.SwarmCore.constructor` | crates/swarm/src/core.rs:160-190 | a new core is the empty core and satisfies all invariants |
| `SwarmObject.SwarmCore.Handle` | crates/swarm/src/core.rs:240-260 | any allowed event, report or call is the corresponding value-level step and keeps all invariants |
| `SwarmObject.SwarmCore.QueueOpenProtocolStream` | crates/swarm/src/core.rs:714-738 | records a pending open under a fresh token on the peer's connection; the assertion of the source is discharged at every call |
| `SwarmObject.SwarmCore.TakeOpenToken` | crates/swarm/src/core.rs:740-748 | the wrapping counter never yields zero |
| `SwarmObject.SwarmCore.RegisterConnection` | crates/swarm/src/core.rs:765-813 | is the value-level registration, superseding an older connection; the streams it asks for are those of `SwarmTables.IdentifyAsked` and `StepOpens` |
| `SwarmObject.SwarmCore.SupersedeConnection` | crates/swarm/src/core.rs:815-843 | is the value-level supersession |
| `SwarmObject.SwarmCore.UpgradeConnectionIdentity` | crates/swarm/src/core.rs:845-903 | is the value-level identity upgrade |
| `SwarmObject.SwarmCore.MigrateBufferedEvents` | crates/swarm/src/core.rs:905-938 | the in-place loop renames exactly the buffered events of the old peer |
| `SwarmObject.SwarmCore.OnConnectionClosed` | crates/swarm/src/core.rs:1089-1120 | is the value-level close |
| `SwarmObject.SwarmCore.HandleIncomingStream` | crates/swarm/src/core.rs:943-963 | a listener is started and its header sent |
| `SwarmObject.SwarmCore.HandleStreamOpened` | crates/swarm/src/core.rs:514-566 | a pending open becomes a started dialer, or a driver fault |
| `SwarmObject.SwarmCore.HandleStreamData` | crates/swarm/src/core.rs:965-985 | data goes to the negotiator or the owner of its stream |
| `SwarmObject.SwarmCore.FeedInboundNegotiator` | crates/swarm/src/core.rs:1126-1181 | the polling loop is the value-level feeding of a listener |
| `SwarmObject.SwarmCore.FeedOutboundNegotiator` | crates/swarm/src/core.rs:1183-1258 | the polling loop is the value-level feeding of a dialer |
| `SwarmObject.SwarmCore.HandleStreamRemoteWriteClosed` | crates/swarm/src/core.rs:1031-1057 | is the value-level half-close |
| `SwarmObject.SwarmCore.HandleStreamClosed` | crates/swarm/src/core.rs:1059-1087 | is the value-level stream close |
| `SwarmObject.SwarmCore.DrainPingOutputs` | crates/swarm/src/core.rs:1509-1516 | the loop ends and is the value-level drain |
| `SwarmObject.SwarmCore.DrainIdentifyOutputs` | crates/swarm/src/core.rs:1518-1525 | the loop ends and is the value-level drain |
| `SwarmObject.SwarmCore.PingRemote` | crates/swarm/src/core.rs:275-312 | sends at once, queues behind a pending stream, or opens one |
| `SwarmObject.SwarmCore.OpenStreamFor` | crates/swarm/src/core.rs:317-350 | refuses unregistered protocols, unknown peers and protocols a ready peer lacks |
| `SwarmObject.SwarmCore.CallUserStream` | crates/swarm/src/core.rs:355-392 | acts on the first connection of the peer that owns such a user stream: data is sent, a close closes the writing side, a reset resets |
| `SwarmObject.SwarmCore.PollNext` | crates/swarm/src/core.rs:222-227 | hands out actions before events, each queue in order |
| `Driver.DrainDelivers` | crates/swarm/src/driver.rs:450-458 | a drain leaves the core idle and buffers the queued and raised events once each and in order |
| `Driver.RoundLighter` | crates/swarm/src/driver.rs:468-539 | every round lowers the weighted load (open 3, other action 2, event 1), which is why draining ends |
| `Driver.OpenReturnsOwnStream` | crates/swarm/src/driver.rs:267-299 | whatever was queued before, the returned stream is the one the transport opened for the call's own token, now negotiating the protocol asked for; when that open is refused, the last stream opened for what was queued before is returned, so none on a drained core |
| `Driver.DrainIsRun` | crates/swarm/src/driver.rs:450-539 | draining against a transport that opens fresh streams is a lawful run of the core, so every theorem about lawful runs holds of driven cores, and the invariant is kept |
| `Driver.SwarmDriver.FlushActions` | crates/swarm/src/driver.rs:450-458 | the loop terminates, is the value-level drain, and keeps the core's invariant when the transport keeps its contract |
| `Driver.SwarmDriver.DispatchAction` | crates/swarm/src/driver.rs:468-539 | one action is executed and its result fed back |
| `Driver.SwarmDriver.OpenUser` | crates/swarm/src/driver.rs:267-299 | is the value-level open, discharges the core's assertion from its invariant, and keeps the invariant |
| `Driver.SwarmDriver.TakeEvents` | crates/swarm/src/driver.rs:367-377 | hands over everything buffered, leaves the core idle and keeps its invariant |
| `Driver.SwarmDriver.PollSwarm` | crates/swarm/src/driver.rs:347-377 | feeds addresses, transport events and a tick to the core, drains, and returns exactly the events that run and drain produce, in order, with the invariant kept; when polling the transport fails it returns early with only the addresses refreshed |
| `MultistreamAgreement.Agreement` | crates/multistream-select/src/lib.rs:152-191 | for every interleaving and fragmentation: no protocol error, at most one verdict a side, success exactly when supported, the dialer's verdict after the listener's, and both verdicts once at rest |
| `MultistreamAgreement.AgreementIff` | crates/multistream-select/src/lib.rs:218-285 | agreement holds over all runs if and only if the id is non-empty, at most 1023 bytes, and not an unsupported `na` |
| `MultistreamAgreement.UnsendableFails` | crates/multistream-select/src/lib.rs:319-364 | an empty or over-long id breaks agreement in a given run |
| `MultistreamAgreement.RefusalMistaken` | crates/multistream-select/src/lib.rs:268-276 | an unsupported `na` makes the dialer take the refusal for success |
| `MultistreamOutcome.ProcessOutcome` | crates/multistream-select/src/lib.rs:152-191 | whatever bytes arrive, a machine only talks until it gives exactly one verdict, and a success names the id whose complete handshake it received |
| `MultistreamOutcome.ReceiveTracked` | crates/multistream-select/src/lib.rs:152-191 | a machine's state depends only on all bytes received, not on the chunks |
| `MultistreamOutcome.ReceiveCompletes` | crates/multistream-select/src/lib.rs:147-150 | a complete handshake is answered, and the bytes behind it are left over untouched |
| `MultistreamVerdicts.VerdictIs` | crates/multistream-select/src/lib.rs:218-285 | the first two messages of any remote decide everything a machine says and decides, with the reason of each failure, whatever the chunking |
| `MultistreamVerdicts.FailuresIff` | crates/multistream-select/src/lib.rs:319-364 | bytes are refused as a message for exactly one of five reasons, each with its condition |
| `Multistream.ProcessSplit` | crates/multistream-select/src/lib.rs:152-191 | splitting the input anywhere changes neither outputs nor leftovers |
| `Multistream.DecodeCanonical` | crates/multistream-select/src/lib.rs:319-364 | a decoded message consumed exactly the encoding of what it returned |
| `Multistream.DecodeEncoded` | crates/multistream-select/src/lib.rs:299-364 | an encoded id decodes, whatever follows |
| `Multistream.DecodeStable` | crates/multistream-select/src/lib.rs:319-364 | bytes that settle a message are not reinterpreted when more arrive |
| `Multistream.MultistreamSelect.HandleData` | crates/multistream-select/src/lib.rs:152-191 | the in-place receive loop is the value-level processing |
| `Multistream.MultistreamSelect.HandleStart` | crates/multistream-select/src/lib.rs:124-134 | queues the header once |
| `Multistream.MultistreamSelect.TakeRemainingBuffer` | crates/multistream-select/src/lib.rs:147-150 | returns the unconsumed bytes and empties the buffer |
| `Multistream.MultistreamSelect.PollOutput` | crates/multistream-select/src/lib.rs:208-210 | hands out queued outputs in order |
| `DcutrSafety.Safety` | crates/dcutr/src/lib.rs:169-278 | with CONNECT frames of at most 4096 bytes, over every interleaving and fragmentation no data is rejected, SYNC follows the decoded reply, `SyncReceived` follows `ConnectReceived`, each side learns the other's address bytes, and a finished initiator at rest faces a finished responder |
| `DcutrSafety.SafetyIff` | crates/dcutr/src/lib.rs:532-537 | no run rejects data if and only if both CONNECT frames are within the limit |
| `DcutrSafety.AddressesLearned` | crates/dcutr/src/lib.rs:540-555 | over every such run, what each host is given to dial or told of decodes to exactly the address list of the other side |
| `Dcutr.DropsOnly` | crates/dcutr/src/lib.rs:551-555 | whatever arrives, the addresses handed out stand for exactly the entries that decode, in order |
| `Dcutr.DecodesOwn` | crates/dcutr/src/lib.rs:540-555 | encoded addresses all decode, to themselves |
| `DcutrRemote.InitiatorFaces` | crates/dcutr/src/lib.rs:169-278 | an initiator facing any remote, over every run: it says CONNECT and then at most one SYNC, the latter only with an outcome; it rejects data at most once and then has no outcome; the one outcome has the addresses of the CONNECT that all bytes heard start with |
| `DcutrRemote.ResponderFaces` | crates/dcutr/src/lib.rs:378-460 | a responder facing any remote, over every run: it tells of a CONNECT and then of a SYNC at most, as the bytes heard start with them, answers exactly a CONNECT with its own addresses, and rejects data at most once, after which nothing is told |
| `DcutrRemote.ReplyJudged` | crates/dcutr/src/lib.rs:235-278 | what bytes lead to while the reply is awaited: waiting, the outcome, or one of four failures, each with its exact condition |
| `DcutrRemote.RequestJudged` | crates/dcutr/src/lib.rs:403-460 | the same for a responder |
| `DcutrRemote.SyncJudged` | crates/dcutr/src/lib.rs:218-233 | SYNC is queued exactly when a reply has been taken and is refused otherwise |
| `Dcutr.DcutrInitiator.OnData` | crates/dcutr/src/lib.rs:184-195 | is the value-level receipt of reply bytes |
| `Dcutr.DcutrInitiator.TryDecodeReply` | crates/dcutr/src/lib.rs:235-278 | is the value-level decoding of the reply, every failure included |
| `Dcutr.DcutrInitiator.PollOutput` | crates/dcutr/src/lib.rs:478-490 | hands out queued bytes, then the outcome once |
| `Dcutr.DcutrInitiator.QueueSync` | crates/dcutr/src/lib.rs:218-233 | queues SYNC exactly when the reply has been decoded |
| `Dcutr.DcutrResponder.OnData` | crates/dcutr/src/lib.rs:378-385 | is the value-level receipt of initiator bytes |
| `Dcutr.DcutrResponder.TryDecode` | crates/dcutr/src/lib.rs:403-460 | the decode loop ends and is the value-level one |
| `Dcutr.DcutrResponder.PollOutput` | crates/dcutr/src/lib.rs:511-521 | hands out queued bytes, then events in order |
| `RelayBridge.HopConservation` | crates/relay/src/lib.rs:384-507 | over every run and chunking, bridge data handed out and pending is exactly what follows an accepting STATUS, the outcome is the one stated, handed out at most once and before any bridge data |
| `RelayBridge.HopBridges` | crates/relay/src/lib.rs:384-507 | over every run that feeds a STATUS and circuit bytes in any chunks, polls and ends interleaved, the verdict is taken if and only if the bytes received by the chunk completing the STATUS are within 8192, and then the circuit gets exactly the bytes behind an accepting STATUS, and nothing otherwise |
| `RelayBridge.StopBridges` | crates/relay/src/lib.rs:607-764 | over every run that feeds a CONNECT and circuit bytes in any chunks, polls, ends and decisions interleaved, the request is taken if and only if the bytes received by the chunk completing it are within 8192, the flow is bridged if and only if the first decision after that accepts, and then the circuit gets exactly the bytes behind the CONNECT |
| `RelayBridge.StopConservation` | crates/relay/src/lib.rs:607-764 | over every run and chunking, bridge data handed out and pending is exactly what follows the CONNECT once accepted and nothing otherwise; the request is handed out at most once, and bytes that decode to the whole STATUS of the decision precede all bridge data |
| `Relay.HopConnectFlow.OnData` | crates/relay/src/lib.rs:384-397 | is the value-level receipt |
| `Relay.HopConnectFlow.TryDecodeResponse` | crates/relay/src/lib.rs:422-474 | is the value-level decoding, every failure included |
| `Relay.HopConnectFlow.PollOutput` | crates/relay/src/lib.rs:491-507 | request, outcome, bridge data, in that order |
| `Relay.StopFlow.OnData` | crates/relay/src/lib.rs:607-619 | is the value-level receipt |
| `Relay.StopFlow.TryDecodeConnect` | crates/relay/src/lib.rs:682-729 | is the value-level decoding, every failure included |
| `RelaySpeech.HopAsks` | crates/relay/src/lib.rs:360-383 | over every run, what a HOP flow has sent and has still to send is exactly one CONNECT naming its target, by decoding; when a poll finds nothing, all of it, the outcome and all circuit bytes have been handed out |
| `RelaySpeech.StopAnswers` | crates/relay/src/lib.rs:641-680 | over every run, what a STOP responder has sent and has still to send is nothing before a decision, decodes to STATUS:OK once accepted and to the given status once rejected; the circuit is open exactly after an acceptance |
| `RelaySpeech.HopJudged` | crates/relay/src/lib.rs:422-474 | a HOP flow rejects bytes for exactly one of four reasons, each with its condition, and is then over without an outcome |
| `RelaySpeech.StopJudged` | crates/relay/src/lib.rs:682-729 | the same for a STOP responder |
| `RelaySpeech.DecisionJudged` | crates/relay/src/lib.rs:641-653 | a decision is refused exactly when there is no request to decide on |
| `Relay.StopFlow.AcceptRequest` | crates/relay/src/lib.rs:641-648 | queues the STATUS that `RelaySpeech.StopAnswers` reads back as OK and turns pipelined bytes into bridge data |
| `Relay.StopFlow.RejectRequest` | crates/relay/src/lib.rs:651-653 | queues the STATUS that `RelaySpeech.StopAnswers` reads back as the given one and ends the flow |
| `Relay.StopFlow.PollOutput` | crates/relay/src/lib.rs:748-764 | request, status bytes, bridge data, in that order |
| `Framing.DecodePrefix` | crates/relay/src/message.rs:344-365 | part of a frame is incomplete, a whole one complete |
| `Framing.DecodeStable` | crates/dcutr/src/message.rs:218-239 | settled bytes are not reinterpreted when more arrive |
| `Framing.DecodeCanonical` | crates/relay/src/message.rs:344-375 | a complete frame is the frame of its payload |
| `Framing.OverflowIff` | crates/relay/src/message.rs:355-356 | the unchecked addition overflows exactly on a complete prefix announcing a length whose frame would not fit a word |
| `Protobuf.WalkMixed` | crates/relay/src/message.rs:230-320 | unknown records anywhere between known ones do not change what the decoding loop builds |
| `Protobuf.DecodeLoop` | crates/dcutr/src/message.rs:108-178 | the index loop is the record-by-record walk |
| `RelayMessage.HopRoundTrip` | crates/relay/src/message.rs:495-566 | every Hop message decodes from any encoding of its records with unknown records mixed in, at the top and inside the nested Peer, Reservation and Limit |
| `RelayMessage.StopRoundTrip` | crates/relay/src/message.rs:571-631 | the same for Stop |
| `RelayMessage.HopDecodesEncoded` | crates/relay/src/message.rs:497-566 | every Hop message decodes from its encoding |
| `RelayMessage.StopDecodesEncoded` | crates/relay/src/message.rs:573-631 | every Stop message decodes from its encoding |
| `RelayMessage.PeerRoundTrip` | crates/relay/src/message.rs:379-413 | every Peer decodes from any encoding of its records with unknown records mixed in |
| `RelayMessage.ReservationRoundTrip` | crates/relay/src/message.rs:416-456 | every Reservation decodes from any such encoding |
| `RelayMessage.LimitRoundTrip` | crates/relay/src/message.rs:459-492 | every Limit decodes from any such encoding |
| `HolePunch.RoundTrip` | crates/dcutr/src/message.rs:84-178 | every HolePunch decodes from any encoding of its records with unknown records mixed in |
| `HolePunch.DecodesEncoded` | crates/dcutr/src/message.rs:84-178 | every HolePunch decodes from its encoding |
| `IdentifyMessage.RoundTrip` | crates/identify/src/message.rs:96-225 | every Identify message decodes from any encoding of its records with unknown records mixed in |
| `IdentifyMessage.DecodesEncoded` | crates/identify/src/message.rs:96-225 | every Identify message decodes from its encoding |
| `AutonatMessage.RoundTrip` | crates/autonat/src/lib.rs:560-733 | every AutoNAT message decodes from its encoding |
| `MessageMeaning.RecordIff` | crates/relay/src/message.rs:230-320 | a protobuf record is read exactly where the encoding of a well-formed record stands |
| `MessageMeaning.WalkMeans` | crates/relay/src/message.rs:230-320 | a decoding loop yields what some acceptable records that spell the string amount to, and nothing else |
| `MessageMeaning.HopMeans` | crates/relay/src/message.rs:520-566 | a string is a Hop message if and only if it is made of well-formed records with a type, known types only and nested messages that decode; the last of each field counts and unknown fields do not |
| `MessageMeaning.StopMeans` | crates/relay/src/message.rs:592-631 | the same for Stop |
| `MessageMeaning.PeerMeans` | crates/relay/src/message.rs:393-413 | the same for Peer |
| `MessageMeaning.ReservationMeans` | crates/relay/src/message.rs:433-456 | the same for Reservation |
| `MessageMeaning.LimitMeans` | crates/relay/src/message.rs:473-492 | the same for Limit, whose duration is kept modulo 2^32 |
| `MessageMeaning.HolePunchMeans` | crates/dcutr/src/message.rs:108-178 | the same for HolePunch: a type, and only CONNECT or SYNC as types |
| `MessageMeaning.IdentifyMeans` | crates/identify/src/message.rs:137-225 | the same for Identify: any records, with the text fields in UTF-8 |
| `MessageMeaning.AutonatMeans` | crates/autonat/src/lib.rs:573-610 | the same for AutoNAT, in its stricter dialect |
| `Ping.Conservation` | crates/ping/src/lib.rs:237-602 | over every run, accepted pings are exactly those measured, timed out, mismatched, cut off, discarded or in flight; a pending ping has a stream, at most two inbound streams, every buffer a proper fragment on a registered stream |
| `Ping.HandleSound` | crates/ping/src/lib.rs:366-602 | every input keeps the per-peer invariants |
| `Ping.HandleConserves` | crates/ping/src/lib.rs:635-683 | one input neither creates nor loses a ping unaccounted for |
| `Ping.FragmentsAddUp` | crates/ping/src/lib.rs:366-471 | however a payload is cut into chunks and whenever these arrive, it leads to exactly one reaction at the clock of the chunk that completes it: a measurement of the time since it was sent, a mismatch or missing-request violation, or an echo |
| `Ping.ChunkingIff` | crates/ping/src/lib.rs:366-471 | over every chunking of any number of payloads, each chunk with its own clock, on our own stream and on the remote's, the machine tells and does what those payloads lead to, each at the clock of its last byte, if and only if no chunk crosses the end of a payload |
| `Ping.EchoIff` | crates/ping/src/lib.rs:396-424 | on the remote's stream every payload is echoed and nothing else is done if and only if no chunk crosses the end of a payload |
| `PingTime.TimesOutIff` | crates/ping/src/lib.rs:569-604 | a tick that walks each peer once reports a timeout of a peer on a stream if and only if a ping was in flight there, sent at a time more than the limit before the tick; the other peers keep their states |
| `PingTime.TimeoutsJustified` | crates/ping/src/lib.rs:293-337 | over every run, a timeout belongs to an accepted ping to that peer, under whatever name it then had, sent more than the limit before |
| `PingTime.PingPong` | crates/ping/src/lib.rs:366-471 | end to end: a ping sent by one machine and echoed by another, in any chunks, is measured as the time between sending and the last byte of the echo |
| `PingStreams.InboundLimit` | crates/ping/src/lib.rs:270-291 | a peer may have two inbound streams; a third is reported and reset and leaves no trace |
| `PingStreams.OneOutbound` | crates/ping/src/lib.rs:237-261 | a peer has one outbound stream; a second one is refused and the same one again changes nothing |
| `PingStreams.SendAnswered` | crates/ping/src/lib.rs:293-337 | a ping of 32 bytes leaves on the peer's stream unless one is in flight; every refusal says why and changes nothing |
| `PingStreams.CloseAnswered` | crates/ping/src/lib.rs:339-364 | the writing side is closed unless a ping is in flight |
| `PingStreams.StrangersReset` | crates/ping/src/lib.rs:366-395 | bytes on a stream nobody registered are a violation and reset it |
| `PingStreams.RemoteEnds` | crates/ping/src/lib.rs:473-511 | what each end of the remote's writing leads to: silence, a closed outbound stream, or a violation when a ping was in flight |
| `PingStreams.StreamForgotten` | crates/ping/src/lib.rs:513-526 | a closed stream is forgotten with the ping in flight on it |
| `PingStreams.IdentityMoves` | crates/ping/src/lib.rs:542-564 | under its new identity a peer has all it had, and exactly the events about the former one are readdressed |
| `PingStreams.StreamsBounded` | crates/ping/src/lib.rs:270-291 | over every run a peer has at most two inbound streams, a ping in flight has a stream, and fragments are shorter than 32 bytes on registered streams |
| `Ping.TickExpiresAll` | crates/ping/src/lib.rs:569-604 | after a tick that walks all peers every ping in flight was sent at most the limit before |
| `Ping.PingProtocol.HandleInput` | crates/ping/src/lib.rs:635-683 | every input is the value-level step |
| `Ping.PingProtocol.OnStreamData` | crates/ping/src/lib.rs:366-424 | buffers fragments, rejects more than 32 bytes, completes payloads |
| `Ping.PingProtocol.OnTick` | crates/ping/src/lib.rs:569-604 | the loop is the value-level tick, and when it walks all peers every ping still in flight was sent at most the limit before |
| `Ping.PingProtocol.MigratePeerState` | crates/ping/src/lib.rs:542-564 | moves a peer's state and renames its buffered events |
| `Ping.PingProtocol.PollOutput` | crates/ping/src/lib.rs:685-694 | actions before events, in order |
| `IdentifyExchange.Exchange` | crates/identify/src/lib.rs:221-361 | end to end, field by field: the bytes of a responder's answer, at most 8192 and in any chunks, make the initiator report the responder's key, protocols and two versions, the listen addresses it was given and the address it saw; a longer answer is reported as failed |
| `IdentifyStreams.AnswersOnce` | crates/identify/src/lib.rs:221-278 | a peer is answered on one stream; another is refused and changes nothing |
| `IdentifyStreams.DataGathers` | crates/identify/src/lib.rs:289-322 | bytes are collected up to 8192 per stream, beyond which the stream is given up and reported |
| `IdentifyStreams.RemoteEnds` | crates/identify/src/lib.rs:324-361 | at the end of the remote's writing what came is reported once, as info or as failure, and our side is closed |
| `IdentifyStreams.StreamForgotten` | crates/identify/src/lib.rs:363-378 | a closed stream is forgotten, whatever it was for |
| `IdentifyStreams.IdentityMoves` | crates/identify/src/lib.rs:390-409 | under its new identity a peer has the streams it had, and exactly the events about the former one are readdressed |
| `IdentifyStreams.ProtocolAdvertised` | crates/identify/src/lib.rs:202-210 | a protocol is advertised once, behind those that were |
| `Identify.Delivery` | crates/identify/src/lib.rs:289-361 | the info a responder frames is reported by its peer for every chunking, exactly when the frame is at most 8192 bytes, and reported as failed otherwise |
| `Identify.FeedAccumulates` | crates/identify/src/lib.rs:289-322 | chunks accumulate until the limit is first exceeded, then are ignored |
| `Identify.IdentifyProtocol.HandleInput` | crates/identify/src/lib.rs:422-463 | every input is the value-level step, of which `IdentifyExchange.Exchange` says what it comes to between two machines |
| `Identify.IdentifyProtocol.MigratePeerState` | crates/identify/src/lib.rs:390-409 | moves a peer's state and renames its buffered events |
| `Identify.IdentifyProtocol.PollOutput` | crates/identify/src/lib.rs:465-474 | actions before events, in order |
| `Varint.ReadEncoded` | crates/identity/src/peer_id.rs:226-269 | a written number followed by anything reads back with its length |
| `Varint.ReadIffEncoded` | crates/identity/src/peer_id.rs:241-269 | a read succeeds exactly on what writing would emit |
| `Varint.ReadPrefixStable` | crates/identity/src/peer_id.rs:241-269 | any result but `BufferTooShort` is unchanged by more input |
| `Varint.ReadShort` | crates/identity/src/peer_id.rs:241-269 | when exactly more input is asked for |
| `Varint.UvarintLen` | crates/identity/src/peer_id.rs:216-223 | the loop yields the encoded length |
| `Varint.WriteUvarint` | crates/identity/src/peer_id.rs:226-238 | the loop appends the encoding |
| `Varint.ReadUvarint` | crates/identity/src/peer_id.rs:241-269 | the loop is the value-level read |
| `Base58.ConvertInverse` | crates/identity/src/peer_id.rs:293-374 | converting a digit string to the other base and back changes nothing |
| `Base58.DecodeEncoded` | crates/identity/src/peer_id.rs:293-374 | decoding inverts encoding on every non-empty byte string |
| `Base58.EncodeDecodedIff` | crates/identity/src/peer_id.rs:379-384 | encoding inverts decoding exactly on alphabet text, because the lookup compares low bytes only |
| `Base58.MultiplyAdd` | crates/identity/src/peer_id.rs:302-316 | the in-place digit vector always denotes the number, keeps a non-zero top digit, and the carry stays below the factor: at most 255 encoding, 57 decoding |
| `Base58.EncodeBase58` | crates/identity/src/peer_id.rs:293-332 | the loops compute the encoding |
| `Base58.DecodeBase58` | crates/identity/src/peer_id.rs:337-374 | the loops compute the decoding, both errors included |
| `Base32.DecodeEncoded` | crates/identity/src/peer_id.rs:389-444 | every byte string survives base32 |
| `Base32.EncodeBase32` | crates/identity/src/peer_id.rs:389-415 | the bit buffer, leftovers and wrap-around included, yields the five-bit groups |
| `Base32.DecodeBase32` | crates/identity/src/peer_id.rs:419-444 | the bit buffer yields the bytes and drops incomplete ones |
| `PeerIds.BinaryIff` | crates/identity/src/peer_id.rs:67-93 | binary forms and valid ids correspond one to one |
| `PeerIds.DerivedSurvives` | crates/identity/src/peer_id.rs:161-176 | every key-derived id parses back from its printed form |
| `PeerIds.HashPrintsQm` | crates/identity/src/peer_id.rs:55-64 | a hashed key always prints with `Qm`, by a bound on 256-bit numbers in base 58 |
| `PeerIds.IdentityPrintsOne` | crates/identity/src/peer_id.rs:55-64 | an inlined key always prints with `1` |
| `PeerIds.CidSurvives` | crates/identity/src/peer_id.rs:109-158 | every peer id survives CIDv1 base32 |
| `PeerIds.Base58Survives` | crates/identity/src/peer_id.rs:103-126 | every peer id survives base58 parsed as such |
| `PeerIds.ParseDisplayedIff` | crates/identity/src/peer_id.rs:161-176 | a valid id parses back from its printed form if and only if that starts with `1` or `Qm`; otherwise it is read as a CID, which it is too short to hold |
| `PeerIds.PrintsUnreadable` | crates/identity/src/peer_id.rs:161-176 | an id that decodes from bytes and prints as text no peer id is read from |
| `TextForms.PeerTextIff` | crates/identity/src/peer_id.rs:129-176 | a text names a peer if and only if it is base 58 of its binary form and starts with `1` or `Qm`, or multibase base 32 or base 58 of its CID |
| `Multiaddr.BinaryIff` | crates/core/src/multiaddr.rs:110-137 | a byte string decodes to an address if and only if it is the encoding of that well-formed address |
| `Multiaddr.ReadIff` | crates/core/src/protocol.rs:76-154 | a component is read exactly where its encoding stands |
| `Multiaddr.EncodeAddr` | crates/core/src/multiaddr.rs:110-116 | the loop computes the encoding |
| `Multiaddr.DecodeAddr` | crates/core/src/multiaddr.rs:128-137 | the loop computes the decoding |
| `MultiaddrText.ParseDisplayedIff` | crates/core/src/multiaddr.rs:140-278 | a non-empty address that decodes from bytes parses back from its printed form if and only if every DNS name in it is valid and every peer id prints with `1` or `Qm` |
| `MultiaddrText.ParseDisplayed` | crates/core/src/multiaddr.rs:140-278 | the half of it that gives the round trip |
| `MultiaddrText.DerivedReadable` | crates/identity/src/peer_id.rs:55-64 | every key-derived peer id prints that way |
| `MultiaddrText.NameWithSlash` | crates/core/src/protocol.rs:120-140 | a DNS name with a slash decodes from bytes and prints as another address |
| `MultiaddrText.UnreadablePeer` | crates/core/src/protocol.rs:141-150 | a peer id that is not derived from a key decodes from bytes in an address whose text does not parse back |
| `MultiaddrText.ParseMultiaddr` | crates/core/src/multiaddr.rs:188-278 | the segment loop computes the parse, every error included |
| `MultiaddrText.Ip4Survives` | crates/core/src/multiaddr.rs:304-317 | dotted quads parse back |
| `MultiaddrText.SplitJoined` | crates/core/src/multiaddr.rs:196-198 | slash-joined parts split back |
| `TextForms.AddressTextIff` | crates/core/src/multiaddr.rs:188-278 | a text is a multiaddr if and only if it starts with a slash and the segments behind it spell its components, name by name and value by value |
| `TextForms.ComponentErrors` | crates/core/src/multiaddr.rs:200-278 | a component is refused for exactly one of eight reasons, each with its condition |
| `TextForms.FirstErrorCounts` | crates/core/src/multiaddr.rs:188-278 | an address is refused for want of its slash or for its first component that is refused |
| `WireForms.Varints` | crates/identity/src/peer_id.rs:226-238 | numbers below 2^7 and 2^14 are written as the one and two bytes of unsigned LEB128 |
| `WireForms.ProtocolIds` | crates/multistream-select/src/lib.rs:18-20 | the ids of ping, identify and multistream are the texts `/ipfs/ping/1.0.0`, `/ipfs/id/1.0.0`, `/multistream/1.0.0` and `na` |
| `WireForms.Lines` | crates/multistream-select/src/lib.rs:299-317 | a multistream line is its length with the newline, the id, and the newline |
| `WireForms.IdentifyForm` | crates/identify/src/message.rs:96-140 | the fields of Identify stand under the numbers 1, 2, 3, 4, 5 and 6, each with its wire type |
| `WireForms.RelayCodes` | crates/relay/src/message.rs:38-105 | the kinds and status codes of the circuit relay messages have the numbers of the specification |
| `WireForms.HopForm` | crates/relay/src/message.rs:497-520 | the fields of Hop stand under the numbers 1 to 5 |
| `WireForms.StopForm` | crates/relay/src/message.rs:573-595 | the fields of Stop stand under the numbers 1 to 4 |
| `WireForms.NestedForms` | crates/relay/src/message.rs:379-492 | Peer, Reservation and Limit have their field numbers and wire types |
| `WireForms.HolePunchForm` | crates/dcutr/src/message.rs:39-107 | HolePunch has type 100 for CONNECT and 300 for SYNC under field 1 and addresses under field 2 |
| `WireForms.AutonatForm` | crates/autonat/src/lib.rs:560-600 | the AutoNAT message has its type under field 1 and the nested messages under 2 and 3 |
| `WireForms.MultiaddrForms` | crates/core/src/protocol.rs:19-100 | each multiaddr component starts with its code from the multicodec table, with ports big-endian and names and ids length-prefixed |
| `WireForms.TextOfAddress` | crates/core/src/multiaddr.rs:140-186 | an address with a peer prints as the slash-separated text of the specification |
| `WireForms.Base58Alphabet` | crates/identity/src/peer_id.rs:24-24 | digit `v` of base 58 is the v-th character of the Bitcoin alphabet |
| `WireForms.Base32Alphabet` | crates/identity/src/peer_id.rs:25-25 | digit `v` of base 32 is the v-th character of the lower-case RFC 4648 alphabet, and back |
| `WireForms.KeyForms` | crates/identity/src/peer_id.rs:52-64 | a key of at most 42 bytes is inlined behind 0x00, a longer one hashed behind 0x12 and 0x20 |
| `WireForms.CidForm` | crates/identity/src/peer_id.rs:109-126 | the CID of a peer id is version 1 and codec 0x72 before the multihash |
| `Quic.IndexAgreement` | transports/quic/src/lib.rs:784-811 | over every run a connection is listed under a peer exactly when it is live and its endpoint names that peer, and CIDs lead to live connections only |
| `Quic.StepIs` | transports/quic/src/lib.rs:784-811 | what one change does to connections and CIDs: enter under the first CID, change peer, take a CID, or leave with exactly the CIDs that led there; all else stays |
| `Quic.OutAndBack` | transports/quic/src/lib.rs:544-559 | an internal id survives the dual-stack mapping exactly below 2^63, zero excepted for IPv4 |
| `Quic.InAndBack` | transports/quic/src/lib.rs:544-559 | every external id but the largest survives the way in and back |
| `Quic.LeaveAgrees` | transports/quic/src/lib.rs:1119-1124 | a closed connection is in no index |
| `Quic.QuicTransport.AllocateConnectionId` | transports/quic/src/lib.rs:752-774 | yields a free non-zero id and fails exactly when all are in use; the wrapping search ends |
| `Quic.QuicTransport.SetPeer` | transports/quic/src/lib.rs:717-749 | moves a connection between peers in the index |
| `Quic.QuicTransport.Admit` | transports/quic/src/lib.rs:862-869 | enters a connection under a fresh id |
| `Quic.QuicTransport.Remove` | transports/quic/src/lib.rs:1119-1124 | removes a connection from every index |

## Left out

- quiche, TLS, UDP sockets, DNS, certificates, signatures and key files: foreign code and I/O. A
  packet enters `Quic` only as a change of peer id or source CID.
- SHA-256 is a parameter of `PeerIds.FromKey`; the multihash crate is modelled as code, size and a
  digest of at most 64 bytes, with no bytes left over.
- IPv6 text, decoding of UTF-8 into characters and the classification of white space are parameters
  of `MultiaddrText`, with the inverse that the standard library promises for IPv6.
- Clock readings, round-trip times and ping payloads are inputs; a tick is told in which order the
  peer table is walked; lossy decoding of AutoNAT status text is a parameter.
- Negotiators are values inside the swarm's tables rather than objects, so aliasing between them is
  not modelled; ping and identify are objects of the swarm.
- Addresses are carried through the swarm and identify in binary form, whose correspondence with
  addresses is `Multiaddr.BinaryIff`; that AutoNAT drops undecodable addresses is not modelled.
- HopReservation: the same control-frame flow as `HopConnect` without a bridge.
- The AutoNAT client and server machines, their framing and their limits: simpler copies of the relay
  flow; only the nested message codec is modelled.
- Liveness: nothing is claimed about a ping that stays queued after a failed open, nor that events
  are ever polled.
- Candidate selection, `PeerAddr`, encapsulation of multiaddrs, PEM and hex helpers, the builder and
  the command line: easy members or wiring.
