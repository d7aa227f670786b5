# Fake rendezvous mediator: a Dafny model

This project models the integration-test mediator of p2psc, the `FakeMediator`. Two peers that
want to reach each other each connect to the mediator. Each peer advertises its own public key,
the key of the peer it wants and its protocol version. The mediator then does three things:

- it challenges each peer with a nonce encrypted under the peer's claimed key;
- it is meant to decide by arrival order which peer is the initiator and which the responder,
  so that one becomes initiator and one responder;
- it is meant to tell the responder to disconnect before it tells the initiator the responder's
  address (the comment at fake_mediator.cpp:130-132 gives the reason).

The code does not guarantee either. Two runs given below show where it fails: racing lookups
make two initiators, and an old mark releases an initiator before its peer is told to disconnect.

The model has six modules:

- `Wrappers`: the `Option` type used for lookups and for an await's outcome.
- `Decimal`: the decimal rendering `std::to_string` gives an `int`, with a parser that reads it
  back. It is used to state that the AdvertiseAbort reason carries the required version.
- `Messages`: the six wire messages, addresses and peer records. The JSON codec and RSA
  encryption are function values in a `Codec`, so the model assumes nothing about them.
- `Handshake`: the handler `_handle_connection` as pure transitions over the shared state. The
  shared state is the identifier store (a map), the completed-disconnects set and the
  sent/received logs. The handler is cut where it blocks (the two socket reads, the `await`,
  the barrier wait), between its lookup and its registration, between a responder's
  registration and its PeerDisconnect, and between its PeerDisconnect and its mark. A `Phase`
  names each cut. Three more pairs of calls stay one step each; "## Left out" says which, and what each merge hides.
- `Mediator`: the class `FakeMediator`. Its fields are that state, the `_is_running` flag and
  the quit-after setting. It has one method per primitive (`get`, `put`, `_add_to_disconnects`,
  `_wait_for_disconnect`, `_send_and_log`, `_receive_and_log`) and one per handler step. Each
  step method is proved to produce exactly the state and phase of its `Handshake` transition.
- `Rendezvous`: many handlers interleaved in any order, with a history of the messages they sent
  and the barrier marks they made. An await fires with the stored record when the wanted key is
  in the store, and with a timeout when it is not.

What the proofs establish:

- Unless the quit-after type is Advertise, a peer whose version is too low receives exactly one AdvertiseAbort with reason
  `"Required protocol version: " + to_string(required)`, and the store and the disconnect set
  are unchanged. The rendering reads back as the required version.
- Unless the quit-after type is Advertise, a peer whose version is accepted is first sent the
  AdvertiseChallenge carrying `encrypt(our_key, "1337")`. When the quit-after type is Advertise,
  the run ends after the Advertise and nothing is sent.
- A run ends at the first message whose type matches the quit-after setting; for PeerDisconnect
  it ends right after the mark that follows that message. A finished session
  never acts again, whatever other sessions do.
- On both paths, registration maps `our_key` to the session address and the advertised version,
  and no other key changes.
- The role depends only on whether `their_key` is in the store. Two AdvertiseResponses with
  different content, including a wrong nonce, lead to the same outcome: the response is never
  checked against the nonce.
- The responder's PeerDisconnect carries its own port and is sent before its address is marked.
  Releasing an initiator consumes the mark, so a second waiter on that address blocks.
- In every interleaving, a PeerIdentification naming an address comes after a mark of that
  address. That mark comes after the marking session was sent PeerDisconnect at that address.
  It need not be the mark of the session that is named: marks are kept by address only.
- The run where A arrives first and then B arrives ends with A identified and B disconnected,
  and the model gives every message sent, in order.
- The lookup (`get`) and the registration (`put`) are separate calls in the source. So two peers
  that look each other up before either registers both become initiators. Each then blocks in
  the barrier waiting for the other's address. One would expect arrival order to give one
  initiator and one responder. The code does not guarantee it, and the model exhibits the
  interleaving.
- A mark outlives the run that made it. Suppose a responder's initiator has already timed out.
  The responder still marks its address, and nobody consumes that mark. A later peer from the
  same address that registers as responder then lets an awaiting initiator through at once.
  That initiator is sent PeerIdentification before the new peer is sent PeerDisconnect.

## Model

| member | source | states |
|---|---|---|
| `Decimal.IntToString` | integration/src/util/fake_mediator.cpp:82 | the rendering is non-empty and starts with a digit exactly when the number is non-negative |
| `Decimal.IntToStringRoundTrip` | integration/src/util/fake_mediator.cpp:82 | the decimal rendering of any integer parses back to that integer |
| `Decimal.IntToStringInjective` | integration/src/util/fake_mediator.cpp:82 | different versions are rendered as different texts |
| `Messages.DecodeAs` | integration/src/util/fake_mediator.cpp:207 | `decode<T>` yields a message exactly when the text decodes to a message of type T, and then that message |
| `Messages.AbortReason` | integration/src/util/fake_mediator.cpp:80-82 | the abort reason starts with "Required protocol version: " and the rest reads back as the required version |
| `Messages.AbortReasonForVersionOne` | integration/src/util/fake_mediator.cpp:80-82 | against required version 1 the reason is exactly "Required protocol version: 1" |
| `Messages.Challenge` | integration/src/util/fake_mediator.cpp:94-99 | the challenge is an AdvertiseChallenge message |
| `Messages.NonceText` | integration/src/util/fake_mediator.cpp:94-99 | the encrypted plaintext is the text "1337" |
| `Handshake.Lookup` | integration/src/util/fake_mediator.cpp:110-111 | `get` finds a record exactly when the key is stored, and it is the stored record |
| `Handshake.ReceiveAdvertise` | integration/src/util/fake_mediator.cpp:76-101 | receiving Advertise leaves the store and disconnect set alone, appends to the sent log only the message it sends, logs the raw text only when it decodes, and a sent message of the quit type ends the run |
| `Handshake.ReceiveResponse` | integration/src/util/fake_mediator.cpp:106-112 | receiving AdvertiseResponse sends nothing and changes only the received log; the resolved role is Initiator exactly when their_key is not stored |
| `Handshake.Then` | integration/src/util/fake_mediator.cpp:12-18 | the quit hook (`QuitsAfter`: the message's type equals the configured one) ends the run with Quit(t) when t is the configured type, and otherwise leaves the next phase as it was |
| `Handshake.Register` | integration/src/util/fake_mediator.cpp:112-150 | registration maps our_key to (session address, advertised version) and leaves every other key as it was, sends nothing, and leaves an initiator awaiting its peer and a responder registered |
| `Handshake.Disconnect` | integration/src/util/fake_mediator.cpp:159-162 | a registered responder is sent PeerDisconnect with its own port, which is appended to the sent log; store and disconnect set unchanged |
| `Handshake.Awaited` | integration/src/util/fake_mediator.cpp:121-128 | the await's outcome changes no state and sends nothing; the run ends exactly when the await timed out |
| `Handshake.Release` | integration/src/util/fake_mediator.cpp:133-143 | once the peer's address is marked, the mark is removed (and only it) and PeerIdentification with the peer's version, ip and port is sent |
| `Handshake.Mark` | integration/src/util/fake_mediator.cpp:163-165 | the responder's address is added to the disconnect set, nothing else there changes, nothing is sent and the run ends |
| `Handshake.Step` | integration/src/util/fake_mediator.cpp:72-169 | every handler step appends to the sent log exactly the message it sent and at most one raw text to the received log, keeping the earlier entries |
| `Handshake.LowVersionIsAborted` | integration/src/util/fake_mediator.cpp:79-89 | a version below the required one gets exactly one message, AdvertiseAbort with the required-version reason; store and disconnect set unchanged; the run ends |
| `Handshake.AcceptedVersionIsChallenged` | integration/src/util/fake_mediator.cpp:94-101 | an accepted version is first sent AdvertiseChallenge carrying encrypt(our_key, "1337") |
| `Handshake.QuitHookEndsRun` | integration/src/util/fake_mediator.cpp:12-18 | the run ends by the hook only for the configured type, and always ends right after a received or sent message of that type (after the mark, for PeerDisconnect) |
| `Handshake.AwaitAndReadsBlock` | integration/src/util/fake_mediator.cpp:121-123 | an `await` step goes on only with an outcome (record or timeout); socket reads go on only with a received text |
| `Handshake.BarrierWaitBlocks` | integration/src/util/fake_mediator.cpp:184-190 | a handler in the barrier wait can go on exactly when its peer's address is in the completed-disconnects set |
| `Handshake.OnlyTheBarrierBlocks` | integration/src/util/fake_mediator.cpp:184-190 | whether a handler can go on depends on the shared state only through the completed-disconnects set |
| `Handshake.FinishedRunIsInert` | integration/src/util/fake_mediator.cpp:12-18 | a finished run accepts no further step |
| `Handshake.ResponseIsNotVerified` | integration/src/util/fake_mediator.cpp:106-112 | two AdvertiseResponses with any contents give the same phase and the same state apart from the logged text |
| `Handshake.ResponderSendsBeforeMarking` | integration/src/util/fake_mediator.cpp:147-163 | the responder is sent PeerDisconnect with its port while the disconnect set is unchanged; the next step adds its address |
| `Handshake.InitiatorOutcomes` | integration/src/util/fake_mediator.cpp:121-142 | a timed-out await sends nothing and leaves everything unchanged; a found peer is removed from the disconnect set and named in the last message sent |
| `Handshake.ReleaseConsumesRecord` | integration/src/util/fake_mediator.cpp:184-190 | after one waiter is released for an address, another waiter on that address is blocked |
| `Handshake.MarkIsIdempotent` | integration/src/util/fake_mediator.cpp:176-182 | marking an address twice leaves the same state as marking it once |
| `Mediator.FakeMediator.constructor` | integration/src/util/fake_mediator.cpp:24-28 | a new mediator is not running, has no quit setting, an empty store and disconnect set, and empty logs |
| `Mediator.FakeMediator.Run` | integration/src/util/fake_mediator.cpp:41-45 | requires not running; afterwards running |
| `Mediator.FakeMediator.Stop` | integration/src/util/fake_mediator.cpp:47-55 | requires running; afterwards not running |
| `Mediator.FakeMediator.QuitAfter` | integration/src/util/fake_mediator.cpp:57-59 | sets the quit-after type |
| `Mediator.FakeMediator.Get` | integration/src/util/fake_mediator.cpp:110-111 | lookup in the store field |
| `Mediator.FakeMediator.Put` | integration/src/util/fake_mediator.cpp:116-119 | insert or overwrite one key of the store field |
| `Mediator.FakeMediator.AddToDisconnects` | integration/src/util/fake_mediator.cpp:176-182 | set insert of the address |
| `Mediator.FakeMediator.WaitForDisconnect` | integration/src/util/fake_mediator.cpp:184-190 | requires the address marked; removes exactly that address |
| `Mediator.FakeMediator.SendAndLog` | integration/src/util/fake_mediator.cpp:192-202 | appends the message's encoding to the sent log, keeping earlier entries |
| `Mediator.FakeMediator.ReceiveAndLog` | integration/src/util/fake_mediator.cpp:204-215 | returns the decoded message and appends the raw text to the received log exactly when it decodes |
| `Mediator.FakeMediator.HandleAdvertise` | integration/src/util/fake_mediator.cpp:72-101 | the object's new state and the next phase are those of `ReceiveAdvertise` |
| `Mediator.FakeMediator.HandleResponse` | integration/src/util/fake_mediator.cpp:103-112 | the object's new state and the next phase are those of `ReceiveResponse` |
| `Mediator.FakeMediator.RegisterSession` | integration/src/util/fake_mediator.cpp:112-150 | the object's new state and the next phase are those of `Register` |
| `Mediator.FakeMediator.SendDisconnect` | integration/src/util/fake_mediator.cpp:159-162 | the object's new state and the next phase are those of `Disconnect` |
| `Mediator.FakeMediator.ResumeAfterAwait` | integration/src/util/fake_mediator.cpp:121-128 | the next phase is the one `Awaited` gives; nothing changes |
| `Mediator.FakeMediator.IdentifyPeer` | integration/src/util/fake_mediator.cpp:130-143 | requires the peer's address marked; new state and phase are those of `Release` |
| `Mediator.FakeMediator.MarkComplete` | integration/src/util/fake_mediator.cpp:163-165 | the object's new state and the next phase are those of `Mark` |
| `Mediator.FakeMediator.Advance` | integration/src/util/fake_mediator.cpp:72-169 | whichever step the session is at, the object's new state and phase are those of `Step` |
| `Rendezvous.Next` | integration/src/util/fake_mediator.cpp:61-70 | an event of one handler never shortens the history and never drops a session |
| `Rendezvous.Exec` | integration/src/util/fake_mediator.cpp:61-70 | a run of events only extends the history and the set of sessions |
| `Rendezvous.InitialInv` | integration/src/util/fake_mediator.cpp:24-28 | a fresh mediator satisfies the barrier invariant |
| `Rendezvous.NextKeepsInv` | integration/src/util/fake_mediator.cpp:130-165 | every handler step keeps the invariant: the history is ordered, every marked address was marked in the history, every responder between PeerDisconnect and its mark has been sent PeerDisconnect |
| `Rendezvous.ExecKeepsInv` | integration/src/util/fake_mediator.cpp:130-165 | every interleaving keeps the invariant |
| `Rendezvous.IdentificationFollowsDisconnect` | integration/src/util/fake_mediator.cpp:130-165 | in every run, a PeerIdentification naming an address follows a mark of that address, and that mark follows the marking session's PeerDisconnect at that address |
| `Rendezvous.FinishedStaysQuiet` | integration/src/util/fake_mediator.cpp:12-18 | after a session has finished, no later events change it or add anything of it to the history |
| `Rendezvous.AcceptEvent` | integration/src/util/fake_mediator.cpp:61-68 | an accepted connection starts a new session awaiting Advertise |
| `Rendezvous.AdvertiseEvent` | integration/src/util/fake_mediator.cpp:76-101 | an accepted Advertise moves the session on and records the challenge it was sent |
| `Rendezvous.ResponseEvent` | integration/src/util/fake_mediator.cpp:106-112 | the response resolves the role by the store alone and sends nothing |
| `Rendezvous.RegisterEvent` | integration/src/util/fake_mediator.cpp:112-150 | registration updates the store on both paths and adds nothing to the history; the session awaits its peer or is registered as responder |
| `Rendezvous.DisconnectEvent` | integration/src/util/fake_mediator.cpp:159-162 | a registered responder's PeerDisconnect with its own port enters the history; store and barrier unchanged |
| `Rendezvous.AwaitEvent` | integration/src/util/fake_mediator.cpp:121-128 | an await finds the stored record of their_key or times out |
| `Rendezvous.ReleaseEvent` | integration/src/util/fake_mediator.cpp:133-143 | a released initiator consumes the mark and its PeerIdentification enters the history |
| `Rendezvous.MarkEvent` | integration/src/util/fake_mediator.cpp:163-165 | a responder's mark enters the set and the history |
| `Rendezvous.SequentialRendezvous` | integration/src/util/fake_mediator.cpp:72-169 | A before B: A identified, B disconnected, the exact sequence of messages and marks, empty barrier at the end |
| `Rendezvous.RacingLookupsMakeTwoInitiators` | integration/src/util/fake_mediator.cpp:110-150 | two peers that look each other up before either registers both become initiators and both block in the barrier |
| `Rendezvous.StaleMarkReleasesEarly` | integration/src/util/fake_mediator.cpp:121-165 | a mark left by a responder whose initiator timed out releases a later initiator at once: it is sent PeerIdentification before the new peer at that address is sent PeerDisconnect, with the exact history |
| `Rendezvous.OldPeerIsTurnedAway` | integration/src/util/fake_mediator.cpp:79-89 | a version-0 peer against required version 1 is sent only AdvertiseAbort("Required protocol version: 1") and its run ends |

## Left out

- Handshake.ReceiveAdvertise: the receive of Advertise (fake_mediator.cpp:76-77) and the AdvertiseAbort or AdvertiseChallenge send (83 or 100) are one step. Another handler can run between them in the source. The receive only appends to the received log, which no handler reads, so the source's run can be replayed with the receive delayed until the send. Every store lookup, every sent message and its order, and every barrier state stay reachable. Only the order of entries in the received log can differ: for example, the model cannot reach a received log holding A's Advertise before B's while B's challenge is sent before A's.
- Handshake.ReceiveResponse: the receive of AdvertiseResponse (fake_mediator.cpp:106-108) and the `get` (110-111) are one step. Another handler can run between them in the source. The receive only appends to the received log, which no handler reads, so the source's run can be replayed with the receive delayed until the `get`. Every store lookup, every sent message and its order, and every barrier state stay reachable. Only the order of entries in the received log can differ.
- Handshake.Release: the barrier's `erase` (fake_mediator.cpp:189) and the PeerIdentification send (142) are one step. Moving the `erase` down to the send keeps every other step in place, unless another responder marks the same address between the two. Every other run is reachable with the same sent messages, in the same order. In that one case the model puts this PeerIdentification before the new mark and before every step that depends on it, such as a second waiter's release.
- Threads, the handler pool and the joins in `run`, `stop` and `_run` (fake_mediator.cpp:41-70) are not modelled as such. `Rendezvous` models their effect: handler steps interleaved in any order, each step atomic.
- Mediator.FakeMediator.Run and Mediator.FakeMediator.Stop: only the `_is_running` flag; starting the accept thread, closing the listening socket and joining threads are left out.
- Condition variables, `_shutdown_cv` notifications and `await_shutdown` (fake_mediator.cpp:16, 168, 171-174) are wake-up mechanics and are left out. Blocking is modelled by a step being enabled only when its wait condition holds.
- The 2000 ms timeout of `await` is left out. Only its outcome is modelled: the stored record, or a timeout.
- RSA key parsing and encryption, and JSON encode/decode, are foreign library calls. They are uninterpreted functions in `Codec`. The property that the challenge decrypts to the nonce needs the private key and is not stated.
- Messages.DecodeAs: what `decode<T>` does with a text that is not a message, or is a message of another type, is not part of this model. The model ends only that session, quietly (ProtocolViolation), and does not log the text, because the text is logged only after decoding. If `decode<T>` throws there, the exception escapes the handler's thread and the whole process ends; the model does not capture that.
- The value of `kVersion` is not part of this model, so the required version is a constructor parameter. The initial value of `_quit_after` is not part of this model either; the model starts with no quit type.
- Socket I/O, the session socket's address lookup, and logging (`LOG`) are left out. Each step takes the received text and the session address as inputs.
- The destructor (fake_mediator.cpp:35-39), the second constructor and the mediator description (30-33, 217-219) are left out; the first is thread cleanup, the others carry no logic.
- The `get_received_messages` and `get_sent_messages` accessors (221-227) are the public fields `receivedMessages` and `sentMessages`.
- The unsynchronised `push_back` on the two logs from several threads is left out: each step's log append is atomic.
- src/local_listening_socket.cpp (POSIX socket plumbing) and include/p2psc/socket/socket.h (the transport interface) are not part of this model.
