/**
  The per-connection handshake of the fake mediator as pure transitions over the
  mediator's shared state. The handler's straight-line body is cut where it blocks
  (receiving from its socket, awaiting the peer's registration, waiting on the
  disconnect barrier), between its lookup and its registration in the identifier
  store, between a responder's registration and its PeerDisconnect, because the
  registration can wake an initiator that then runs first, and between that
  PeerDisconnect and the responder's mark. Each cut is one `Phase`;
  each function below takes a session from one phase to the next and says what it
  does to the shared state.
*/
module Handshake {
  import opened Wrappers
  import opened Decimal
  import opened Messages

  datatype Role = Initiator | Responder

  /** How a handler run ends. */
  datatype Ending =
    | ProtocolViolation      // a received text did not decode as the expected message
    | UnsupportedVersion     // the peer's version was too low; AdvertiseAbort was sent
    | PeerNeverArrived       // the await on the identifier store timed out
    | Quit(after: MessageType) // the quit-after hook matched the message just handled
    | Identified             // initiator: PeerIdentification was sent
    | Disconnected           // responder: PeerDisconnect was sent and the barrier marked

  datatype Phase =
    | ExpectAdvertise
    | ExpectResponse(ad: Advertisement)
    | Resolved(ad: Advertisement, role: Role)   // looked up, not yet registered
    | AwaitingPeer(ad: Advertisement)           // registered, blocked in await
    | AwaitingDisconnect(peer: PeerIdentifier)  // blocked in the disconnect barrier
    | Registered                                // responder: registered, PeerDisconnect not yet sent
    | Disconnecting                             // responder: PeerDisconnect sent, barrier not yet marked
    | Finished(ending: Ending)

  /** One connection's handler: the address of its socket and where it is in the handshake. */
  datatype Session = Session(address: SocketAddress, phase: Phase)

  /**
    The mediator state handlers share: the identifier store, the completed-disconnects
    set, and the logs of every encoded message sent and every raw message received.
  */
  datatype Shared = Shared(
    store: map<Key, PeerIdentifier>,
    disconnects: set<SocketAddress>,
    sent: seq<string>,
    received: seq<string>)

  /** The mediator's fixed settings at the time a step runs. */
  datatype Config = Config(protocolVersion: int, codec: Codec, quitAfter: Option<MessageType>)

  /** The result of one step: the new shared state, the session's next phase, the message it sent if any. */
  datatype Transition = Transition(shared: Shared, phase: Phase, out: Option<Message>)

  /** What drives a step: a text arriving on the socket, the await's outcome, or nothing. */
  datatype Input =
    | Incoming(raw: string)
    | AwaitOutcome(awaited: Option<PeerIdentifier>)
    | Continue

  predicate QuitsAfter(cfg: Config, t: MessageType) {
    cfg.quitAfter == Some(t)
  }

  /** The quit-after hook: end the run if `t` is the configured type, otherwise go on to `next`. */
  function Then(cfg: Config, t: MessageType, next: Phase): (p: Phase)
    ensures QuitsAfter(cfg, t) ==> p == Finished(Quit(t))
    ensures !QuitsAfter(cfg, t) ==> p == next
  {
    if QuitsAfter(cfg, t) then Finished(Quit(t)) else next
  }

  /** The encoded form of the message a step sent, as a log suffix. */
  function Logged(codec: Codec, out: Option<Message>): seq<string> {
    if out.Some? then [codec.encode(out.value)] else []
  }

  function Emit(cfg: Config, sh: Shared, m: Message): Shared {
    sh.(sent := sh.sent + [cfg.codec.encode(m)])
  }

  function Record(sh: Shared, raw: string): Shared {
    sh.(received := sh.received + [raw])
  }

  function Lookup(store: map<Key, PeerIdentifier>, key: Key): (r: Option<PeerIdentifier>)
    ensures r.Some? <==> key in store
    ensures r.Some? ==> store[key] == r.value
  {
    if key in store then Some(store[key]) else None
  }

  /**
    Receive Advertise, then check the version: too low and AdvertiseAbort is sent and
    the run ends; otherwise the challenge is sent. The quit hook is consulted after
    the receipt and after each send.
  */
  function ReceiveAdvertise(cfg: Config, sh: Shared, raw: string): (t: Transition)
    ensures t.shared.store == sh.store && t.shared.disconnects == sh.disconnects
    ensures t.shared.sent == sh.sent + Logged(cfg.codec, t.out)
    ensures t.shared.received == sh.received + (if DecodeAs(cfg.codec, raw, TypeAdvertise).Some? then [raw] else [])
    ensures t.phase.Finished? || t.phase.ExpectResponse?
    ensures t.out.Some? && QuitsAfter(cfg, t.out.value.Type()) ==> t.phase == Finished(Quit(t.out.value.Type()))
  {
    match DecodeAs(cfg.codec, raw, TypeAdvertise)
    case None => Transition(sh, Finished(ProtocolViolation), None)
    case Some(m) =>
      var logged := Record(sh, raw);
      if QuitsAfter(cfg, TypeAdvertise) then
        Transition(logged, Finished(Quit(TypeAdvertise)), None)
      else if m.ad.version < cfg.protocolVersion then
        var abort := AdvertiseAbort(AbortReason(cfg.protocolVersion));
        Transition(Emit(cfg, logged, abort), Then(cfg, TypeAdvertiseAbort, Finished(UnsupportedVersion)), Some(abort))
      else
        var challenge := Challenge(cfg.codec, m.ad.ourKey);
        Transition(Emit(cfg, logged, challenge), Then(cfg, TypeAdvertiseChallenge, ExpectResponse(m.ad)), Some(challenge))
  }

  /**
    Receive AdvertiseResponse and look up the wanted key in the store. The response's
    content is logged but never compared with the nonce.
  */
  function ReceiveResponse(cfg: Config, sh: Shared, ad: Advertisement, raw: string): (t: Transition)
    ensures t.out.None?
    ensures t.shared.store == sh.store && t.shared.disconnects == sh.disconnects && t.shared.sent == sh.sent
    ensures t.shared.received == sh.received + (if DecodeAs(cfg.codec, raw, TypeAdvertiseResponse).Some? then [raw] else [])
    ensures t.phase.Finished? || t.phase.Resolved?
    ensures t.phase.Resolved? ==> t.phase.ad == ad && (t.phase.role == Initiator <==> ad.theirKey !in sh.store)
  {
    match DecodeAs(cfg.codec, raw, TypeAdvertiseResponse)
    case None => Transition(sh, Finished(ProtocolViolation), None)
    case Some(_) =>
      var role := if Lookup(sh.store, ad.theirKey).None? then Initiator else Responder;
      Transition(Record(sh, raw), Then(cfg, TypeAdvertiseResponse, Resolved(ad, role)), None)
  }

  /**
    Register the session under its own key with its address and advertised version;
    an initiator then blocks in await, a responder goes on to send PeerDisconnect.
  */
  function Register(cfg: Config, sh: Shared, address: SocketAddress, ad: Advertisement, role: Role): (t: Transition)
    ensures ad.ourKey in t.shared.store && t.shared.store[ad.ourKey] == PeerIdentifier(address, ad.version)
    ensures forall k :: k != ad.ourKey ==> (k in t.shared.store <==> k in sh.store)
    ensures forall k :: k != ad.ourKey && k in sh.store ==> t.shared.store[k] == sh.store[k]
    ensures t.shared.disconnects == sh.disconnects && t.shared.received == sh.received && t.shared.sent == sh.sent
    ensures t.out.None?
    ensures t.phase == (if role == Initiator then AwaitingPeer(ad) else Registered)
  {
    var registered := sh.(store := sh.store[ad.ourKey := PeerIdentifier(address, ad.version)]);
    match role
    case Initiator => Transition(registered, AwaitingPeer(ad), None)
    case Responder => Transition(registered, Registered, None)
  }

  /** Responder, once registered: send PeerDisconnect carrying its own port. */
  function Disconnect(cfg: Config, sh: Shared, address: SocketAddress): (t: Transition)
    ensures t.out == Some(PeerDisconnect(address.port))
    ensures t.shared.sent == sh.sent + [cfg.codec.encode(PeerDisconnect(address.port))]
    ensures t.shared.store == sh.store && t.shared.disconnects == sh.disconnects && t.shared.received == sh.received
    ensures t.phase == Disconnecting
  {
    var disconnect := PeerDisconnect(address.port);
    Transition(Emit(cfg, sh, disconnect), Disconnecting, Some(disconnect))
  }

  /** The await's outcome: a timeout ends the run, a found peer leads to the disconnect barrier. */
  function Awaited(sh: Shared, awaited: Option<PeerIdentifier>): (t: Transition)
    ensures t.shared == sh && t.out.None?
    ensures t.phase.Finished? <==> awaited.None?
  {
    match awaited
    case None => Transition(sh, Finished(PeerNeverArrived), None)
    case Some(peer) => Transition(sh, AwaitingDisconnect(peer), None)
  }

  /**
    The barrier holds the awaited peer's address: consume that completion record, then
    send the initiator the peer's version, ip and port.
  */
  function Release(cfg: Config, sh: Shared, peer: PeerIdentifier): (t: Transition)
    requires peer.address in sh.disconnects
    ensures t.shared.disconnects + {peer.address} == sh.disconnects && peer.address !in t.shared.disconnects
    ensures t.shared.store == sh.store && t.shared.received == sh.received
    ensures t.out == Some(PeerIdentification(peer.version, peer.address.ip, peer.address.port))
    ensures t.shared.sent == sh.sent + Logged(cfg.codec, t.out)
    ensures t.phase.Finished?
  {
    var consumed := sh.(disconnects := sh.disconnects - {peer.address});
    var identification := PeerIdentification(peer.version, peer.address.ip, peer.address.port);
    Transition(Emit(cfg, consumed, identification), Then(cfg, TypePeerIdentification, Finished(Identified)), Some(identification))
  }

  /** Responder, after PeerDisconnect was sent: mark its own address complete. */
  function Mark(cfg: Config, sh: Shared, address: SocketAddress): (t: Transition)
    ensures address in t.shared.disconnects && t.shared.disconnects - {address} == sh.disconnects - {address}
    ensures t.shared.store == sh.store && t.shared.sent == sh.sent && t.shared.received == sh.received
    ensures t.out.None? && t.phase.Finished?
  {
    Transition(sh.(disconnects := sh.disconnects + {address}),
               Then(cfg, TypePeerDisconnect, Finished(Disconnected)), None)
  }

  /** Whether `input` can drive `s` now. A finished session takes no input at all. */
  predicate Enabled(sh: Shared, s: Session, input: Input) {
    match s.phase
    case ExpectAdvertise => input.Incoming?
    case ExpectResponse(_) => input.Incoming?
    case Resolved(_, _) => input.Continue?
    case AwaitingPeer(_) => input.AwaitOutcome?
    case AwaitingDisconnect(peer) => input.Continue? && peer.address in sh.disconnects
    case Registered => input.Continue?
    case Disconnecting => input.Continue?
    case Finished(_) => false
  }

  /** One step of one handler. */
  function Step(cfg: Config, sh: Shared, s: Session, input: Input): (t: Transition)
    requires Enabled(sh, s, input)
    ensures t.shared.sent == sh.sent + Logged(cfg.codec, t.out)
    ensures |sh.received| <= |t.shared.received| <= |sh.received| + 1 && t.shared.received[..|sh.received|] == sh.received
  {
    match s.phase
    case ExpectAdvertise => ReceiveAdvertise(cfg, sh, input.raw)
    case ExpectResponse(ad) => ReceiveResponse(cfg, sh, ad, input.raw)
    case Resolved(ad, role) => Register(cfg, sh, s.address, ad, role)
    case AwaitingPeer(_) => Awaited(sh, input.awaited)
    case AwaitingDisconnect(peer) => Release(cfg, sh, peer)
    case Registered => Disconnect(cfg, sh, s.address)
    case Disconnecting => Mark(cfg, sh, s.address)
  }

  // ---------------------------------------------------------------------------
  // Properties of the handshake
  // ---------------------------------------------------------------------------

  /**
    A peer advertising a version below the required one gets exactly one message, an
    AdvertiseAbort whose reason names the required version, and its run ends; the store
    and the disconnect set are untouched.
  */
  lemma LowVersionIsAborted(cfg: Config, sh: Shared, raw: string, ad: Advertisement)
    requires cfg.codec.decode(raw) == Some(Advertise(ad))
    requires ad.version < cfg.protocolVersion
    requires !QuitsAfter(cfg, TypeAdvertise)
    ensures var t := ReceiveAdvertise(cfg, sh, raw);
      && t.out == Some(AdvertiseAbort(AbortReason(cfg.protocolVersion)))
      && t.shared.sent == sh.sent + [cfg.codec.encode(AdvertiseAbort(AbortReason(cfg.protocolVersion)))]
      && t.shared.store == sh.store && t.shared.disconnects == sh.disconnects
      && t.phase.Finished?
      && t.phase.ending in {UnsupportedVersion, Quit(TypeAdvertiseAbort)}
  {
  }

  /**
    A peer whose version is accepted is first sent an AdvertiseChallenge carrying the
    text of the nonce 1337 encrypted under the key it advertised.
  */
  lemma AcceptedVersionIsChallenged(cfg: Config, sh: Shared, raw: string, ad: Advertisement)
    requires cfg.codec.decode(raw) == Some(Advertise(ad))
    requires ad.version >= cfg.protocolVersion
    requires !QuitsAfter(cfg, TypeAdvertise)
    ensures var t := ReceiveAdvertise(cfg, sh, raw);
      && t.out == Some(AdvertiseChallenge(cfg.codec.encrypt(ad.ourKey, "1337")))
      && t.shared.sent == sh.sent + [cfg.codec.encode(AdvertiseChallenge(cfg.codec.encrypt(ad.ourKey, "1337")))]
      && (t.phase == ExpectResponse(ad) || t.phase == Finished(Quit(TypeAdvertiseChallenge)))
  {
    NonceText();
  }

  /**
    The quit-after hook: when the message a step received or sent has the configured
    type, the run ends there (a responder's PeerDisconnect ends it once the barrier is
    marked), and a run ends by the hook only for the configured type.
  */
  lemma QuitHookEndsRun(cfg: Config, sh: Shared, s: Session, input: Input)
    requires Enabled(sh, s, input)
    ensures var t := Step(cfg, sh, s, input);
      && (t.phase.Finished? && t.phase.ending.Quit? ==> cfg.quitAfter == Some(t.phase.ending.after))
      && (t.out.Some? && QuitsAfter(cfg, t.out.value.Type()) && !s.phase.Registered? ==>
            t.phase == Finished(Quit(t.out.value.Type())))
      && (s.phase.Disconnecting? && QuitsAfter(cfg, TypePeerDisconnect) ==> t.phase == Finished(Quit(TypePeerDisconnect)))
      && (s.phase.ExpectAdvertise? && DecodeAs(cfg.codec, input.raw, TypeAdvertise).Some? && QuitsAfter(cfg, TypeAdvertise) ==>
            t.phase == Finished(Quit(TypeAdvertise)) && t.out.None?)
      && (s.phase.ExpectResponse? && DecodeAs(cfg.codec, input.raw, TypeAdvertiseResponse).Some? && QuitsAfter(cfg, TypeAdvertiseResponse) ==>
            t.phase == Finished(Quit(TypeAdvertiseResponse)) && t.out.None?)
  {
  }

  /** `_wait_for_disconnect` blocks until the peer's address is in the completed-disconnects set. */
  lemma BarrierWaitBlocks(sh: Shared, s: Session, input: Input)
    requires s.phase.AwaitingDisconnect?
    ensures Enabled(sh, s, input) <==> input == Continue && s.phase.peer.address in sh.disconnects
  {
  }

  /** An `await` goes on only with its outcome (the record or a timeout); a socket read only with a received text. */
  lemma AwaitAndReadsBlock(sh: Shared, s: Session, input: Input)
    ensures s.phase.AwaitingPeer? ==> (Enabled(sh, s, input) <==> input.AwaitOutcome?)
    ensures s.phase.ExpectAdvertise? || s.phase.ExpectResponse? ==> (Enabled(sh, s, input) <==> input.Incoming?)
  {
  }

  /** Only the barrier blocks on shared state: the store and the logs never hold a handler back. */
  lemma OnlyTheBarrierBlocks(sh1: Shared, sh2: Shared, s: Session, input: Input)
    requires sh1.disconnects == sh2.disconnects
    ensures Enabled(sh1, s, input) == Enabled(sh2, s, input)
  {
  }

  /** A finished run takes no further step, so it sends nothing more and changes no shared state. */
  lemma FinishedRunIsInert(sh: Shared, address: SocketAddress, ending: Ending, input: Input)
    ensures !Enabled(sh, Session(address, Finished(ending)), input)
  {
  }

  /**
    The role depends only on whether the wanted key is in the store: two responses that
    both decode as AdvertiseResponse, whatever they carry (the right nonce or not), lead to
    the same phase and the same state apart from the received log.
  */
  lemma ResponseIsNotVerified(cfg: Config, sh: Shared, ad: Advertisement, raw1: string, raw2: string, n1: string, n2: string)
    requires cfg.codec.decode(raw1) == Some(AdvertiseResponse(n1))
    requires cfg.codec.decode(raw2) == Some(AdvertiseResponse(n2))
    ensures var t1, t2 := ReceiveResponse(cfg, sh, ad, raw1), ReceiveResponse(cfg, sh, ad, raw2);
      && t1.phase == t2.phase
      && t1.shared == t2.shared.(received := sh.received + [raw1])
  {
  }

  /**
    Responder path: registration sends nothing; then PeerDisconnect carrying the session's
    own port is sent, with the disconnect set still as it was; only the following step
    puts the session's address in it.
  */
  lemma ResponderSendsBeforeMarking(cfg: Config, sh: Shared, address: SocketAddress, ad: Advertisement)
    ensures var t0 := Register(cfg, sh, address, ad, Responder);
      var t1 := Disconnect(cfg, t0.shared, address);
      var t2 := Mark(cfg, t1.shared, address);
      && t0.out.None? && t0.shared.sent == sh.sent && t0.phase == Registered
      && t1.out == Some(PeerDisconnect(address.port))
      && t1.shared.disconnects == sh.disconnects
      && t1.shared.sent == sh.sent + [cfg.codec.encode(PeerDisconnect(address.port))]
      && t2.shared.disconnects == sh.disconnects + {address}
      && t2.shared.sent == t1.shared.sent
  {
  }

  /**
    Initiator path: a timed-out await sends nothing and leaves the barrier alone; a found
    peer, once the barrier releases it, has its address removed from the disconnect set
    and is named in the last message sent.
  */
  lemma InitiatorOutcomes(cfg: Config, sh: Shared, awaited: Option<PeerIdentifier>)
    ensures awaited.None? ==> Awaited(sh, awaited) == Transition(sh, Finished(PeerNeverArrived), None)
    ensures awaited.Some? && awaited.value.address in sh.disconnects ==>
      var t := Release(cfg, Awaited(sh, awaited).shared, Awaited(sh, awaited).phase.peer);
      var p := awaited.value;
      && t.shared.disconnects == sh.disconnects - {p.address}
      && t.shared.sent[|t.shared.sent| - 1] == cfg.codec.encode(PeerIdentification(p.version, p.address.ip, p.address.port))
  {
  }

  /**
    The barrier consumes the record it matched: after one initiator is released for an
    address, another initiator waiting on the same address is blocked until a new mark.
  */
  lemma ReleaseConsumesRecord(cfg: Config, sh: Shared, peer: PeerIdentifier, other: Session)
    requires peer.address in sh.disconnects
    requires other.phase.AwaitingDisconnect? && other.phase.peer.address == peer.address
    ensures !Enabled(Release(cfg, sh, peer).shared, other, Continue)
  {
  }

  /** Marking an address that is already marked changes nothing. */
  lemma MarkIsIdempotent(cfg: Config, sh: Shared, address: SocketAddress)
    ensures Mark(cfg, Mark(cfg, sh, address).shared, address).shared == Mark(cfg, sh, address).shared
  {
  }
}
