/**
  The fake mediator as an object: the identifier store, the completed-disconnects set
  and the two message logs are fields its methods update in place. Each handler step
  is a method proved to do exactly what the corresponding transition in `Handshake`
  says, so the properties proved there hold of the object.
*/
module Mediator {
  import opened Wrappers
  import opened Messages
  import opened Handshake

  class FakeMediator {
    const protocolVersion: int
    const codec: Codec
    var quitAfter: Option<MessageType>
    var isRunning: bool
    var store: map<Key, PeerIdentifier>
    var completedDisconnects: set<SocketAddress>
    var sentMessages: seq<string>
    var receivedMessages: seq<string>

    /** The settings a handler step reads. */
    function Settings(): Config
      reads this
    {
      Config(protocolVersion, codec, quitAfter)
    }

    /** The state handlers share. */
    function State(): Shared
      reads this
    {
      Shared(store, completedDisconnects, sentMessages, receivedMessages)
    }

    constructor (protocolVersion: int, codec: Codec)
      ensures this.protocolVersion == protocolVersion && this.codec == codec
      ensures !isRunning && quitAfter.None?
      ensures State() == Shared(map[], {}, [], [])
    {
      this.protocolVersion := protocolVersion;
      this.codec := codec;
      quitAfter := None;
      isRunning := false;
      store := map[];
      completedDisconnects := {};
      sentMessages := [];
      receivedMessages := [];
    }

    method Run()
      requires !isRunning
      modifies this`isRunning
      ensures isRunning
    {
      isRunning := true;
    }

    method Stop()
      requires isRunning
      modifies this`isRunning
      ensures !isRunning
    {
      isRunning := false;
    }

    method QuitAfter(t: MessageType)
      modifies this`quitAfter
      ensures quitAfter == Some(t)
    {
      quitAfter := Some(t);
    }

    // --- the identifier store -------------------------------------------------

    /** `get`: the record stored under `key`, if any. */
    function Get(key: Key): (r: Option<PeerIdentifier>)
      reads this
      ensures r.Some? <==> key in store
      ensures r.Some? ==> store[key] == r.value
    {
      Lookup(store, key)
    }

    /** `put`: insert or overwrite the record under `key`; every other key keeps its record. */
    method Put(key: Key, record: PeerIdentifier)
      modifies this`store
      ensures store == old(store)[key := record]
    {
      store := store[key := record];
    }

    // --- the disconnect barrier -----------------------------------------------

    /** Record that the session at `address` has finished its responder duties. */
    method AddToDisconnects(address: SocketAddress)
      modifies this`completedDisconnects
      ensures completedDisconnects == old(completedDisconnects) + {address}
    {
      completedDisconnects := completedDisconnects + {address};
    }

    /** Return once `address` is marked, consuming the mark; every other mark stays. */
    method WaitForDisconnect(address: SocketAddress)
      requires address in completedDisconnects
      modifies this`completedDisconnects
      ensures address !in completedDisconnects
      ensures completedDisconnects + {address} == old(completedDisconnects)
    {
      completedDisconnects := completedDisconnects - {address};
    }

    // --- the message logs -----------------------------------------------------

    /** Send `m` (the socket write is not modelled) and append its encoding to the sent log. */
    method SendAndLog(m: Message)
      modifies this`sentMessages
      ensures sentMessages == old(sentMessages) + [codec.encode(m)]
    {
      sentMessages := sentMessages + [codec.encode(m)];
    }

    /**
      Decode a received text as a message of type `t`; only a text that decodes is
      appended, raw, to the received log.
    */
    method ReceiveAndLog(raw: string, t: MessageType) returns (m: Option<Message>)
      modifies this`receivedMessages
      ensures m == DecodeAs(codec, raw, t)
      ensures receivedMessages == old(receivedMessages) + (if m.Some? then [raw] else [])
    {
      m := DecodeAs(codec, raw, t);
      if m.Some? {
        receivedMessages := receivedMessages + [raw];
      }
    }

    // --- the handler, step by step --------------------------------------------

    method HandleAdvertise(raw: string) returns (next: Phase)
      modifies this`sentMessages, this`receivedMessages
      ensures var t := ReceiveAdvertise(Settings(), old(State()), raw); State() == t.shared && next == t.phase
    {
      var m := ReceiveAndLog(raw, TypeAdvertise);
      if m.None? {
        return Finished(ProtocolViolation);
      }
      if quitAfter == Some(TypeAdvertise) {
        return Finished(Quit(TypeAdvertise));
      }
      var ad := m.value.ad;
      if ad.version < protocolVersion {
        SendAndLog(AdvertiseAbort(AbortReason(protocolVersion)));
        if quitAfter == Some(TypeAdvertiseAbort) {
          return Finished(Quit(TypeAdvertiseAbort));
        }
        return Finished(UnsupportedVersion);
      }
      SendAndLog(Challenge(codec, ad.ourKey));
      if quitAfter == Some(TypeAdvertiseChallenge) {
        return Finished(Quit(TypeAdvertiseChallenge));
      }
      return ExpectResponse(ad);
    }

    method HandleResponse(ad: Advertisement, raw: string) returns (next: Phase)
      modifies this`receivedMessages
      ensures var t := ReceiveResponse(Settings(), old(State()), ad, raw); State() == t.shared && next == t.phase
    {
      var m := ReceiveAndLog(raw, TypeAdvertiseResponse);
      if m.None? {
        return Finished(ProtocolViolation);
      }
      if quitAfter == Some(TypeAdvertiseResponse) {
        return Finished(Quit(TypeAdvertiseResponse));
      }
      var maybePeer := Get(ad.theirKey);
      next := Resolved(ad, if maybePeer.None? then Initiator else Responder);
    }

    method RegisterSession(session: SocketAddress, ad: Advertisement, role: Role) returns (next: Phase)
      modifies this`store
      ensures var t := Register(Settings(), old(State()), session, ad, role); State() == t.shared && next == t.phase
    {
      Put(ad.ourKey, PeerIdentifier(session, ad.version));
      if role == Initiator {
        return AwaitingPeer(ad);
      }
      return Registered;
    }

    method SendDisconnect(session: SocketAddress) returns (next: Phase)
      modifies this`sentMessages
      ensures var t := Disconnect(Settings(), old(State()), session); State() == t.shared && next == t.phase
    {
      SendAndLog(PeerDisconnect(session.port));
      return Disconnecting;
    }

    method ResumeAfterAwait(awaited: Option<PeerIdentifier>) returns (next: Phase)
      ensures next == Awaited(State(), awaited).phase
    {
      if awaited.None? {
        return Finished(PeerNeverArrived);
      }
      return AwaitingDisconnect(awaited.value);
    }

    method IdentifyPeer(peer: PeerIdentifier) returns (next: Phase)
      requires peer.address in completedDisconnects
      modifies this`completedDisconnects, this`sentMessages
      ensures var t := Release(Settings(), old(State()), peer); State() == t.shared && next == t.phase
    {
      WaitForDisconnect(peer.address);
      SendAndLog(PeerIdentification(peer.version, peer.address.ip, peer.address.port));
      if quitAfter == Some(TypePeerIdentification) {
        return Finished(Quit(TypePeerIdentification));
      }
      return Finished(Identified);
    }

    method MarkComplete(session: SocketAddress) returns (next: Phase)
      modifies this`completedDisconnects
      ensures var t := Mark(Settings(), old(State()), session); State() == t.shared && next == t.phase
    {
      AddToDisconnects(session);
      if quitAfter == Some(TypePeerDisconnect) {
        return Finished(Quit(TypePeerDisconnect));
      }
      return Finished(Disconnected);
    }

    /** Run whichever step the session is at; the new state and phase are those of `Step`. */
    method Advance(s: Session, input: Input) returns (next: Phase)
      requires Enabled(State(), s, input)
      modifies this`store, this`completedDisconnects, this`sentMessages, this`receivedMessages
      ensures var t := Step(Settings(), old(State()), s, input); State() == t.shared && next == t.phase
    {
      match s.phase
      case ExpectAdvertise => next := HandleAdvertise(input.raw);
      case ExpectResponse(ad) => next := HandleResponse(ad, input.raw);
      case Resolved(ad, role) => next := RegisterSession(s.address, ad, role);
      case AwaitingPeer(_) => next := ResumeAfterAwait(input.awaited);
      case AwaitingDisconnect(peer) => next := IdentifyPeer(peer);
      case Registered => next := SendDisconnect(s.address);
      case Disconnecting => next := MarkComplete(s.address);
    }
  }
}
