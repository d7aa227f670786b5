/**
  Many handlers at once. Each accepted connection runs its own handler, and the
  handlers meet only through the shared identifier store and disconnect set. A
  `System` holds the shared state, every session's phase, and a history of what the
  handlers did that the ordering guarantee is about: every message sent, and every
  mark of the disconnect barrier. Any interleaving of handler steps is an `Event`
  sequence; an await fires either when its key is in the store (success) or when it
  is not (the timeout elapsed first).

  The guarantee proved here is the one the barrier exists for: every
  PeerIdentification naming an address is preceded by a mark of that address, and
  that mark by the marking session's own PeerDisconnect to the same address. The mark
  need not come from the session that is named: marks are kept by address only, and
  `StaleMarkReleasesEarly` gives a run where an old mark lets an initiator through
  before the new peer at that address has been sent PeerDisconnect.
*/
module Rendezvous {
  import opened Wrappers
  import opened Messages
  import opened Handshake

  type SessionId = nat

  datatype Entry =
    | Sent(id: SessionId, address: SocketAddress, message: Message)
    | Marked(id: SessionId, address: SocketAddress)

  datatype System = System(shared: Shared, sessions: map<SessionId, Session>, history: seq<Entry>)

  datatype Event =
    | Accept(id: SessionId, address: SocketAddress)   // a new connection is handed to a handler
    | Deliver(id: SessionId, raw: string)              // a text arrives on the session's socket
    | Proceed(id: SessionId)                           // the session runs on without input

  function Initial(): System {
    System(Shared(map[], {}, [], []), map[], [])
  }

  /** The input an event gives its session; an await sees the store as it is now. */
  function InputOf(sys: System, ev: Event): Input
    requires !ev.Accept? && ev.id in sys.sessions
  {
    match ev
    case Deliver(_, raw) => Incoming(raw)
    case Proceed(id) =>
      match sys.sessions[id].phase
      case AwaitingPeer(ad) => AwaitOutcome(Lookup(sys.shared.store, ad.theirKey))
      case _ => Continue
  }

  predicate CanHappen(sys: System, ev: Event) {
    match ev
    case Accept(id, _) => id !in sys.sessions
    case _ => ev.id in sys.sessions && Enabled(sys.shared, sys.sessions[ev.id], InputOf(sys, ev))
  }

  /** What a step adds to the history: the message it sent, and the barrier mark it made. */
  function Effects(id: SessionId, s: Session, t: Transition): seq<Entry> {
    (if t.out.Some? then [Sent(id, s.address, t.out.value)] else [])
    + (if s.phase.Disconnecting? then [Marked(id, s.address)] else [])
  }

  function Next(cfg: Config, sys: System, ev: Event): (next: System)
    requires CanHappen(sys, ev)
    ensures |sys.history| <= |next.history| && next.history[..|sys.history|] == sys.history
    ensures sys.sessions.Keys <= next.sessions.Keys
  {
    match ev
    case Accept(id, address) =>
      sys.(sessions := sys.sessions[id := Session(address, ExpectAdvertise)])
    case _ =>
      var s := sys.sessions[ev.id];
      var t := Step(cfg, sys.shared, s, InputOf(sys, ev));
      System(t.shared, sys.sessions[ev.id := Session(s.address, t.phase)], sys.history + Effects(ev.id, s, t))
  }

  /** Run events in order; None when one of them cannot happen at its turn. */
  function Exec(cfg: Config, sys: System, evs: seq<Event>): (r: Option<System>)
    ensures r.Some? ==> |sys.history| <= |r.value.history| && r.value.history[..|sys.history|] == sys.history
    ensures r.Some? ==> sys.sessions.Keys <= r.value.sessions.Keys
    decreases |evs|
  {
    if evs == [] then Some(sys)
    else if CanHappen(sys, evs[0]) then Exec(cfg, Next(cfg, sys, evs[0]), evs[1..])
    else None
  }

  // ---------------------------------------------------------------------------
  // The ordering guarantee
  // ---------------------------------------------------------------------------

  ghost predicate MarkedBefore(h: seq<Entry>, a: SocketAddress, before: int)
    requires before <= |h|
  {
    exists j :: 0 <= j < before && h[j] == Marked(h[j].id, a)
  }

  ghost predicate DisconnectSentBefore(h: seq<Entry>, id: SessionId, a: SocketAddress, before: int)
    requires before <= |h|
  {
    exists j :: 0 <= j < before && h[j] == Sent(id, a, PeerDisconnect(a.port))
  }

  function Named(m: Message): SocketAddress
    requires m.PeerIdentification?
  {
    SocketAddress(m.ip, m.port)
  }

  /**
    Every mark follows the marking session's PeerDisconnect to its own address, and
    every PeerIdentification follows a mark of the address it names.
  */
  ghost predicate Ordered(h: seq<Entry>) {
    && (forall i :: 0 <= i < |h| && h[i].Marked? ==> DisconnectSentBefore(h, h[i].id, h[i].address, i))
    && (forall i :: 0 <= i < |h| && h[i].Sent? && h[i].message.PeerIdentification? ==>
          MarkedBefore(h, Named(h[i].message), i))
  }

  /**
    The invariant: the history is ordered, every address in the disconnect set has been
    marked, and every responder between its PeerDisconnect and its mark has sent it.
  */
  ghost predicate Inv(sys: System) {
    && Ordered(sys.history)
    && (forall a :: a in sys.shared.disconnects ==> MarkedBefore(sys.history, a, |sys.history|))
    && (forall id :: id in sys.sessions && sys.sessions[id].phase.Disconnecting? ==>
          DisconnectSentBefore(sys.history, id, sys.sessions[id].address, |sys.history|))
  }

  lemma InitialInv()
    ensures Inv(Initial())
  {
  }

  /** Appending to a history keeps what was before its old end. */
  lemma Extended(h: seq<Entry>, e: seq<Entry>)
    ensures forall a, b :: 0 <= b <= |h| && MarkedBefore(h, a, b) ==> MarkedBefore(h + e, a, b)
    ensures forall id, a, b :: 0 <= b <= |h| && DisconnectSentBefore(h, id, a, b) ==> DisconnectSentBefore(h + e, id, a, b)
    ensures forall i :: 0 <= i < |h| ==> (h + e)[i] == h[i]
  {
    forall a, b | 0 <= b <= |h| && MarkedBefore(h, a, b) ensures MarkedBefore(h + e, a, b) {
      var j :| 0 <= j < b && h[j] == Marked(h[j].id, a);
      assert (h + e)[j] == h[j];
    }
    forall id, a, b | 0 <= b <= |h| && DisconnectSentBefore(h, id, a, b) ensures DisconnectSentBefore(h + e, id, a, b) {
      var j :| 0 <= j < b && h[j] == Sent(id, a, PeerDisconnect(a.port));
      assert (h + e)[j] == h[j];
    }
  }

  lemma {:induction false} NextKeepsInv(cfg: Config, sys: System, ev: Event)
    requires Inv(sys) && CanHappen(sys, ev)
    ensures Inv(Next(cfg, sys, ev))
  {
    if !ev.Accept? {
      match sys.sessions[ev.id].phase {
        case ExpectAdvertise => AdvertiseKeepsInv(cfg, sys, ev);
        case ExpectResponse(_) => QuietStepKeepsInv(cfg, sys, ev);
        case Resolved(_, _) => QuietStepKeepsInv(cfg, sys, ev);
        case AwaitingPeer(_) => QuietStepKeepsInv(cfg, sys, ev);
        case AwaitingDisconnect(_) => ReleaseKeepsInv(cfg, sys, ev);
        case Registered => DisconnectKeepsInv(cfg, sys, ev);
        case Disconnecting => MarkKeepsInv(cfg, sys, ev);
      }
    }
  }

  /** Receiving Advertise sends at most an abort or a challenge, which the ordering does not constrain. */
  lemma AdvertiseKeepsInv(cfg: Config, sys: System, ev: Event)
    requires Inv(sys) && CanHappen(sys, ev) && !ev.Accept?
    requires sys.sessions[ev.id].phase.ExpectAdvertise?
    ensures Inv(Next(cfg, sys, ev))
  {
    var next, h, s := Next(cfg, sys, ev), sys.history, sys.sessions[ev.id];
    var e := Effects(ev.id, s, Step(cfg, sys.shared, s, InputOf(sys, ev)));
    assert next.history == h + e;
    Extended(h, e);
    assert e == [] || (|e| == 1 && e[0].Sent? && !e[0].message.PeerIdentification?);
  }

  /** Receiving the response, registering and the await outcome send nothing and mark nothing. */
  lemma QuietStepKeepsInv(cfg: Config, sys: System, ev: Event)
    requires Inv(sys) && CanHappen(sys, ev) && !ev.Accept?
    requires || sys.sessions[ev.id].phase.ExpectResponse?
             || sys.sessions[ev.id].phase.Resolved?
             || sys.sessions[ev.id].phase.AwaitingPeer?
    ensures Inv(Next(cfg, sys, ev))
  {
    var next, h, s := Next(cfg, sys, ev), sys.history, sys.sessions[ev.id];
    var e := Effects(ev.id, s, Step(cfg, sys.shared, s, InputOf(sys, ev)));
    assert next.history == h + e;
    Extended(h, e);
    assert e == [];
  }

  /** A responder enters Disconnecting with its PeerDisconnect in the history. */
  lemma DisconnectKeepsInv(cfg: Config, sys: System, ev: Event)
    requires Inv(sys) && CanHappen(sys, ev) && !ev.Accept?
    requires sys.sessions[ev.id].phase.Registered?
    ensures Inv(Next(cfg, sys, ev))
  {
    var next, h, s := Next(cfg, sys, ev), sys.history, sys.sessions[ev.id];
    var e := Effects(ev.id, s, Step(cfg, sys.shared, s, InputOf(sys, ev)));
    assert next.history == h + e;
    Extended(h, e);
    assert e == [Sent(ev.id, s.address, PeerDisconnect(s.address.port))];
    assert next.history[|h|] == Sent(ev.id, s.address, PeerDisconnect(s.address.port));
  }

  /** A released initiator names an address that is in the disconnect set, hence marked before. */
  lemma ReleaseKeepsInv(cfg: Config, sys: System, ev: Event)
    requires Inv(sys) && CanHappen(sys, ev) && !ev.Accept?
    requires sys.sessions[ev.id].phase.AwaitingDisconnect?
    ensures Inv(Next(cfg, sys, ev))
  {
    var next, h, s := Next(cfg, sys, ev), sys.history, sys.sessions[ev.id];
    var e := Effects(ev.id, s, Step(cfg, sys.shared, s, InputOf(sys, ev)));
    assert next.history == h + e;
    Extended(h, e);
    var peer := s.phase.peer;
    assert e == [Sent(ev.id, s.address, PeerIdentification(peer.version, peer.address.ip, peer.address.port))];
    assert Named(e[0].message) == peer.address;
    assert MarkedBefore(h, peer.address, |h|);
  }

  /** A responder marks only after its own PeerDisconnect. */
  lemma MarkKeepsInv(cfg: Config, sys: System, ev: Event)
    requires Inv(sys) && CanHappen(sys, ev) && !ev.Accept?
    requires sys.sessions[ev.id].phase.Disconnecting?
    ensures Inv(Next(cfg, sys, ev))
  {
    var next, s := Next(cfg, sys, ev), sys.sessions[ev.id];
    assert next.history == sys.history + [Marked(ev.id, s.address)];
    assert next.shared.disconnects == sys.shared.disconnects + {s.address};
    assert next.sessions == sys.sessions[ev.id := Session(s.address, next.sessions[ev.id].phase)];
    MarkedStateKeepsInv(sys, next, ev.id, s.address, next.sessions[ev.id].phase);
  }

  lemma MarkedStateKeepsInv(sys: System, next: System, id: SessionId, address: SocketAddress, phase: Phase)
    requires Inv(sys)
    requires id in sys.sessions && sys.sessions[id] == Session(address, Disconnecting)
    requires next.history == sys.history + [Marked(id, address)]
    requires next.shared.disconnects == sys.shared.disconnects + {address}
    requires next.sessions == sys.sessions[id := Session(address, phase)] && !phase.Disconnecting?
    ensures Inv(next)
  {
    var h := sys.history;
    Extended(h, [Marked(id, address)]);
    assert DisconnectSentBefore(h, id, address, |h|);
    assert next.history[|h|] == Marked(id, address);
  }

  lemma {:induction false} ExecKeepsInv(cfg: Config, sys: System, evs: seq<Event>)
    requires Inv(sys)
    ensures Exec(cfg, sys, evs).Some? ==> Inv(Exec(cfg, sys, evs).value)
    decreases |evs|
  {
    if evs != [] && CanHappen(sys, evs[0]) {
      NextKeepsInv(cfg, sys, evs[0]);
      ExecKeepsInv(cfg, Next(cfg, sys, evs[0]), evs[1..]);
    }
  }

  /**
    In every run of the mediator, whatever the interleaving, a PeerIdentification naming
    an address is sent only after some session at that address was sent PeerDisconnect
    and then marked that address complete.
  */
  lemma IdentificationFollowsDisconnect(cfg: Config, evs: seq<Event>, i: nat)
    requires Exec(cfg, Initial(), evs).Some?
    requires var h := Exec(cfg, Initial(), evs).value.history;
      i < |h| && h[i].Sent? && h[i].message.PeerIdentification?
    ensures var h := Exec(cfg, Initial(), evs).value.history;
      var a := Named(h[i].message);
      exists j, k :: 0 <= k < j < i && h[j] == Marked(h[k].id, a) && h[k] == Sent(h[j].id, a, PeerDisconnect(a.port))
  {
    InitialInv();
    ExecKeepsInv(cfg, Initial(), evs);
    var h := Exec(cfg, Initial(), evs).value.history;
    var a := Named(h[i].message);
    var j :| 0 <= j < i && h[j] == Marked(h[j].id, a);
    var k :| 0 <= k < j && h[k] == Sent(h[j].id, a, PeerDisconnect(a.port));
  }

  /**
    The quit-after hook, and every other way a run ends, is final: once a session has
    finished, no interleaving of later events moves it or adds anything of its to the
    history.
  */
  lemma {:induction false} FinishedStaysQuiet(cfg: Config, sys: System, evs: seq<Event>, id: SessionId)
    requires id in sys.sessions && sys.sessions[id].phase.Finished?
    requires Exec(cfg, sys, evs).Some?
    ensures var last := Exec(cfg, sys, evs).value;
      && id in last.sessions && last.sessions[id] == sys.sessions[id]
      && forall i :: |sys.history| <= i < |last.history| ==> last.history[i].id != id
    decreases |evs|
  {
    if evs != [] {
      var next := Next(cfg, sys, evs[0]);
      assert evs[0].id != id;
      assert next.sessions[id] == sys.sessions[id];
      FinishedStaysQuiet(cfg, next, evs[1..], id);
      var last := Exec(cfg, sys, evs).value;
      forall i | |sys.history| <= i < |last.history| ensures last.history[i].id != id {
        if i >= |next.history| {
        } else {
          assert last.history[..|next.history|][i] == next.history[i];
        }
      }
    }
  }

  /** A run that reaches `mid` and then runs `y` is the run of both parts in order. */
  lemma ExecThen(cfg: Config, sys: System, x: seq<Event>, mid: System, y: seq<Event>)
    requires Exec(cfg, sys, x) == Some(mid)
    ensures Exec(cfg, sys, x + y) == Exec(cfg, mid, y)
  {
    ExecAppend(cfg, sys, x, y);
  }

  /** A run of one event that can happen ends where that event leads. */
  lemma ExecOne(cfg: Config, sys: System, ev: Event)
    requires CanHappen(sys, ev)
    ensures Exec(cfg, sys, [ev]) == Some(Next(cfg, sys, ev))
  {
    assert [ev][1..] == [];
  }

  /** A run of two events that can happen in turn ends where the second leads. */
  lemma ExecTwo(cfg: Config, sys: System, e0: Event, e1: Event)
    requires CanHappen(sys, e0) && CanHappen(Next(cfg, sys, e0), e1)
    ensures Exec(cfg, sys, [e0, e1]) == Some(Next(cfg, Next(cfg, sys, e0), e1))
  {
    assert [e0, e1][1..] == [e1];
    ExecOne(cfg, Next(cfg, sys, e0), e1);
  }

  // --- one event of each kind, stated on the whole system ----------------------

  lemma AcceptEvent(cfg: Config, sys: System, id: SessionId, address: SocketAddress)
    requires id !in sys.sessions
    ensures CanHappen(sys, Accept(id, address))
    ensures var n := Next(cfg, sys, Accept(id, address));
      n == sys.(sessions := sys.sessions[id := Session(address, ExpectAdvertise)])
  {
  }

  lemma AdvertiseEvent(cfg: Config, sys: System, id: SessionId, raw: string, ad: Advertisement)
    requires cfg.quitAfter.None?
    requires id in sys.sessions && sys.sessions[id].phase == ExpectAdvertise
    requires cfg.codec.decode(raw) == Some(Advertise(ad)) && ad.version >= cfg.protocolVersion
    ensures CanHappen(sys, Deliver(id, raw))
    ensures var n, address := Next(cfg, sys, Deliver(id, raw)), sys.sessions[id].address;
      && n.sessions == sys.sessions[id := Session(address, ExpectResponse(ad))]
      && n.shared.store == sys.shared.store && n.shared.disconnects == sys.shared.disconnects
      && n.history == sys.history + [Sent(id, address, Challenge(cfg.codec, ad.ourKey))]
  {
  }

  lemma ResponseEvent(cfg: Config, sys: System, id: SessionId, raw: string)
    requires cfg.quitAfter.None?
    requires id in sys.sessions && sys.sessions[id].phase.ExpectResponse?
    requires cfg.codec.decode(raw).Some? && cfg.codec.decode(raw).value.AdvertiseResponse?
    ensures CanHappen(sys, Deliver(id, raw))
    ensures var n, s := Next(cfg, sys, Deliver(id, raw)), sys.sessions[id];
      var role := if s.phase.ad.theirKey in sys.shared.store then Responder else Initiator;
      && n.sessions == sys.sessions[id := Session(s.address, Resolved(s.phase.ad, role))]
      && n.shared.store == sys.shared.store && n.shared.disconnects == sys.shared.disconnects
      && n.history == sys.history
  {
  }

  lemma RegisterEvent(cfg: Config, sys: System, id: SessionId)
    requires id in sys.sessions && sys.sessions[id].phase.Resolved?
    ensures CanHappen(sys, Proceed(id))
    ensures var n, s := Next(cfg, sys, Proceed(id)), sys.sessions[id];
      var ad := s.phase.ad;
      && n.shared.store == sys.shared.store[ad.ourKey := PeerIdentifier(s.address, ad.version)]
      && n.shared.disconnects == sys.shared.disconnects && n.history == sys.history
      && n.sessions == sys.sessions[id := Session(s.address, if s.phase.role == Initiator then AwaitingPeer(ad) else Registered)]
  {
  }

  lemma DisconnectEvent(cfg: Config, sys: System, id: SessionId)
    requires id in sys.sessions && sys.sessions[id].phase.Registered?
    ensures CanHappen(sys, Proceed(id))
    ensures var n, s := Next(cfg, sys, Proceed(id)), sys.sessions[id];
      && n.shared.store == sys.shared.store && n.shared.disconnects == sys.shared.disconnects
      && n.sessions == sys.sessions[id := Session(s.address, Disconnecting)]
      && n.history == sys.history + [Sent(id, s.address, PeerDisconnect(s.address.port))]
  {
  }

  lemma AwaitEvent(cfg: Config, sys: System, id: SessionId)
    requires id in sys.sessions && sys.sessions[id].phase.AwaitingPeer?
    ensures CanHappen(sys, Proceed(id))
    ensures var n, s := Next(cfg, sys, Proceed(id)), sys.sessions[id];
      var key := s.phase.ad.theirKey;
      && n.shared == sys.shared && n.history == sys.history
      && n.sessions == sys.sessions[id := Session(s.address,
           if key in sys.shared.store then AwaitingDisconnect(sys.shared.store[key]) else Finished(PeerNeverArrived))]
  {
  }

  lemma ReleaseEvent(cfg: Config, sys: System, id: SessionId)
    requires cfg.quitAfter.None?
    requires id in sys.sessions && sys.sessions[id].phase.AwaitingDisconnect?
    requires sys.sessions[id].phase.peer.address in sys.shared.disconnects
    ensures CanHappen(sys, Proceed(id))
    ensures var n, s := Next(cfg, sys, Proceed(id)), sys.sessions[id];
      var p := s.phase.peer;
      && n.sessions == sys.sessions[id := Session(s.address, Finished(Identified))]
      && n.shared.store == sys.shared.store && n.shared.disconnects == sys.shared.disconnects - {p.address}
      && n.history == sys.history + [Sent(id, s.address, PeerIdentification(p.version, p.address.ip, p.address.port))]
  {
  }

  lemma MarkEvent(cfg: Config, sys: System, id: SessionId)
    requires cfg.quitAfter.None?
    requires id in sys.sessions && sys.sessions[id].phase.Disconnecting?
    ensures CanHappen(sys, Proceed(id))
    ensures var n, s := Next(cfg, sys, Proceed(id)), sys.sessions[id];
      && n.sessions == sys.sessions[id := Session(s.address, Finished(Disconnected))]
      && n.shared.store == sys.shared.store && n.shared.disconnects == sys.shared.disconnects + {s.address}
      && n.history == sys.history + [Marked(id, s.address)]
  {
  }

  /** Running two event sequences one after the other is running their concatenation. */
  lemma {:induction false} ExecAppend(cfg: Config, sys: System, x: seq<Event>, y: seq<Event>)
    ensures Exec(cfg, sys, x + y) == if Exec(cfg, sys, x).Some? then Exec(cfg, Exec(cfg, sys, x).value, y) else None
    decreases |x|
  {
    if x != [] {
      assert (x + y)[0] == x[0] && (x + y)[1..] == x[1..] + y;
      if CanHappen(sys, x[0]) {
        ExecAppend(cfg, Next(cfg, sys, x[0]), x[1..], y);
      }
    } else {
      assert x + y == y;
    }
  }

  /** A peer is accepted and its Advertise is accepted: it is sent the challenge. */
  lemma ArriveAndAdvertise(cfg: Config, sys: System, id: SessionId, address: SocketAddress, raw: string, ad: Advertisement)
    requires cfg.quitAfter.None? && id !in sys.sessions
    requires cfg.codec.decode(raw) == Some(Advertise(ad)) && ad.version >= cfg.protocolVersion
    ensures var r := Exec(cfg, sys, [Accept(id, address), Deliver(id, raw)]);
      && r.Some?
      && r.value.sessions == sys.sessions[id := Session(address, ExpectResponse(ad))]
      && r.value.shared.store == sys.shared.store && r.value.shared.disconnects == sys.shared.disconnects
      && r.value.history == sys.history + [Sent(id, address, Challenge(cfg.codec, ad.ourKey))]
  {
    AcceptEvent(cfg, sys, id, address);
    AdvertiseEvent(cfg, Next(cfg, sys, Accept(id, address)), id, raw, ad);
    ExecTwo(cfg, sys, Accept(id, address), Deliver(id, raw));
  }

  /** A peer answers the challenge and registers: an initiator if its peer is not stored, else a responder. */
  lemma AnswerAndRegister(cfg: Config, sys: System, id: SessionId, raw: string)
    requires cfg.quitAfter.None?
    requires id in sys.sessions && sys.sessions[id].phase.ExpectResponse?
    requires cfg.codec.decode(raw).Some? && cfg.codec.decode(raw).value.AdvertiseResponse?
    ensures var r, s := Exec(cfg, sys, [Deliver(id, raw), Proceed(id)]), sys.sessions[id];
      var ad := s.phase.ad;
      && r.Some?
      && r.value.shared.store == sys.shared.store[ad.ourKey := PeerIdentifier(s.address, ad.version)]
      && r.value.shared.disconnects == sys.shared.disconnects
      && r.value.history == sys.history
      && r.value.sessions == sys.sessions[id := Session(s.address, if ad.theirKey in sys.shared.store then Registered else AwaitingPeer(ad))]
  {
    ResponseEvent(cfg, sys, id, raw);
    RegisterEvent(cfg, Next(cfg, sys, Deliver(id, raw)), id);
    ExecTwo(cfg, sys, Deliver(id, raw), Proceed(id));
  }

  /** A registered responder sends PeerDisconnect and then marks its own address. */
  lemma DisconnectAndMark(cfg: Config, sys: System, id: SessionId)
    requires cfg.quitAfter.None?
    requires id in sys.sessions && sys.sessions[id].phase.Registered?
    ensures var r, s := Exec(cfg, sys, [Proceed(id), Proceed(id)]), sys.sessions[id];
      && r.Some?
      && r.value.sessions == sys.sessions[id := Session(s.address, Finished(Disconnected))]
      && r.value.shared.store == sys.shared.store && r.value.shared.disconnects == sys.shared.disconnects + {s.address}
      && r.value.history == sys.history + [Sent(id, s.address, PeerDisconnect(s.address.port))] + [Marked(id, s.address)]
  {
    DisconnectEvent(cfg, sys, id);
    MarkEvent(cfg, Next(cfg, sys, Proceed(id)), id);
    ExecTwo(cfg, sys, Proceed(id), Proceed(id));
  }

  /** The events of one peer joining: connect, Advertise, AdvertiseResponse, registration. */
  function JoinEvents(id: SessionId, address: SocketAddress, adv: string, resp: string): (evs: seq<Event>)
    ensures |evs| == 4 && evs[0] == Accept(id, address) && evs[3] == Proceed(id)
  {
    [Accept(id, address), Deliver(id, adv)] + [Deliver(id, resp), Proceed(id)]
  }

  /** A joining peer ends registered: awaiting its peer if that one is not stored yet, else a responder. */
  lemma Join(cfg: Config, sys: System, id: SessionId, address: SocketAddress, adv: string, resp: string, ad: Advertisement)
    requires cfg.quitAfter.None? && id !in sys.sessions
    requires cfg.codec.decode(adv) == Some(Advertise(ad)) && ad.version >= cfg.protocolVersion
    requires cfg.codec.decode(resp).Some? && cfg.codec.decode(resp).value.AdvertiseResponse?
    ensures var r := Exec(cfg, sys, JoinEvents(id, address, adv, resp));
      && r.Some?
      && r.value.sessions == sys.sessions[id := Session(address, if ad.theirKey in sys.shared.store then Registered else AwaitingPeer(ad))]
      && r.value.shared.store == sys.shared.store[ad.ourKey := PeerIdentifier(address, ad.version)]
      && r.value.shared.disconnects == sys.shared.disconnects
      && r.value.history == sys.history + [Sent(id, address, Challenge(cfg.codec, ad.ourKey))]
  {
    var p1, p2 := [Accept(id, address), Deliver(id, adv)], [Deliver(id, resp), Proceed(id)];
    ArriveAndAdvertise(cfg, sys, id, address, adv, ad);
    var s1 := Exec(cfg, sys, p1).value;
    assert s1.sessions[id] == Session(address, ExpectResponse(ad));
    assert s1.shared.store == sys.shared.store;
    AnswerAndRegister(cfg, s1, id, resp);
    ExecThen(cfg, sys, p1, s1, p2);
  }

  /** A peer that finds its peer's record registers as responder, is sent PeerDisconnect and marks its address. */
  lemma RespondAndLeave(cfg: Config, sys: System, id: SessionId, address: SocketAddress, adv: string, resp: string, ad: Advertisement)
    requires cfg.quitAfter.None? && id !in sys.sessions
    requires cfg.codec.decode(adv) == Some(Advertise(ad)) && ad.version >= cfg.protocolVersion
    requires cfg.codec.decode(resp).Some? && cfg.codec.decode(resp).value.AdvertiseResponse?
    requires ad.theirKey in sys.shared.store
    ensures var r := Exec(cfg, sys, JoinEvents(id, address, adv, resp) + [Proceed(id), Proceed(id)]);
      && r.Some?
      && r.value.sessions == sys.sessions[id := Session(address, Finished(Disconnected))]
      && r.value.shared.store == sys.shared.store[ad.ourKey := PeerIdentifier(address, ad.version)]
      && r.value.shared.disconnects == sys.shared.disconnects + {address}
      && r.value.history == sys.history + [Sent(id, address, Challenge(cfg.codec, ad.ourKey))]
                                        + [Sent(id, address, PeerDisconnect(address.port))] + [Marked(id, address)]
  {
    var joined := JoinEvents(id, address, adv, resp);
    Join(cfg, sys, id, address, adv, resp, ad);
    var s1 := Exec(cfg, sys, joined).value;
    assert s1.sessions[id] == Session(address, Registered);
    DisconnectAndMark(cfg, s1, id);
    ExecThen(cfg, sys, joined, s1, [Proceed(id), Proceed(id)]);
  }

  /** Scenario, last part: A's await finds B, the barrier releases it, and A learns B's address. */
  lemma ScenarioInitiatorIdentified(cfg: Config, sys: System, a: SocketAddress, b: SocketAddress)
    requires cfg.quitAfter.None?
    requires 0 in sys.sessions && sys.sessions[0] == Session(a, AwaitingPeer(Advertisement(1, "ka", "kb")))
    requires "kb" in sys.shared.store && sys.shared.store["kb"] == PeerIdentifier(b, 1)
    requires sys.shared.disconnects == {b}
    ensures var r := Exec(cfg, sys, [Proceed(0), Proceed(0)]);
      && r.Some?
      && r.value.sessions == sys.sessions[0 := Session(a, Finished(Identified))]
      && r.value.shared.disconnects == {}
      && r.value.history == sys.history + [Sent(0, a, PeerIdentification(1, b.ip, b.port))]
  {
    AwaitEvent(cfg, sys, 0);
    var s1 := Next(cfg, sys, Proceed(0));
    assert s1.sessions[0].phase == AwaitingDisconnect(PeerIdentifier(b, 1));
    ReleaseEvent(cfg, s1, 0);
    ExecTwo(cfg, sys, Proceed(0), Proceed(0));
  }

  /** Scenario up to B's mark: A waits for B, and B is sent PeerDisconnect and marks. */
  lemma ScenarioUntilMark(cfg: Config, a: SocketAddress, b: SocketAddress,
                          advA: string, advB: string, respA: string, respB: string)
    requires cfg.protocolVersion == 1 && cfg.quitAfter.None?
    requires cfg.codec.decode(advA) == Some(Advertise(Advertisement(1, "ka", "kb")))
    requires cfg.codec.decode(advB) == Some(Advertise(Advertisement(1, "kb", "ka")))
    requires cfg.codec.decode(respA).Some? && cfg.codec.decode(respA).value.AdvertiseResponse?
    requires cfg.codec.decode(respB).Some? && cfg.codec.decode(respB).value.AdvertiseResponse?
    ensures var r := Exec(cfg, Initial(), JoinEvents(0, a, advA, respA) + (JoinEvents(1, b, advB, respB) + [Proceed(1), Proceed(1)]));
      && r.Some?
      && r.value.sessions == map[0 := Session(a, AwaitingPeer(Advertisement(1, "ka", "kb"))), 1 := Session(b, Finished(Disconnected))]
      && r.value.shared.store == map["ka" := PeerIdentifier(a, 1), "kb" := PeerIdentifier(b, 1)]
      && r.value.shared.disconnects == {b}
      && r.value.history == [Sent(0, a, Challenge(cfg.codec, "ka")), Sent(1, b, Challenge(cfg.codec, "kb")),
                             Sent(1, b, PeerDisconnect(b.port)), Marked(1, b)]
  {
    var first := JoinEvents(0, a, advA, respA);
    Join(cfg, Initial(), 0, a, advA, respA, Advertisement(1, "ka", "kb"));
    var s1 := Exec(cfg, Initial(), first).value;
    RespondAndLeave(cfg, s1, 1, b, advB, respB, Advertisement(1, "kb", "ka"));
    ExecThen(cfg, Initial(), first, s1, JoinEvents(1, b, advB, respB) + [Proceed(1), Proceed(1)]);
  }

  /**
    Peer A advertises {1, "ka", "kb"} and completes its challenge before peer B advertises
    {1, "kb", "ka"}: A becomes the initiator and B the responder; B is sent PeerDisconnect
    with its own port, then marks its address; only then is A sent PeerIdentification
    with B's version, ip and port. Nothing else is sent, and the barrier ends empty.
  */
  lemma SequentialRendezvous(cfg: Config, a: SocketAddress, b: SocketAddress,
                             advA: string, advB: string, respA: string, respB: string)
    requires cfg.protocolVersion == 1 && cfg.quitAfter.None?
    requires cfg.codec.decode(advA) == Some(Advertise(Advertisement(1, "ka", "kb")))
    requires cfg.codec.decode(advB) == Some(Advertise(Advertisement(1, "kb", "ka")))
    requires cfg.codec.decode(respA).Some? && cfg.codec.decode(respA).value.AdvertiseResponse?
    requires cfg.codec.decode(respB).Some? && cfg.codec.decode(respB).value.AdvertiseResponse?
    ensures var r := Exec(cfg, Initial(), JoinEvents(0, a, advA, respA)
                                          + (JoinEvents(1, b, advB, respB) + [Proceed(1), Proceed(1)])
                                          + [Proceed(0), Proceed(0)]);
      && r.Some?
      && r.value.sessions == map[0 := Session(a, Finished(Identified)), 1 := Session(b, Finished(Disconnected))]
      && r.value.history == [Sent(0, a, Challenge(cfg.codec, "ka")), Sent(1, b, Challenge(cfg.codec, "kb")),
                             Sent(1, b, PeerDisconnect(b.port)), Marked(1, b),
                             Sent(0, a, PeerIdentification(1, b.ip, b.port))]
      && r.value.shared.disconnects == {}
  {
    var run := JoinEvents(0, a, advA, respA) + (JoinEvents(1, b, advB, respB) + [Proceed(1), Proceed(1)]);
    ScenarioUntilMark(cfg, a, b, advA, advB, respA, respB);
    var s := Exec(cfg, Initial(), run).value;
    ScenarioInitiatorIdentified(cfg, s, a, b);
    ExecThen(cfg, Initial(), run, s, [Proceed(0), Proceed(0)]);
  }

  /** Race, the lookups: both peers answer their challenges while the store is still empty. */
  lemma RaceBothLookUp(cfg: Config, sys: System, a: SocketAddress, b: SocketAddress, respA: string, respB: string)
    requires cfg.quitAfter.None?
    requires cfg.codec.decode(respA).Some? && cfg.codec.decode(respA).value.AdvertiseResponse?
    requires cfg.codec.decode(respB).Some? && cfg.codec.decode(respB).value.AdvertiseResponse?
    requires sys.sessions == map[0 := Session(a, ExpectResponse(Advertisement(1, "ka", "kb"))),
                                 1 := Session(b, ExpectResponse(Advertisement(1, "kb", "ka")))]
    requires sys.shared.store == map[]
    ensures var r := Exec(cfg, sys, [Deliver(0, respA), Deliver(1, respB)]);
      && r.Some?
      && r.value.sessions == map[0 := Session(a, Resolved(Advertisement(1, "ka", "kb"), Initiator)),
                                 1 := Session(b, Resolved(Advertisement(1, "kb", "ka"), Initiator))]
      && r.value.shared.store == map[] && r.value.shared.disconnects == sys.shared.disconnects
  {
    ResponseEvent(cfg, sys, 0, respA);
    ResponseEvent(cfg, Next(cfg, sys, Deliver(0, respA)), 1, respB);
    ExecTwo(cfg, sys, Deliver(0, respA), Deliver(1, respB));
  }

  /** Race, the registrations: both register as initiators. */
  lemma RaceBothRegister(cfg: Config, sys: System, a: SocketAddress, b: SocketAddress)
    requires sys.sessions == map[0 := Session(a, Resolved(Advertisement(1, "ka", "kb"), Initiator)),
                                 1 := Session(b, Resolved(Advertisement(1, "kb", "ka"), Initiator))]
    requires sys.shared.store == map[]
    ensures var r := Exec(cfg, sys, [Proceed(0), Proceed(1)]);
      && r.Some?
      && r.value.sessions == map[0 := Session(a, AwaitingPeer(Advertisement(1, "ka", "kb"))),
                                 1 := Session(b, AwaitingPeer(Advertisement(1, "kb", "ka")))]
      && r.value.shared.store == map["ka" := PeerIdentifier(a, 1), "kb" := PeerIdentifier(b, 1)]
      && r.value.shared.disconnects == sys.shared.disconnects
  {
    RegisterEvent(cfg, sys, 0);
    RegisterEvent(cfg, Next(cfg, sys, Proceed(0)), 1);
    ExecTwo(cfg, sys, Proceed(0), Proceed(1));
  }

  /** Race, the awaits: each initiator finds the other's record and goes to the barrier. */
  lemma RaceBothAwait(cfg: Config, sys: System, a: SocketAddress, b: SocketAddress)
    requires sys.sessions == map[0 := Session(a, AwaitingPeer(Advertisement(1, "ka", "kb"))),
                                 1 := Session(b, AwaitingPeer(Advertisement(1, "kb", "ka")))]
    requires sys.shared.store == map["ka" := PeerIdentifier(a, 1), "kb" := PeerIdentifier(b, 1)]
    requires sys.shared.disconnects == {}
    ensures var r := Exec(cfg, sys, [Proceed(0), Proceed(1)]);
      && r.Some?
      && r.value.sessions == map[0 := Session(a, AwaitingDisconnect(PeerIdentifier(b, 1))),
                                 1 := Session(b, AwaitingDisconnect(PeerIdentifier(a, 1)))]
      && !CanHappen(r.value, Proceed(0)) && !CanHappen(r.value, Proceed(1))
  {
    AwaitEvent(cfg, sys, 0);
    AwaitEvent(cfg, Next(cfg, sys, Proceed(0)), 1);
    ExecTwo(cfg, sys, Proceed(0), Proceed(1));
  }

  /**
    The lookup and the registration are separate steps, as the `get` and the `put` are,
    so two peers that want each other and both look up before either registers both
    become initiators; each await then finds the other's record and each handler blocks
    in the disconnect barrier on the other's address, which only a responder marks.
  */
  lemma RacingLookupsMakeTwoInitiators(cfg: Config, a: SocketAddress, b: SocketAddress,
                                        advA: string, advB: string, respA: string, respB: string)
    requires cfg.protocolVersion == 1 && cfg.quitAfter.None?
    requires cfg.codec.decode(advA) == Some(Advertise(Advertisement(1, "ka", "kb")))
    requires cfg.codec.decode(advB) == Some(Advertise(Advertisement(1, "kb", "ka")))
    requires cfg.codec.decode(respA).Some? && cfg.codec.decode(respA).value.AdvertiseResponse?
    requires cfg.codec.decode(respB).Some? && cfg.codec.decode(respB).value.AdvertiseResponse?
    ensures var r := Exec(cfg, Initial(), [Accept(0, a), Deliver(0, advA)] + [Accept(1, b), Deliver(1, advB)]
                                          + [Deliver(0, respA), Deliver(1, respB)]
                                          + [Proceed(0), Proceed(1)] + [Proceed(0), Proceed(1)]);
      && r.Some?
      && r.value.sessions == map[0 := Session(a, AwaitingDisconnect(PeerIdentifier(b, 1))),
                                 1 := Session(b, AwaitingDisconnect(PeerIdentifier(a, 1)))]
      && !CanHappen(r.value, Proceed(0)) && !CanHappen(r.value, Proceed(1))
  {
    var p1, p2 := [Accept(0, a), Deliver(0, advA)], [Accept(1, b), Deliver(1, advB)];
    var p3, p4, p5 := [Deliver(0, respA), Deliver(1, respB)], [Proceed(0), Proceed(1)], [Proceed(0), Proceed(1)];
    var adA, adB := Advertisement(1, "ka", "kb"), Advertisement(1, "kb", "ka");
    var s0 := Initial();
    ArriveAndAdvertise(cfg, s0, 0, a, advA, adA);
    var s1 := Exec(cfg, s0, p1).value;
    ArriveAndAdvertise(cfg, s1, 1, b, advB, adB);
    var s2 := Exec(cfg, s1, p2).value;
    RaceBothLookUp(cfg, s2, a, b, respA, respB);
    var s3 := Exec(cfg, s2, p3).value;
    RaceBothRegister(cfg, s3, a, b);
    var s4 := Exec(cfg, s3, p4).value;
    RaceBothAwait(cfg, s4, a, b);
    var s5 := Exec(cfg, s4, p5).value;
    ExecThen(cfg, s0, p1, s1, p2);
    ExecThen(cfg, s0, p1 + p2, s2, p3);
    ExecThen(cfg, s0, p1 + p2 + p3, s3, p4);
    ExecThen(cfg, s0, p1 + p2 + p3 + p4, s4, p5);
  }

  /**
    A peer advertising version 0 to a mediator that requires version 1 receives the one
    message AdvertiseAbort("Required protocol version: 1"), its run is over, and by
    `FinishedStaysQuiet` nothing is ever sent to it again.
  */
  lemma OldPeerIsTurnedAway(cfg: Config, a: SocketAddress, adv: string, ad: Advertisement)
    requires cfg.protocolVersion == 1 && cfg.quitAfter.None?
    requires cfg.codec.decode(adv) == Some(Advertise(ad)) && ad.version == 0
    ensures var r := Exec(cfg, Initial(), [Accept(0, a), Deliver(0, adv)]);
      && r.Some?
      && r.value.sessions == map[0 := Session(a, Finished(UnsupportedVersion))]
      && r.value.history == [Sent(0, a, AdvertiseAbort("Required protocol version: 1"))]
      && r.value.shared.store == map[] && r.value.shared.disconnects == {}
  {
    AcceptEvent(cfg, Initial(), 0, a);
    AbortReasonForVersionOne();
    ExecTwo(cfg, Initial(), Accept(0, a), Deliver(0, adv));
  }

  // --- a stale mark --------------------------------------------------------------

  /** Stale mark, first part: C registers "kc" wanting "kd" and its await times out. */
  lemma StaleInitiatorTimesOut(cfg: Config, c: SocketAddress, advC: string, resp: string)
    requires cfg.protocolVersion == 1 && cfg.quitAfter.None?
    requires cfg.codec.decode(advC) == Some(Advertise(Advertisement(1, "kc", "kd")))
    requires cfg.codec.decode(resp).Some? && cfg.codec.decode(resp).value.AdvertiseResponse?
    ensures var r := Exec(cfg, Initial(), JoinEvents(2, c, advC, resp) + [Proceed(2)]);
      && r.Some?
      && r.value.sessions == map[2 := Session(c, Finished(PeerNeverArrived))]
      && r.value.shared.store == map["kc" := PeerIdentifier(c, 1)]
      && r.value.shared.disconnects == {}
      && r.value.history == [Sent(2, c, Challenge(cfg.codec, "kc"))]
  {
    var s0, joined := Initial(), JoinEvents(2, c, advC, resp);
    Join(cfg, s0, 2, c, advC, resp, Advertisement(1, "kc", "kd"));
    var s1 := Exec(cfg, s0, joined).value;
    assert s1.sessions == map[2 := Session(c, AwaitingPeer(Advertisement(1, "kc", "kd")))];
    AwaitEvent(cfg, s1, 2);
    ExecOne(cfg, s1, Proceed(2));
    ExecThen(cfg, s0, joined, s1, [Proceed(2)]);
  }

  /** Stale mark, third part: A registers "ka" wanting "kb"; a new peer B at address b then registers as responder. */
  lemma StalePeersRegister(cfg: Config, sys: System, a: SocketAddress, b: SocketAddress, advA: string, advB: string, resp: string)
    requires cfg.protocolVersion == 1 && cfg.quitAfter.None?
    requires cfg.codec.decode(advA) == Some(Advertise(Advertisement(1, "ka", "kb")))
    requires cfg.codec.decode(advB) == Some(Advertise(Advertisement(1, "kb", "ka")))
    requires cfg.codec.decode(resp).Some? && cfg.codec.decode(resp).value.AdvertiseResponse?
    requires 0 !in sys.sessions && 1 !in sys.sessions && "kb" !in sys.shared.store
    ensures var r := Exec(cfg, sys, JoinEvents(0, a, advA, resp) + JoinEvents(1, b, advB, resp));
      && r.Some?
      && r.value.sessions == sys.sessions[0 := Session(a, AwaitingPeer(Advertisement(1, "ka", "kb")))][1 := Session(b, Registered)]
      && 0 in r.value.sessions && r.value.sessions[0] == Session(a, AwaitingPeer(Advertisement(1, "ka", "kb")))
      && 1 in r.value.sessions && r.value.sessions[1] == Session(b, Registered)
      && r.value.shared.store == sys.shared.store["ka" := PeerIdentifier(a, 1)]["kb" := PeerIdentifier(b, 1)]
      && r.value.shared.disconnects == sys.shared.disconnects
      && r.value.history == sys.history + [Sent(0, a, Challenge(cfg.codec, "ka")), Sent(1, b, Challenge(cfg.codec, "kb"))]
  {
    var joinA := JoinEvents(0, a, advA, resp);
    Join(cfg, sys, 0, a, advA, resp, Advertisement(1, "ka", "kb"));
    var s1 := Exec(cfg, sys, joinA).value;
    assert "ka" in s1.shared.store && 1 !in s1.sessions;
    Join(cfg, s1, 1, b, advB, resp, Advertisement(1, "kb", "ka"));
    ExecThen(cfg, sys, joinA, s1, JoinEvents(1, b, advB, resp));
  }

  /**
    Stale mark, last part: A's await finds B's record; b is still marked, so the barrier
    releases A and A is sent PeerIdentification before B is sent its PeerDisconnect.
  */
  lemma StaleMarkReleases(cfg: Config, sys: System, a: SocketAddress, b: SocketAddress)
    requires cfg.quitAfter.None?
    requires 0 in sys.sessions && sys.sessions[0] == Session(a, AwaitingPeer(Advertisement(1, "ka", "kb")))
    requires 1 in sys.sessions && sys.sessions[1] == Session(b, Registered)
    requires "kb" in sys.shared.store && sys.shared.store["kb"] == PeerIdentifier(b, 1)
    requires b in sys.shared.disconnects
    ensures var r := Exec(cfg, sys, [Proceed(0), Proceed(0)] + [Proceed(1)]);
      && r.Some?
      && r.value.history == sys.history + [Sent(0, a, PeerIdentification(1, b.ip, b.port)), Sent(1, b, PeerDisconnect(b.port))]
  {
    AwaitEvent(cfg, sys, 0);
    var s1 := Next(cfg, sys, Proceed(0));
    assert s1.sessions[0].phase == AwaitingDisconnect(PeerIdentifier(b, 1));
    ReleaseEvent(cfg, s1, 0);
    ExecTwo(cfg, sys, Proceed(0), Proceed(0));
    var s2 := Exec(cfg, sys, [Proceed(0), Proceed(0)]).value;
    assert s2.sessions[1] == Session(b, Registered);
    DisconnectEvent(cfg, s2, 1);
    ExecOne(cfg, s2, Proceed(1));
    ExecThen(cfg, sys, [Proceed(0), Proceed(0)], s2, [Proceed(1)]);
  }

  /** The stale mark is left by a responder whose initiator had already timed out. */
  lemma StaleMarkIsLeft(cfg: Config, b: SocketAddress, c: SocketAddress, advC: string, advD: string, resp: string)
    requires cfg.protocolVersion == 1 && cfg.quitAfter.None?
    requires cfg.codec.decode(advC) == Some(Advertise(Advertisement(1, "kc", "kd")))
    requires cfg.codec.decode(advD) == Some(Advertise(Advertisement(1, "kd", "kc")))
    requires cfg.codec.decode(resp).Some? && cfg.codec.decode(resp).value.AdvertiseResponse?
    ensures var r := Exec(cfg, Initial(), JoinEvents(2, c, advC, resp) + [Proceed(2)]
                                          + (JoinEvents(3, b, advD, resp) + [Proceed(3), Proceed(3)]));
      && r.Some?
      && r.value.sessions == map[2 := Session(c, Finished(PeerNeverArrived)), 3 := Session(b, Finished(Disconnected))]
      && r.value.shared.store == map["kc" := PeerIdentifier(c, 1), "kd" := PeerIdentifier(b, 1)]
      && r.value.shared.disconnects == {b}
      && r.value.history == [Sent(2, c, Challenge(cfg.codec, "kc")), Sent(3, b, Challenge(cfg.codec, "kd")),
                             Sent(3, b, PeerDisconnect(b.port)), Marked(3, b)]
  {
    var first := JoinEvents(2, c, advC, resp) + [Proceed(2)];
    StaleInitiatorTimesOut(cfg, c, advC, resp);
    var s1 := Exec(cfg, Initial(), first).value;
    RespondAndLeave(cfg, s1, 3, b, advD, resp, Advertisement(1, "kd", "kc"));
    ExecThen(cfg, Initial(), first, s1, JoinEvents(3, b, advD, resp) + [Proceed(3), Proceed(3)]);
  }

  /** Stale mark, A and B's part: with b still marked, A is sent B's identification before B its PeerDisconnect. */
  lemma StalePeersMeet(cfg: Config, sys: System, a: SocketAddress, b: SocketAddress, advA: string, advB: string, resp: string)
    requires cfg.protocolVersion == 1 && cfg.quitAfter.None?
    requires cfg.codec.decode(advA) == Some(Advertise(Advertisement(1, "ka", "kb")))
    requires cfg.codec.decode(advB) == Some(Advertise(Advertisement(1, "kb", "ka")))
    requires cfg.codec.decode(resp).Some? && cfg.codec.decode(resp).value.AdvertiseResponse?
    requires 0 !in sys.sessions && 1 !in sys.sessions && "kb" !in sys.shared.store && b in sys.shared.disconnects
    ensures var r := Exec(cfg, sys, (JoinEvents(0, a, advA, resp) + JoinEvents(1, b, advB, resp)) + ([Proceed(0), Proceed(0)] + [Proceed(1)]));
      && r.Some?
      && r.value.history == sys.history + [Sent(0, a, Challenge(cfg.codec, "ka")), Sent(1, b, Challenge(cfg.codec, "kb")),
                                           Sent(0, a, PeerIdentification(1, b.ip, b.port)), Sent(1, b, PeerDisconnect(b.port))]
  {
    var join := JoinEvents(0, a, advA, resp) + JoinEvents(1, b, advB, resp);
    StalePeersRegister(cfg, sys, a, b, advA, advB, resp);
    var s1 := Exec(cfg, sys, join).value;
    StaleMarkReleases(cfg, s1, a, b);
    ExecThen(cfg, sys, join, s1, [Proceed(0), Proceed(0)] + [Proceed(1)]);
  }

  /**
    The barrier is keyed by address and a mark outlives the run that made it. Initiator C
    times out; responder D at address b then finds C's record, is sent PeerDisconnect and
    marks b, and nobody consumes that mark. Later A registers wanting "kb", a new peer B
    connects from the same address b and registers "kb"; A's await finds B, the stale mark
    releases A at once, and A is sent PeerIdentification naming b before B is sent its
    PeerDisconnect, although the barrier exists to order them the other way.
  */
  lemma StaleMarkReleasesEarly(cfg: Config, a: SocketAddress, b: SocketAddress, c: SocketAddress,
                               advA: string, advB: string, advC: string, advD: string, resp: string)
    requires cfg.protocolVersion == 1 && cfg.quitAfter.None?
    requires cfg.codec.decode(advA) == Some(Advertise(Advertisement(1, "ka", "kb")))
    requires cfg.codec.decode(advB) == Some(Advertise(Advertisement(1, "kb", "ka")))
    requires cfg.codec.decode(advC) == Some(Advertise(Advertisement(1, "kc", "kd")))
    requires cfg.codec.decode(advD) == Some(Advertise(Advertisement(1, "kd", "kc")))
    requires cfg.codec.decode(resp).Some? && cfg.codec.decode(resp).value.AdvertiseResponse?
    ensures var r := Exec(cfg, Initial(), JoinEvents(2, c, advC, resp) + [Proceed(2)]
                                          + (JoinEvents(3, b, advD, resp) + [Proceed(3), Proceed(3)])
                                          + ((JoinEvents(0, a, advA, resp) + JoinEvents(1, b, advB, resp))
                                             + ([Proceed(0), Proceed(0)] + [Proceed(1)])));
      && r.Some?
      && r.value.history == [Sent(2, c, Challenge(cfg.codec, "kc")), Sent(3, b, Challenge(cfg.codec, "kd")),
                             Sent(3, b, PeerDisconnect(b.port)), Marked(3, b)]
                          + [Sent(0, a, Challenge(cfg.codec, "ka")), Sent(1, b, Challenge(cfg.codec, "kb")),
                             Sent(0, a, PeerIdentification(1, b.ip, b.port)), Sent(1, b, PeerDisconnect(b.port))]
  {
    var left := JoinEvents(2, c, advC, resp) + [Proceed(2)] + (JoinEvents(3, b, advD, resp) + [Proceed(3), Proceed(3)]);
    StaleMarkIsLeft(cfg, b, c, advC, advD, resp);
    var s1 := Exec(cfg, Initial(), left).value;
    StalePeersMeet(cfg, s1, a, b, advA, advB, resp);
    ExecThen(cfg, Initial(), left, s1, (JoinEvents(0, a, advA, resp) + JoinEvents(1, b, advB, resp))
                                       + ([Proceed(0), Proceed(0)] + [Proceed(1)]));
  }
}
