/**
  The six wire messages of the rendezvous protocol, the addresses and peer records
  they carry, and the collaborators the mediator calls but whose code is not part of
  this model: the JSON codec and RSA public-key encryption. Those collaborators are
  function values held in a `Codec`, so nothing is assumed about them beyond being
  functions.
*/
module Messages {
  import opened Wrappers
  import opened Decimal

  /** A public key as exchanged in Advertise; byte-equality is identity. */
  type Key = string

  type Port = p: int | 0 <= p < 0x1_0000

  datatype SocketAddress = SocketAddress(ip: string, port: Port)

  /** What the identifier store records for a registered peer. */
  datatype PeerIdentifier = PeerIdentifier(address: SocketAddress, version: int)

  /** The payload of Advertise: the sender's protocol version, its own key and the key it wants to reach. */
  datatype Advertisement = Advertisement(version: int, ourKey: Key, theirKey: Key)

  datatype MessageType =
    | TypeAdvertise
    | TypeAdvertiseAbort
    | TypeAdvertiseChallenge
    | TypeAdvertiseResponse
    | TypePeerIdentification
    | TypePeerDisconnect

  datatype Message =
    | Advertise(ad: Advertisement)
    | AdvertiseAbort(reason: string)
    | AdvertiseChallenge(encryptedNonce: string)
    | AdvertiseResponse(nonce: string)
    | PeerIdentification(version: int, ip: string, port: Port)
    | PeerDisconnect(port: Port)
  {
    /** The type tag the encoded form carries. */
    function Type(): MessageType {
      match this
      case Advertise(_) => TypeAdvertise
      case AdvertiseAbort(_) => TypeAdvertiseAbort
      case AdvertiseChallenge(_) => TypeAdvertiseChallenge
      case AdvertiseResponse(_) => TypeAdvertiseResponse
      case PeerIdentification(_, _, _) => TypePeerIdentification
      case PeerDisconnect(_) => TypePeerDisconnect
    }
  }

  /**
    The foreign collaborators: `encode` turns a message into its JSON text, `decode`
    reads a JSON text back (None when it is not a message), and `encrypt` parses a
    public key and encrypts a plaintext under it.
  */
  datatype Codec = Codec(
    encode: Message -> string,
    decode: string -> Option<Message>,
    encrypt: (Key, string) -> string)

  /** `decode<T>`: the decoded message when the text decodes to a message of type `t`. */
  function DecodeAs(codec: Codec, raw: string, t: MessageType): (r: Option<Message>)
    ensures r.Some? <==> codec.decode(raw).Some? && codec.decode(raw).value.Type() == t
    ensures r.Some? ==> r == codec.decode(raw)
  {
    match codec.decode(raw)
    case Some(m) => if m.Type() == t then Some(m) else None
    case None => None
  }

  /** The nonce the mediator challenges every peer with. */
  const Nonce: int := 1337

  const AbortPrefix: string := "Required protocol version: "

  /** The reason sent in AdvertiseAbort: the fixed prefix followed by the required version. */
  function AbortReason(required: int): (r: string)
    ensures |r| > |AbortPrefix| && r[..|AbortPrefix|] == AbortPrefix
    ensures ParseInt(r[|AbortPrefix|..]) == Some(required)
  {
    var r := AbortPrefix + IntToString(required);
    assert r[|AbortPrefix|..] == IntToString(required);
    IntToStringRoundTrip(required);
    r
  }

  /** The AdvertiseChallenge for a peer that advertised `ourKey`: the nonce's text encrypted under that key. */
  function Challenge(codec: Codec, ourKey: Key): (m: Message)
    ensures m.Type() == TypeAdvertiseChallenge
  {
    AdvertiseChallenge(codec.encrypt(ourKey, IntToString(Nonce)))
  }

  /** The reason a peer advertising version 0 receives from a mediator that requires version 1. */
  lemma AbortReasonForVersionOne()
    ensures AbortReason(1) == "Required protocol version: 1"
  {
  }

  /** The challenge plaintext is the four characters of 1337. */
  lemma NonceText()
    ensures IntToString(Nonce) == "1337"
  {
  }
}
