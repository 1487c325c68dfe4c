/**
 The wire-level vocabulary of the signaling coordinator: what the external
 JSON codec hands to the router, the tagged messages the router switches on,
 and the replies it sends back out.  Connections are opaque ids; session
 descriptions and ICE candidates are opaque payloads relayed unchanged.
 */
module Wire {

  datatype Option<T> = None | Some(value: T)

  /** One live duplex connection, known to the coordinator only by identity. */
  type Conn = nat
  /** A chosen identity name. */
  type Name = string
  /** A device identifier, chosen by the connecting client. */
  type DeviceId = string
  /** An opaque JSON value (session description or ICE candidate). */
  type Payload = string

  /**
   What the codec makes of one inbound frame: a frame that is not valid JSON
   becomes `Malformed` (the codec's `{}`), otherwise an object whose `type`
   field may be absent.
   */
  datatype Frame =
    | Malformed
    | Object(kind: Option<string>, name: Name, device: DeviceId,
             offer: Payload, answer: Payload, candidate: Payload)

  /** The decoded message, tagged by its `type` field. */
  datatype Message =
    | Login(name: Name, device: DeviceId)
    | Transfer(name: Name, device: DeviceId)
    | Offer(name: Name, device: DeviceId, offer: Payload)
    | Answer(name: Name, device: DeviceId, answer: Payload)
    | Candidate(name: Name, device: DeviceId, candidate: Payload)
    | Leave(name: Name, device: DeviceId)
    | Unknown(kind: string)   // a `type` no case arm matches
    | Untyped                 // no `type` at all

  const KnownKinds: set<string> := {"login", "transfer", "offer", "answer", "candidate", "leave"}

  /** The `type` discriminator a message carries on the wire. */
  function KindOf(m: Message): Option<string>
  {
    match m
    case Login(_, _) => Some("login")
    case Transfer(_, _) => Some("transfer")
    case Offer(_, _, _) => Some("offer")
    case Answer(_, _, _) => Some("answer")
    case Candidate(_, _, _) => Some("candidate")
    case Leave(_, _) => Some("leave")
    case Unknown(k) => Some(k)
    case Untyped => None
  }

  /**
   Classifies a decoded frame by its `type`.  The discriminator survives
   decoding, the kind-specific fields are carried over, and a malformed
   frame has no type at all (so it reaches the router's default arm).
   */
  function Decode(f: Frame): (m: Message)
    ensures f.Malformed? ==> m == Untyped
    ensures f.Object? ==> KindOf(m) == f.kind
    ensures m.Unknown? ==> m.kind !in KnownKinds
    ensures f.Object? && !m.Unknown? && !m.Untyped? ==> m.name == f.name && m.device == f.device
    ensures m.Offer? ==> m.offer == f.offer
    ensures m.Answer? ==> m.answer == f.answer
    ensures m.Candidate? ==> m.candidate == f.candidate
  {
    match f
    case Malformed => Untyped
    case Object(kind, name, device, offer, answer, candidate) =>
      match kind
      case None => Untyped
      case Some(k) =>
        if k == "login" then Login(name, device)
        else if k == "transfer" then Transfer(name, device)
        else if k == "offer" then Offer(name, device, offer)
        else if k == "answer" then Answer(name, device, answer)
        else if k == "candidate" then Candidate(name, device, candidate)
        else if k == "leave" then Leave(name, device)
        else Unknown(k)
  }

  /** The text of the default arm's error reply; an absent type prints as JavaScript's `undefined`. */
  function NotFoundText(m: Message): string
  {
    "Command not found: " + match KindOf(m) { case Some(k) => k case None => "undefined" }
  }

  /** The server-to-client messages, one constructor per reply shape. */
  datatype Reply =
    | LoginRejected                                   // {type:"login", success:false}
    | LoginAccepted(name: Name, device: DeviceId)     // {type:"login", success:true, name, device}
    | TransferAccepted                                // {type:"transfer", success:true}
    | TransferSuperseded(device: DeviceId)            // {type:"transfer", success:false, device}
    | OfferRelay(offer: Payload, name: Name, device: DeviceId)
    | AnswerRelay(answer: Payload, device: DeviceId)
    | CandidateRelay(candidate: Payload)
    | LeaveNotice                                     // {type:"leave"}
    | Error(message: string)                          // {type:"error", message}

  /**
   Where a send is addressed.  The router normally passes a connection, but
   one call site passes a device id string or `undefined` instead; such a
   send is recorded here and never reaches any connection.
   */
  datatype Target = Socket(conn: Conn) | DeviceAddress(device: DeviceId) | Undefined

  datatype Send = Send(to: Target, reply: Reply)

  /** The sends that actually reach a connection, in order. */
  function Delivered(sends: seq<Send>): (r: seq<(Conn, Reply)>)
    ensures |r| <= |sends|
    ensures forall c: Conn, m: Reply :: (c, m) in r <==> Send(Socket(c), m) in sends
  {
    if sends == [] then []
    else
      var rest := Delivered(sends[1..]);
      assert sends == [sends[0]] + sends[1..];
      match sends[0].to
      case Socket(c) => [(c, sends[0].reply)] + rest
      case _ => rest
  }

  /** One send is delivered as itself when it is addressed to a connection, and not at all otherwise. */
  lemma DeliveredOne(s: Send)
    ensures Delivered([s]) == if s.to.Socket? then [(s.to.conn, s.reply)] else []
  {
    assert [s][1..] == [];
  }

  /** Delivery keeps order and multiplicity: the deliveries of a concatenation are the concatenated deliveries. */
  lemma {:induction false} DeliveredAppend(a: seq<Send>, b: seq<Send>)
    ensures Delivered(a + b) == Delivered(a) + Delivered(b)
    decreases |a|
  {
    if a == [] {
      assert a + b == b;
    } else {
      assert (a + b)[0] == a[0];
      assert (a + b)[1..] == a[1..] + b;
      DeliveredAppend(a[1..], b);
    }
  }

  /** No send in `sends` is addressed back to connection `ws`. */
  predicate NoEcho(sends: seq<Send>, ws: Conn)
  {
    forall i :: 0 <= i < |sends| ==> sends[i].to != Socket(ws)
  }
}
