/**
 The signaling coordinator's state machine as pure functions over a value
 holding its six tables.  Each `switch` arm of the backend's message handler
 and its close handler is one function from the current tables, the sending
 connection and the message to the new tables and the list of sends it makes
 (each handler is one atomic step).

 The functions follow the code as written, including its quirks: a re-login
 evicts nobody, a device may be listed under two names, the transfer notice is
 addressed to a device id, and `connections` is written under names but read
 under device ids.
 */
module Signaling {
  import opened Wire

  /** The six module-level tables of the backend. */
  datatype Tables = Tables(
    devices: map<DeviceId, Conn>,           // device id -> its connection
    socketDevice: map<Conn, DeviceId>,      // connection -> device id (a WeakMap in the source)
    userDevices: map<Name, set<DeviceId>>,  // name -> devices logged in under it
    deviceUser: map<DeviceId, Name>,        // device id -> the name it last logged in under
    activeDevice: map<Name, DeviceId>,      // name -> its active device
    connections: map<string, string>)       // "who to tell when I leave"; keys are names or device ids

  /** The tables at process start. */
  const Empty: Tables := Tables(map[], map[], map[], map[], map[], map[])

  /** The outcome of handling one event: the new tables and the sends, in order. */
  datatype Effect = Effect(tables: Tables, sends: seq<Send>)

  /** `Map.prototype.get`: the entry for `k`, or `undefined`. */
  function Get<K, V>(m: map<K, V>, k: K): Option<V>
  {
    if k in m then Some(m[k]) else None
  }

  /** JavaScript truthiness of a possibly undefined string: defined and non-empty. */
  predicate Truthy(s: Option<string>)
  {
    s.Some? && |s.value| > 0
  }

  /**
   What every reachable state satisfies: a bound connection's device and every
   registered device has a recorded owner, the owner lists that device, no
   name's device set is empty, and every listed device has a recorded owner
   (not necessarily the name that lists it).
   */
  predicate Consistent(t: Tables)
  {
    && (forall c :: c in t.socketDevice ==> t.socketDevice[c] in t.deviceUser)
    && (forall d :: d in t.devices ==> d in t.deviceUser)
    && (forall d :: d in t.deviceUser ==>
          t.deviceUser[d] in t.userDevices && d in t.userDevices[t.deviceUser[d]])
    && (forall n :: n in t.userDevices ==> t.userDevices[n] != {})
    && (forall n, d :: n in t.userDevices && d in t.userDevices[n] ==> d in t.deviceUser)
  }

  /** The identity directory only grows: no name and no owner record is ever dropped. */
  predicate DirectoryGrows(t: Tables, t': Tables)
  {
    && (forall n :: n in t.userDevices ==> n in t'.userDevices && t.userDevices[n] <= t'.userDevices[n])
    && t.deviceUser.Keys <= t'.deviceUser.Keys
  }

  // ---------------------------------------------------------------- login

  /** The three facts whose conjunction makes the backend refuse a login. */
  predicate AlreadyLoggedIn(t: Tables, name: Name, device: DeviceId)
  {
    && name in t.userDevices && device in t.userDevices[name]
    && Get(t.deviceUser, device) == Some(name)
    && device in t.devices
  }

  /**
   The tables after an accepted login of `device` under `name` on `ws`: the
   device is bound to `ws` (the previous connection of the device, if any, is
   not evicted and keeps its own reverse entry), the device's owner becomes
   `name` (any other name that lists it keeps listing it), the device joins
   `name`'s set, and it becomes `name`'s active device only if `name` is new.
   */
  predicate LoggedIn(t: Tables, t': Tables, ws: Conn, name: Name, device: DeviceId)
  {
    && t'.devices == t.devices[device := ws]
    && t'.socketDevice == t.socketDevice[ws := device]
    && t'.deviceUser == t.deviceUser[device := name]
    && name in t'.userDevices
    && t'.userDevices[name] == (if name in t.userDevices then t.userDevices[name] else {}) + {device}
    && t'.userDevices - {name} == t.userDevices - {name}
    && t'.activeDevice == (if name in t.userDevices then t.activeDevice else t.activeDevice[name := device])
    && t'.connections == t.connections
  }

  function HandleLogin(t: Tables, ws: Conn, name: Name, device: DeviceId): (r: Effect)
    ensures AlreadyLoggedIn(t, name, device) <==> r.sends == [Send(Socket(ws), LoginRejected)]
    ensures AlreadyLoggedIn(t, name, device) ==> r.tables == t
    ensures !AlreadyLoggedIn(t, name, device) ==>
              && LoggedIn(t, r.tables, ws, name, device)
              && r.sends == [Send(Socket(ws), LoginAccepted(name, device))]
    ensures DirectoryGrows(t, r.tables)
    ensures Consistent(t) ==> Consistent(r.tables)
  {
    if AlreadyLoggedIn(t, name, device) then
      Effect(t, [Send(Socket(ws), LoginRejected)])
    else
      var isNew := name !in t.userDevices;
      var t' := t.(
        devices := t.devices[device := ws],
        socketDevice := t.socketDevice[ws := device],
        deviceUser := t.deviceUser[device := name],
        userDevices := if isNew then t.userDevices[name := {device}]
                       else t.userDevices[name := t.userDevices[name] + {device}],
        activeDevice := if isNew then t.activeDevice[name := device] else t.activeDevice);
      Effect(t', [Send(Socket(ws), LoginAccepted(name, device))])
  }

  // ------------------------------------------------------------- transfer

  /** Where the "you were superseded" notice goes: the old active device's id, or `undefined`. */
  function PreviousActive(t: Tables, name: Name): Target
  {
    if name in t.activeDevice then DeviceAddress(t.activeDevice[name]) else Undefined
  }

  /**
   Makes `device` the active device of `name`, whether or not it belongs to
   `name`.  The notice to the previous active device is passed its device id
   where a connection is expected, so it never reaches a connection.
   */
  function HandleTransfer(t: Tables, ws: Conn, name: Name, device: DeviceId): (r: Effect)
    ensures r.tables == t.(activeDevice := t.activeDevice[name := device])
    ensures r.sends == [Send(Socket(ws), TransferAccepted),
                        Send(PreviousActive(t, name), TransferSuperseded(device))]
    ensures Delivered(r.sends) == [(ws, TransferAccepted)]
    ensures Consistent(t) ==> Consistent(r.tables)
  {
    var sends := [Send(Socket(ws), TransferAccepted),
                  Send(PreviousActive(t, name), TransferSuperseded(device))];
    assert sends[1..] == [sends[1]];
    assert sends[1..][1..] == [];
    Effect(t.(activeDevice := t.activeDevice[name := device]), sends)
  }

  // ------------------------------------------------ offer, answer, candidate

  /**
   The guard shared by offer, answer and candidate: the addressed device has
   a connection, that connection is not the sender's, and the sender is bound
   to a non-empty device id.
   */
  predicate RelayAllowed(t: Tables, ws: Conn, device: DeviceId)
  {
    && device in t.devices && t.devices[device] != ws
    && Truthy(Get(t.socketDevice, ws))
  }

  /** The sender's device has a recorded owner (the source dereferences it with `!`). */
  predicate SenderOwned(t: Tables, ws: Conn)
  {
    ws in t.socketDevice ==> t.socketDevice[ws] in t.deviceUser
  }

  /** The sender's device id and its owner's name, when the relay guard holds. */
  function SenderDevice(t: Tables, ws: Conn): DeviceId
    requires ws in t.socketDevice
  {
    t.socketDevice[ws]
  }

  function SenderName(t: Tables, ws: Conn): Name
    requires ws in t.socketDevice && SenderOwned(t, ws)
  {
    t.deviceUser[t.socketDevice[ws]]
  }

  /** Relays an offer to `device`, recording `connections[name] = <sender's name>`. */
  function HandleOffer(t: Tables, ws: Conn, name: Name, device: DeviceId, offer: Payload): (r: Effect)
    requires SenderOwned(t, ws)
    ensures !RelayAllowed(t, ws, device) ==> r == Effect(t, [])
    ensures RelayAllowed(t, ws, device) ==>
              && r.tables == t.(connections := t.connections[name := SenderName(t, ws)])
              && r.sends == [Send(Socket(t.devices[device]),
                                  OfferRelay(offer, SenderName(t, ws), SenderDevice(t, ws)))]
    ensures NoEcho(r.sends, ws)
    ensures Consistent(t) ==> Consistent(r.tables)
  {
    if RelayAllowed(t, ws, device) then
      var user := t.deviceUser[t.socketDevice[ws]];
      Effect(t.(connections := t.connections[name := user]),
             [Send(Socket(t.devices[device]), OfferRelay(offer, user, t.socketDevice[ws]))])
    else
      Effect(t, [])
  }

  /** Relays an answer to `device`, recording `connections[<sender's name>] = name`. */
  function HandleAnswer(t: Tables, ws: Conn, name: Name, device: DeviceId, answer: Payload): (r: Effect)
    requires SenderOwned(t, ws)
    ensures !RelayAllowed(t, ws, device) ==> r == Effect(t, [])
    ensures RelayAllowed(t, ws, device) ==>
              && r.tables == t.(connections := t.connections[SenderName(t, ws) := name])
              && r.sends == [Send(Socket(t.devices[device]), AnswerRelay(answer, SenderDevice(t, ws)))]
    ensures NoEcho(r.sends, ws)
    ensures Consistent(t) ==> Consistent(r.tables)
  {
    if RelayAllowed(t, ws, device) then
      var user := t.deviceUser[t.socketDevice[ws]];
      Effect(t.(connections := t.connections[user := name]),
             [Send(Socket(t.devices[device]), AnswerRelay(answer, t.socketDevice[ws]))])
    else
      Effect(t, [])
  }

  /** Relays an ICE candidate to `device`; no table changes. */
  function HandleCandidate(t: Tables, ws: Conn, device: DeviceId, candidate: Payload): (r: Effect)
    ensures r.tables == t
    ensures r.sends == if RelayAllowed(t, ws, device)
                       then [Send(Socket(t.devices[device]), CandidateRelay(candidate))] else []
    ensures NoEcho(r.sends, ws)
  {
    if RelayAllowed(t, ws, device) then
      Effect(t, [Send(Socket(t.devices[device]), CandidateRelay(candidate))])
    else
      Effect(t, [])
  }

  // ---------------------------------------------------------------- leave

  /**
   Drops `connections[<sender's device id>]` when the sender is bound, and
   tells the connection registered under `name` (used as a device id) unless
   it is the sender's own.
   */
  function HandleLeave(t: Tables, ws: Conn, name: Name): (r: Effect)
    ensures r.tables == if Truthy(Get(t.socketDevice, ws))
                        then t.(connections := t.connections - {t.socketDevice[ws]}) else t
    ensures r.sends == if name in t.devices && t.devices[name] != ws
                       then [Send(Socket(t.devices[name]), LeaveNotice)] else []
    ensures NoEcho(r.sends, ws)
    ensures Consistent(t) ==> Consistent(r.tables)
  {
    var t' := if Truthy(Get(t.socketDevice, ws))
              then t.(connections := t.connections - {t.socketDevice[ws]}) else t;
    var peer := Get(t.devices, name);
    if peer.Some? && peer.value != ws then Effect(t', [Send(Socket(peer.value), LeaveNotice)])
    else Effect(t', [])
  }

  // ---------------------------------------------------------------- close

  /**
   The close handler.  For a connection bound to device `d`, it removes
   `devices[d]` (even if that entry now belongs to a newer connection) and the
   connection's reverse entry; then, if `connections[d]` holds a peer key `p`,
   it deletes `connections[p]` and tells `devices[p]`, looked up after the
   deletion of `devices[d]`, if it exists.
   */
  function HandleClose(t: Tables, ws: Conn): (r: Effect)
    ensures !Truthy(Get(t.socketDevice, ws)) ==> r == Effect(t, [])
    ensures Truthy(Get(t.socketDevice, ws)) ==>
              var d := t.socketDevice[ws];
              && r.tables.devices == t.devices - {d}
              && r.tables.socketDevice == t.socketDevice - {ws}
              && r.tables.userDevices == t.userDevices
              && r.tables.deviceUser == t.deviceUser
              && r.tables.activeDevice == t.activeDevice
              && if Truthy(Get(t.connections, d)) then
                   var p := t.connections[d];
                   && r.tables.connections == t.connections - {p}
                   && r.sends == if p in r.tables.devices
                                 then [Send(Socket(r.tables.devices[p]), LeaveNotice)] else []
                 else
                   r.tables.connections == t.connections && r.sends == []
    ensures |r.sends| <= 1
    ensures Consistent(t) ==> Consistent(r.tables)
  {
    var user1 := Get(t.socketDevice, ws);
    if !Truthy(user1) then Effect(t, [])
    else
      var t1 := t.(devices := t.devices - {user1.value}, socketDevice := t.socketDevice - {ws});
      var user2 := Get(t1.connections, user1.value);
      if !Truthy(user2) then Effect(t1, [])
      else
        var peer := Get(t1.devices, user2.value);
        var t2 := t1.(connections := t1.connections - {user2.value});
        if peer.Some? then Effect(t2, [Send(Socket(peer.value), LeaveNotice)])
        else Effect(t2, [])
  }

  // ------------------------------------------------------------- dispatch

  /** An event reaching the coordinator: a decoded message from a connection, or its closure. */
  datatype Event = Received(from: Conn, msg: Message) | Closed(conn: Conn)

  /** One handler invocation: the `switch` of the message handler, or the close handler. */
  function Step(t: Tables, e: Event): (r: Effect)
    requires Consistent(t)
    ensures Consistent(r.tables)
    ensures DirectoryGrows(t, r.tables)
  {
    match e
    case Closed(ws) => HandleClose(t, ws)
    case Received(ws, m) =>
      match m
      case Login(name, device) => HandleLogin(t, ws, name, device)
      case Transfer(name, device) => HandleTransfer(t, ws, name, device)
      case Offer(name, device, offer) => HandleOffer(t, ws, name, device, offer)
      case Answer(name, device, answer) => HandleAnswer(t, ws, name, device, answer)
      case Candidate(_, device, candidate) => HandleCandidate(t, ws, device, candidate)
      case Leave(name, _) => HandleLeave(t, ws, name)
      case Unknown(_) => Effect(t, [Send(Socket(ws), Error(NotFoundText(m)))])
      case Untyped => Effect(t, [Send(Socket(ws), Error(NotFoundText(m)))])
  }

  /** The tables after handling `evs` in order, one event at a time. */
  function Run(t: Tables, evs: seq<Event>): (r: Tables)
    requires Consistent(t)
    ensures Consistent(r)
    decreases |evs|
  {
    if evs == [] then t else Run(Step(t, evs[0]).tables, evs[1..])
  }
}
