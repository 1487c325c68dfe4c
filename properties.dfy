/**
 Properties of the coordinator's state machine: facts about whole runs
 (proved by induction over the event sequence), the login, relay and
 error-reply behaviour for all inputs, and concrete runs showing where the
 code as written departs from a one-connection-per-device registry and from
 symmetric session teardown.
 */
module SignalingProperties {
  import opened Wire
  import opened Signaling

  // ------------------------------------------------------------ whole runs

  /** Every state reachable from process start satisfies the table invariant. */
  lemma ReachableConsistent(evs: seq<Event>)
    ensures Consistent(Run(Empty, evs))
  {
  }

  /** Over any run, no name is removed, no name's device set shrinks and no owner record is dropped. */
  lemma {:induction false} DirectoryNeverShrinks(t: Tables, evs: seq<Event>)
    requires Consistent(t)
    ensures DirectoryGrows(t, Run(t, evs))
    decreases |evs|
  {
    if evs != [] {
      var t1 := Step(t, evs[0]).tables;
      DirectoryNeverShrinks(t1, evs[1..]);
      assert DirectoryGrows(t, t1) && DirectoryGrows(t1, Run(t1, evs[1..]));
    }
  }

  /** Only its own close event unbinds a connection: logins elsewhere, closes of others and every message leave its reverse entry. */
  lemma {:induction false} StaysBoundUntilClosed(t: Tables, evs: seq<Event>, c: Conn)
    requires Consistent(t)
    requires c in t.socketDevice
    requires forall i :: 0 <= i < |evs| ==> evs[i] != Closed(c)
    ensures c in Run(t, evs).socketDevice
    decreases |evs|
  {
    if evs != [] {
      StaysBound(t, evs[0], c);
      StaysBoundUntilClosed(Step(t, evs[0]).tables, evs[1..], c);
    }
  }

  /** One event other than its own close leaves a bound connection bound (a login may rebind it to another device). */
  lemma StaysBound(t: Tables, e: Event, c: Conn)
    requires Consistent(t)
    requires c in t.socketDevice
    requires e != Closed(c)
    ensures c in Step(t, e).tables.socketDevice
  {
  }

  /** A login by the connection itself is the only event that binds it. */
  lemma {:induction false} OnlyLoginBinds(t: Tables, evs: seq<Event>, c: Conn)
    requires Consistent(t)
    requires c !in t.socketDevice
    requires forall i :: 0 <= i < |evs| ==> !(evs[i].Received? && evs[i].from == c && evs[i].msg.Login?)
    ensures c !in Run(t, evs).socketDevice
    decreases |evs|
  {
    if evs != [] {
      StaysUnbound(t, evs[0], c);
      OnlyLoginBinds(Step(t, evs[0]).tables, evs[1..], c);
    }
  }

  lemma StaysUnbound(t: Tables, e: Event, c: Conn)
    requires Consistent(t)
    requires c !in t.socketDevice
    requires !(e.Received? && e.from == c && e.msg.Login?)
    ensures c !in Step(t, e).tables.socketDevice
  {
  }

  /** A device id gets a connection only through a login naming that device. */
  lemma {:induction false} OnlyLoginRegisters(t: Tables, evs: seq<Event>, d: DeviceId)
    requires Consistent(t)
    requires d !in t.devices
    requires forall i :: 0 <= i < |evs| ==> !(evs[i].Received? && evs[i].msg.Login? && evs[i].msg.device == d)
    ensures d !in Run(t, evs).devices
    decreases |evs|
  {
    if evs != [] {
      assert d !in Step(t, evs[0]).tables.devices;
      OnlyLoginRegisters(Step(t, evs[0]).tables, evs[1..], d);
    }
  }

  // ----------------------------------------------------------------- login

  /**
   After any login attempt, repeating it from another connection is refused
   and leaves the first binding in place.
   */
  lemma DuplicateLoginRejected(t: Tables, ws: Conn, ws2: Conn, name: Name, device: DeviceId)
    ensures var t1 := HandleLogin(t, ws, name, device).tables;
            && HandleLogin(t1, ws2, name, device) == Effect(t1, [Send(Socket(ws2), LoginRejected)])
            && t1.devices[device] == (if AlreadyLoggedIn(t, name, device) then t.devices[device] else ws)
  {
  }

  /**
   A login whose registry entry vanished without a close event (stale state)
   is accepted again and rebinds the device to the new connection.
   */
  lemma SelfHealingLogin(t: Tables, ws: Conn, ws2: Conn, name: Name, device: DeviceId)
    ensures var t1 := HandleLogin(t, ws, name, device).tables;
            var stale := t1.(devices := t1.devices - {device});
            var r := HandleLogin(stale, ws2, name, device);
            && r.sends == [Send(Socket(ws2), LoginAccepted(name, device))]
            && r.tables.devices[device] == ws2
  {
  }

  /**
   A re-login of a bound device under a different name from another
   connection is accepted and evicts nobody: both connections now map to the
   device, and both names list it.
   */
  lemma ReloginKeepsOldBinding(t: Tables, ws: Conn, ws2: Conn, n1: Name, n2: Name, device: DeviceId)
    requires ws != ws2 && n1 != n2
    ensures var t1 := HandleLogin(t, ws, n1, device).tables;
            var r := HandleLogin(t1, ws2, n2, device);
            !AlreadyLoggedIn(t, n1, device) ==>
              && r.sends == [Send(Socket(ws2), LoginAccepted(n2, device))]
              && r.tables.socketDevice[ws] == device && r.tables.socketDevice[ws2] == device
              && device in r.tables.userDevices[n1] && device in r.tables.userDevices[n2]
  {
  }

  /**
   Closing the older of two connections bound to the same device removes the
   device's registry entry although it belongs to the newer, still bound,
   connection.
   */
  lemma CloseDropsNewerBinding(t: Tables, ws: Conn, ws2: Conn, device: DeviceId)
    requires ws != ws2 && |device| > 0
    requires Get(t.socketDevice, ws) == Some(device) && Get(t.socketDevice, ws2) == Some(device)
    requires Get(t.devices, device) == Some(ws2)
    ensures var r := HandleClose(t, ws).tables;
            device !in r.devices && Get(r.socketDevice, ws2) == Some(device)
  {
  }

  // --------------------------------------------------------------- transfer

  /**
   Transfer trusts its input: a device that `name` has not logged in becomes
   active, and the only send that reaches a connection is the sender's own
   acknowledgement.
   */
  lemma TransferToForeignDevice(t: Tables, ws: Conn, name: Name, device: DeviceId)
    requires name in t.userDevices && device !in t.userDevices[name]
    ensures var r := HandleTransfer(t, ws, name, device);
            && r.tables.activeDevice[name] !in r.tables.userDevices[name]
            && Delivered(r.sends) == [(ws, TransferAccepted)]
  {
  }

  // ----------------------------------------------------------------- relay

  /** A relay addressed to a device whose registered connection is the sender's sends nothing and changes nothing. */
  lemma NoSelfEcho(t: Tables, ws: Conn, m: Message)
    requires Consistent(t)
    requires m.Offer? || m.Answer? || m.Candidate?
    requires m.device in t.devices && t.devices[m.device] == ws
    ensures Step(t, Received(ws, m)) == Effect(t, [])
  {
  }

  /**
   A connection still bound to device `d` after `d` logged in again on a newer
   connection (see ReloginKeepsOldBinding) is not stopped by the guard when it
   addresses `d` itself: its offer reaches the newer connection.
   */
  lemma StaleSelfOfferReachesNewer(t: Tables, ws: Conn, ws2: Conn, name: Name, d: DeviceId, offer: Payload)
    requires Consistent(t)
    requires ws != ws2 && |d| > 0
    requires Get(t.socketDevice, ws) == Some(d) && Get(t.devices, d) == Some(ws2)
    ensures d in t.deviceUser
    ensures Step(t, Received(ws, Offer(name, d, offer))).sends
            == [Send(Socket(ws2), OfferRelay(offer, t.deviceUser[d], d))]
  {
  }

  // ---------------------------------------------------------- default arm

  /** The default arm: any other or absent type gets exactly one error reply, to the sender only, and no table changes. */
  lemma DefaultArm(t: Tables, ws: Conn, m: Message)
    requires Consistent(t)
    requires m.Unknown? || m.Untyped?
    ensures Step(t, Received(ws, m)) == Effect(t, [Send(Socket(ws), Error(NotFoundText(m)))])
  {
  }

  /** A frame that is not valid JSON gets the error reply for an undefined type, and nothing else happens. */
  lemma MalformedFrameAnswered(t: Tables, ws: Conn)
    requires Consistent(t)
    ensures Step(t, Received(ws, Decode(Malformed)))
            == Effect(t, [Send(Socket(ws), Error("Command not found: undefined"))])
  {
    assert Decode(Malformed) == Untyped;
    assert KindOf(Untyped) == None;
    assert NotFoundText(Untyped) == "Command not found: " + "undefined";
    assert "Command not found: " + "undefined" == "Command not found: undefined";
  }

  /** An unrecognised type is echoed back in the error text, to the sender only. */
  lemma UnknownKindAnswered(t: Tables, ws: Conn, f: Frame)
    requires Consistent(t)
    requires f.Object? && f.kind.Some? && f.kind.value !in KnownKinds
    ensures Step(t, Received(ws, Decode(f)))
            == Effect(t, [Send(Socket(ws), Error("Command not found: " + f.kind.value))])
  {
  }

  // ---------------------------------------------------- session teardown

  /** Two single-device users whose device ids equal their names, each logged in on its own connection. */
  function TwoUsers(): Tables
  {
    var t1 := HandleLogin(Empty, 1, "A", "A").tables;
    HandleLogin(t1, 2, "B", "B").tables
  }

  /** A offers to B and B answers A: both calls record under B's name. */
  function InCall(): Tables
  {
    var t1 := HandleOffer(TwoUsers(), 1, "B", "B", "sdp-offer").tables;
    HandleAnswer(t1, 2, "A", "A", "sdp-answer").tables
  }

  lemma InCallState()
    ensures InCall().connections == map["B" := "A"]
    ensures InCall().devices == map["A" := 1, "B" := 2]
    ensures InCall().socketDevice == map[1 := "A", 2 := "B"]
  {
  }

  /** When the callee closes, the caller is told to leave, but the callee's own entry is the one left behind. */
  lemma CalleeCloseNotifiesCaller()
    ensures HandleClose(InCall(), 2) == Effect(InCall().(devices := map["A" := 1], socketDevice := map[1 := "A"],
                                                   connections := map["B" := "A"]),
                                         [Send(Socket(1), LeaveNotice)])
  {
    InCallState();
    var t := InCall();
    assert Get(t.socketDevice, 2) == Some("B");
    assert Get(t.connections, "B") == Some("A");
    assert (t.devices - {"B"}) == map["A" := 1];
    assert (t.socketDevice - {2}) == map[1 := "A"];
    assert t.connections - {"A"} == map["B" := "A"];
  }

  /** When the caller closes, nobody is told: the session was recorded under the callee's name only. */
  lemma CallerCloseNotifiesNobody()
    ensures HandleClose(InCall(), 1).sends == []
    ensures HandleClose(InCall(), 1).tables.connections == map["B" := "A"]
  {
  }
}
