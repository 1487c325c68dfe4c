/**
 The backend's signaling coordinator as an object: the six module-level
 tables are fields that the handlers update in place, one method per `case`
 of the message handler plus the close handler.  Every method returns the
 sends it makes, in order, and its new state is the one the matching
 function of `Signaling` computes, so every property proved there holds of
 the object.
 */
module Backend {
  import opened Wire
  import Signaling

  class Coordinator {
    var devices: map<DeviceId, Conn>
    var socketDevice: map<Conn, DeviceId>
    var userDevices: map<Name, set<DeviceId>>
    var deviceUser: map<DeviceId, Name>
    var activeDevice: map<Name, DeviceId>
    var connections: map<string, string>

    /** The current contents of the six tables. */
    function Snapshot(): Signaling.Tables
      reads this
    {
      Signaling.Tables(devices, socketDevice, userDevices, deviceUser, activeDevice, connections)
    }

    ghost predicate Valid()
      reads this
    {
      Signaling.Consistent(Snapshot())
    }

    /** All tables start empty, at process start. */
    constructor ()
      ensures Valid()
      ensures Snapshot() == Signaling.Empty
    {
      devices, socketDevice := map[], map[];
      userDevices, deviceUser := map[], map[];
      activeDevice, connections := map[], map[];
    }

    /** The message handler: decode the frame, then run the matching `case`. */
    method OnMessage(ws: Conn, frame: Frame) returns (sends: seq<Send>)
      requires Valid()
      modifies this
      ensures Valid()
      ensures Signaling.Effect(Snapshot(), sends)
              == Signaling.Step(old(Snapshot()), Signaling.Received(ws, Decode(frame)))
    {
      var m := Decode(frame);
      match m
      case Login(name, device) => sends := OnLogin(ws, name, device);
      case Transfer(name, device) => sends := OnTransfer(ws, name, device);
      case Offer(name, device, offer) => sends := OnOffer(ws, name, device, offer);
      case Answer(name, device, answer) => sends := OnAnswer(ws, name, device, answer);
      case Candidate(_, device, candidate) => sends := OnCandidate(ws, device, candidate);
      case Leave(name, _) => sends := OnLeave(ws, name);
      case Unknown(_) => sends := [Send(Socket(ws), Error(NotFoundText(m)))];
      case Untyped => sends := [Send(Socket(ws), Error(NotFoundText(m)))];
    }

    method OnLogin(ws: Conn, name: Name, device: DeviceId) returns (sends: seq<Send>)
      modifies this
      ensures Signaling.Effect(Snapshot(), sends) == Signaling.HandleLogin(old(Snapshot()), ws, name, device)
      ensures old(Valid()) ==> Valid()
    {
      if name in userDevices && device in userDevices[name]
         && device in deviceUser && deviceUser[device] == name && device in devices {
        sends := [Send(Socket(ws), LoginRejected)];
      } else {
        // The device's previous connection, if any, is neither closed nor unbound.
        devices := devices[device := ws];
        socketDevice := socketDevice[ws := device];
        // Any other name listing this device keeps listing it.
        deviceUser := deviceUser[device := name];
        if name !in userDevices {
          userDevices := userDevices[name := {device}];
          activeDevice := activeDevice[name := device];
        } else {
          userDevices := userDevices[name := userDevices[name] + {device}];
        }
        sends := [Send(Socket(ws), LoginAccepted(name, device))];
      }
    }

    method OnTransfer(ws: Conn, name: Name, device: DeviceId) returns (sends: seq<Send>)
      modifies this
      ensures Signaling.Effect(Snapshot(), sends) == Signaling.HandleTransfer(old(Snapshot()), ws, name, device)
      ensures old(Valid()) ==> Valid()
    {
      var oldActive := if name in activeDevice then DeviceAddress(activeDevice[name]) else Undefined;
      // No check that `device` belongs to `name`.
      activeDevice := activeDevice[name := device];
      // The second send is addressed to a device id (or `undefined`), not to a connection.
      sends := [Send(Socket(ws), TransferAccepted), Send(oldActive, TransferSuperseded(device))];
    }

    method OnOffer(ws: Conn, name: Name, device: DeviceId, offer: Payload) returns (sends: seq<Send>)
      requires Valid()
      modifies this
      ensures Signaling.Effect(Snapshot(), sends) == Signaling.HandleOffer(old(Snapshot()), ws, name, device, offer)
      ensures Valid()
    {
      sends := [];
      if ws in socketDevice && |socketDevice[ws]| > 0 && device in devices && devices[device] != ws {
        var deviceName := socketDevice[ws];
        var userName := deviceUser[deviceName];
        // Keyed by the addressed peer's name as the client gave it.
        connections := connections[name := userName];
        sends := [Send(Socket(devices[device]), OfferRelay(offer, userName, deviceName))];
      }
    }

    method OnAnswer(ws: Conn, name: Name, device: DeviceId, answer: Payload) returns (sends: seq<Send>)
      requires Valid()
      modifies this
      ensures Signaling.Effect(Snapshot(), sends) == Signaling.HandleAnswer(old(Snapshot()), ws, name, device, answer)
      ensures Valid()
    {
      sends := [];
      if ws in socketDevice && |socketDevice[ws]| > 0 && device in devices && devices[device] != ws {
        var deviceName := socketDevice[ws];
        var userName := deviceUser[deviceName];
        // Keyed by the sender's own name.
        connections := connections[userName := name];
        sends := [Send(Socket(devices[device]), AnswerRelay(answer, deviceName))];
      }
    }

    method OnCandidate(ws: Conn, device: DeviceId, candidate: Payload) returns (sends: seq<Send>)
      ensures Signaling.Effect(Snapshot(), sends) == Signaling.HandleCandidate(Snapshot(), ws, device, candidate)
    {
      sends := [];
      if ws in socketDevice && |socketDevice[ws]| > 0 && device in devices && devices[device] != ws {
        sends := [Send(Socket(devices[device]), CandidateRelay(candidate))];
      }
    }

    method OnLeave(ws: Conn, name: Name) returns (sends: seq<Send>)
      modifies this
      ensures Signaling.Effect(Snapshot(), sends) == Signaling.HandleLeave(old(Snapshot()), ws, name)
      ensures old(Valid()) ==> Valid()
    {
      // `devices` is looked up under the message's name.
      var peer := if name in devices then Some(devices[name]) else None;
      if ws in socketDevice && |socketDevice[ws]| > 0 {
        // `connections` is cleared under the sender's device id.
        connections := connections - {socketDevice[ws]};
      }
      sends := [];
      if peer.Some? && peer.value != ws {
        sends := [Send(Socket(peer.value), LeaveNotice)];
      }
    }

    /** The close handler. */
    method OnClose(ws: Conn) returns (sends: seq<Send>)
      modifies this
      ensures Signaling.Effect(Snapshot(), sends) == Signaling.HandleClose(old(Snapshot()), ws)
      ensures old(Valid()) ==> Valid()
    {
      sends := [];
      if ws in socketDevice && |socketDevice[ws]| > 0 {
        var user1 := socketDevice[ws];
        // Removed whether or not this entry still points to `ws`.
        devices := devices - {user1};
        socketDevice := socketDevice - {ws};
        // Looked up under a device id, although offers and answers write names.
        if user1 in connections && |connections[user1]| > 0 {
          var user2 := connections[user1];
          var peer := if user2 in devices then Some(devices[user2]) else None;
          connections := connections - {user2};
          if peer.Some? {
            sends := [Send(Socket(peer.value), LeaveNotice)];
          }
        }
      }
    }
  }
}
