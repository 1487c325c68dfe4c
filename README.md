# Signaling coordinator: a verified model

This project models the WebSocket signaling coordinator of the backend in
`apps/backend/main.ts`. The coordinator lets devices log in under a user
name, moves a name's "active device", and relays WebRTC offers, answers and
ICE candidates between live connections. It never touches media. It keeps
six in-memory tables:

- `devices`: device id to connection.
- `socketDevice`: connection to device id.
- `userDevices`: name to the set of its device ids.
- `deviceUser`: device id to name.
- `activeDevice`: name to device id.
- `connections`: a best-effort "who to tell when I leave" relation.

An inbound frame is decoded, then one `case` of the message handler runs as
one atomic step. Each step changes some tables and makes zero or more sends.
Closing a connection is another step of the same kind.

The project has four files:

- `wire.dfy` (module `Wire`): the codec-facing types.
  - `Frame` is what JSON parsing yields. A malformed frame is the codec's `{}`.
  - `Decode` turns a frame into the tagged `Message` the router switches on.
  - `Reply` lists the outbound message shapes.
  - A `Send` is a target paired with a reply. `Delivered` keeps only the sends
    whose target is a real connection.
- `signaling.dfy` (module `Signaling`): the six tables as a `Tables` value.
  - One pure function per `case` arm, plus one for the close handler. Each
    returns the new tables and the sends, in order.
  - `Step` dispatches one event. `Run` folds `Step` over a sequence of events.
  - `Consistent` is the table invariant that every reachable state satisfies.
- `properties.dfy` (module `SignalingProperties`): lemmas of three kinds.
  - Facts about whole runs, proved by induction on the event sequence.
  - Login, relay and error-reply behaviour, for all inputs.
  - Concrete runs showing where the code falls short of a one-connection-per-device
    registry and of symmetric session teardown.
- `coordinator.dfy` (module `Backend`): class `Coordinator`.
  - Its fields are the six tables, updated in place.
  - It has one method per message kind, plus `OnMessage` and `OnClose`.
  - Each method returns its sends. Its `ensures` says that the new state and
    the sends are exactly what the matching `Signaling` function computes from
    the old state, so the lemmas about `Signaling` hold of the object too.

Connections are opaque ids (`nat`). Offer, answer and candidate payloads are
opaque strings relayed unchanged.

## Behaviour reproduced as written

The model follows the code as written. Where the code falls short of what a
signaling coordinator of this kind is meant to do, both are given below.

- **Re-login evicts nobody.** A one-connection-per-device registry would close
  the old connection when a device id is bound to a new one, so that device
  ids and connections stay in one-to-one correspondence. The code only
  overwrites `devices[device]`. The old connection keeps its `socketDevice`
  entry (`ReloginKeepsOldBinding`).
- **A stale connection can reach its own device.** Because of this, a
  connection still bound to device `d` after `d` logged in on a newer
  connection passes the relay guard when it addresses `d` itself. Its offer,
  answer or candidate reaches the newer connection
  (`StaleSelfOfferReachesNewer`).
- **A device can sit under two names.** A re-login under another name
  overwrites `deviceUser` but leaves the old name's set untouched, so a device
  can belong to more than one name (`ReloginKeepsOldBinding`).
- **Transfer is permissive, and its notice goes nowhere.**
  - Any device can be made active, including one the name never logged in
    (`TransferToForeignDevice`).
  - The "superseded" notice is passed the old active device's id, or
    `undefined`, where a connection is expected. It can never reach a
    connection, so the previously active device is never told.
    The model records it as a send to a `DeviceAddress` or to `Undefined`.
- **`connections` mixes key kinds.** An offer writes
  `connections[<addressed name>] = <sender name>`. An answer writes
  `connections[<sender name>] = <addressed name>`. A leave deletes
  `connections[<sender device id>]`. A close reads `connections[<device id>]`.
  A device-to-device session table would let teardown notify the peer
  whichever side leaves first. In the code, a peer is notified only
  when names double as device ids, and then only when the callee closes
  (`CalleeCloseNotifiesCaller`, `CallerCloseNotifiesNobody`). When the callee
  closes, the entry left behind is the callee's own.
- **Leave uses a name as a device id.** The `leave` notice goes to
  `devices[data.name]`.
- **Close can delete a newer binding.** `OnClose` deletes `devices[d]` without
  checking that the entry still points to the closing connection
  (`CloseDropsNewerBinding`).
- **Truthiness.** `if (user1)` and `typeof x === 'string' && x.length > 0` both
  mean "defined and non-empty". So a connection bound to the empty device id
  counts as unbound, both at close and in the relay guard.
- **The error text.** An unknown `type` gets the reply
  `"Command not found: " + type`. For a frame with no `type`, including a
  malformed one, the text ends in `undefined`.

## Model

| member | source | states |
|---|---|---|
| `Wire.Decode` | apps/backend/main.ts:35-44 | A malformed frame (the codec's `{}`, packages/shared/utils.ts:11-13) decodes to an untyped message. An object keeps its `type`. Any other `type` decodes to `Unknown` and is never one of the six known kinds. The kind's fields are carried over unchanged. |
| `Wire.Delivered` | packages/shared/utils.ts:27-30 | A `(connection, reply)` pair is delivered exactly when some send addresses that reply to that connection; sends to a device id or to `undefined` are dropped. |
| `Wire.DeliveredOne` | packages/shared/utils.ts:27-30 | A single send is delivered as itself when addressed to a connection, and not at all otherwise. |
| `Wire.DeliveredAppend` | packages/shared/utils.ts:27-30 | The deliveries of a concatenation of sends are the concatenated deliveries, so with `DeliveredOne` delivery keeps the sends' order and multiplicity. |
| `Signaling.HandleLogin` | apps/backend/main.ts:46-80 | Rejects with `login{success:false}` and leaves every table unchanged exactly when the device is in `userDevices[name]`, `deviceUser[device] = name` and `devices` has the device. Otherwise it binds `devices[device] = ws`, `socketDevice[ws] = device` and `deviceUser[device] = name`. It adds the device to `name`'s set and leaves other names' sets alone. It sets `activeDevice[name]` only when `name` had no set before. It replies `login{success:true}`. It never shrinks the directory and preserves `Consistent`. |
| `Signaling.HandleTransfer` | apps/backend/main.ts:82-97 | Sets `activeDevice[name] = device` and changes no other table. It acknowledges the sender and addresses a `transfer{success:false, device}` notice to the previously active device id, or to `undefined`. Only the acknowledgement reaches a connection. Preserves `Consistent`. |
| `Signaling.HandleOffer` | apps/backend/main.ts:99-126 | Sends nothing and changes nothing unless three things hold: `devices[device]` exists, it is not the sender's connection, and the sender's device id is non-empty. Otherwise it sets `connections[name] = <sender name>` and forwards `offer{offer, name: <sender name>, device: <sender device>}`. It never sends to the sender and preserves `Consistent`. |
| `Signaling.HandleAnswer` | apps/backend/main.ts:128-150 | Same guard as offer. When it passes, it sets `connections[<sender name>] = name` and forwards `answer{answer, device: <sender device>}`. It never sends to the sender and preserves `Consistent`. |
| `Signaling.HandleCandidate` | apps/backend/main.ts:152-172 | Changes no table. It forwards `candidate{candidate}` exactly when the relay guard holds, and never to the sender. |
| `Signaling.HandleLeave` | apps/backend/main.ts:174-192 | Deletes `connections[<sender device>]` when the sender is bound to a non-empty id, and changes nothing else. It sends `leave{}` to `devices[name]` only if that entry exists and is not the sender's connection. Preserves `Consistent`. |
| `Signaling.HandleClose` | apps/backend/main.ts:204-228 | Closing an unbound connection changes and sends nothing. For a bound device `d`, it removes `devices[d]` and `socketDevice[ws]` and keeps the identity tables. If `connections[d] = p`, it deletes `connections[p]` and sends `leave{}` to `devices[p]` if that entry still exists. It sends at most one message and preserves `Consistent`. |
| `Signaling.Step` | apps/backend/main.ts:43-202 | Dispatches one event (a decoded message to its `case` arm, or a close) and preserves `Consistent` and never shrinks the identity directory. |
| `Signaling.Run` | apps/backend/main.ts:15-23 | Handles a sequence of events one at a time; over any sequence the tables stay `Consistent`. |
| `SignalingProperties.ReachableConsistent` | apps/backend/main.ts:15-23 | Every state reachable from empty tables is `Consistent`. |
| `SignalingProperties.DirectoryNeverShrinks` | apps/backend/main.ts:63-69 | Over any run, no name is removed, no name's device set loses a device and no device loses its owner record. |
| `SignalingProperties.StaysBound` | apps/backend/main.ts:207-210 | One event other than its own close leaves a bound connection bound (a login may rebind it to another device). |
| `SignalingProperties.StaysBoundUntilClosed` | apps/backend/main.ts:207-210 | A bound connection stays bound over any run that does not close it. |
| `SignalingProperties.StaysUnbound` | apps/backend/main.ts:60-61 | One step that is not a login from the connection leaves an unbound connection unbound. |
| `SignalingProperties.OnlyLoginBinds` | apps/backend/main.ts:60-61 | Over any run, an unbound connection becomes bound only through its own login. |
| `SignalingProperties.OnlyLoginRegisters` | apps/backend/main.ts:59-60 | Over any run, a device id gets a connection only through a login that names it. |
| `SignalingProperties.DuplicateLoginRejected` | apps/backend/main.ts:50-57 | After any login attempt, repeating it from another connection is rejected with no change, and the first binding is unaffected. |
| `SignalingProperties.SelfHealingLogin` | apps/backend/main.ts:51 | If a device's registry entry vanished without a close, logging in again is accepted and rebinds the device to the new connection. |
| `SignalingProperties.ReloginKeepsOldBinding` | apps/backend/main.ts:59-69 | A re-login of a device under another name from another connection is accepted. Afterwards both connections map to the device, and both names list it. |
| `SignalingProperties.CloseDropsNewerBinding` | apps/backend/main.ts:207-210 | Closing the older of two connections bound to one device removes the device's registry entry, while the newer connection stays bound to it. |
| `SignalingProperties.TransferToForeignDevice` | apps/backend/main.ts:83-95 | Transfer can make active a device the name does not list. Only the sender's acknowledgement is delivered. |
| `SignalingProperties.NoSelfEcho` | apps/backend/main.ts:109-112 | An offer, answer or candidate addressed to a device whose registered connection is the sender's sends nothing and changes nothing. |
| `SignalingProperties.StaleSelfOfferReachesNewer` | apps/backend/main.ts:103-122 | A connection still bound to device `d` while `devices[d]` is a newer connection can offer to `d` itself, and the offer reaches the newer connection. |
| `SignalingProperties.DefaultArm` | apps/backend/main.ts:194-200 | Any other or absent `type` yields exactly one `error{"Command not found: ..."}` reply, to the sender only, with all tables unchanged. |
| `SignalingProperties.MalformedFrameAnswered` | apps/backend/main.ts:194-200 | A malformed frame gets exactly `error{"Command not found: undefined"}`, to the sender, with no table change. |
| `SignalingProperties.UnknownKindAnswered` | apps/backend/main.ts:194-200 | A frame whose `type` is not a known kind gets exactly `error{"Command not found: " + type}`, to the sender, with no table change. |
| `SignalingProperties.InCallState` | apps/backend/main.ts:109-146 | Two users whose names equal their device ids: after A offers to B and B answers, `connections` holds only `B -> A`. |
| `SignalingProperties.CalleeCloseNotifiesCaller` | apps/backend/main.ts:213-224 | In that call, closing B sends one `leave{}` to A's connection, and deletes `connections[A]` while `connections[B]` remains. |
| `SignalingProperties.CallerCloseNotifiesNobody` | apps/backend/main.ts:213-214 | In that call, closing A sends nothing and leaves `connections` as it was. |
| `Backend.Coordinator.constructor` | apps/backend/main.ts:16-23 | All six tables start empty, and the object invariant holds. |
| `Backend.Coordinator.OnMessage` | apps/backend/main.ts:32-203 | Decodes the frame and runs the matching arm in place. New state and sends are those of `Signaling.Step`, and the invariant is kept. |
| `Backend.Coordinator.OnLogin` | apps/backend/main.ts:46-80 | Updates the fields in place, exactly as `Signaling.HandleLogin`, and keeps the invariant. |
| `Backend.Coordinator.OnTransfer` | apps/backend/main.ts:82-97 | Updates `activeDevice` in place, exactly as `Signaling.HandleTransfer`. |
| `Backend.Coordinator.OnOffer` | apps/backend/main.ts:99-126 | Updates `connections` in place and relays, exactly as `Signaling.HandleOffer`. |
| `Backend.Coordinator.OnAnswer` | apps/backend/main.ts:128-150 | Updates `connections` in place and relays, exactly as `Signaling.HandleAnswer`. |
| `Backend.Coordinator.OnCandidate` | apps/backend/main.ts:152-172 | Changes no field. Its sends are those of `Signaling.HandleCandidate`. |
| `Backend.Coordinator.OnLeave` | apps/backend/main.ts:174-192 | Updates `connections` in place and notifies, exactly as `Signaling.HandleLeave`. |
| `Backend.Coordinator.OnClose` | apps/backend/main.ts:204-228 | Updates `devices`, `socketDevice` and `connections` in place and notifies, exactly as `Signaling.HandleClose`. |

## Left out

- The HTTP routes, the Deno server start-up, the `onOpen` handler and all console logging are not modelled. They change no table.
- Interleaving at `await` points and concurrency across connections are not modelled. Each handler is modelled as one atomic step.
- A failing send is not modelled. `sendTo` on a device id string or on `undefined` (the transfer notice, apps/backend/main.ts:91) throws a TypeError after the state change and after the acknowledgement. Inside the async `onMessage` nothing catches it, so it becomes an unhandled promise rejection; its effect on the process (a log line, or termination under a strict runtime setting) is not modelled. The model records that send and shows, through `Delivered`, that it reaches nobody.
- The JSON codec is reduced to `Frame`: text decoding, `Blob` reading and `JSON.parse` happen outside the model.
- A frame that is valid JSON but not an object (for example `null`) is not modelled. Neither are absent or non-string `name`/`device` fields, or a non-string `type`. The model's frames carry string fields and an optional string type.
- Signaling.HandleOffer and Signaling.HandleAnswer require that the sender's device has a recorded owner. The source dereferences that owner with `!`. `Consistent` implies the requirement, and every reachable state is `Consistent`.
- `socketDevice` is a `WeakMap` in the source. Its garbage-collection semantics are not modelled: it is an ordinary map that only the handlers change.
- The frontend (UI components, the WebRTC peer-connection calls, the client's reconnect timers) and the build configuration are not part of this model.
