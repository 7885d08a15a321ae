# ZKTeco bridge: the device session and the user handlers, in Dafny

The bridge exposes one ZKTeco biometric terminal over an HTTP API. Its core is
the `DeviceService` session object. It keeps four fields: `connected`, the
protocol-client handle `device`, `realtimeMode` and the cached `deviceInfo`.
Every request goes through that object, which checks the connection, makes one
or two calls on the node-zklib client, and updates its fields. The user
handlers in front of it validate and default the enrollment request, look a
user up by `uid`, count users, and turn a thrown error into a 500 answer.

Files:

- `wrappers.dfy`: `Option` (for `null`/`undefined`) and `Result` (for a thrown error).
- `js.dfy`: JavaScript truthiness of optional text and numbers, and the `a || b` defaulting idiom.
- `zk_client.dfy`: the protocol client seen as an oracle. `Call` names every client call. `Outcome` and `Reply` say how a call ended: it returned a value or threw a message.
- `session_spec.dfy`: the session as a pure state machine. Each operation is a function from the state before the call and the outcomes of its client calls to a `Step`: the new state, the result or error, and the client calls issued in order. `Op`, `Apply` and `Run` compose operations. The lemmas state the session's properties over single calls and over whole runs.
- `device_service.dfy`: the class `DeviceService` with the four fields and a ghost trace `calls`. Each method changes the fields step by step, with the early returns and the `catch` rollback of the source. Each is proved to end in exactly the state, result and trace that the matching `SessionSpec` function gives. Each method's `modifies` clause names only the fields that method can change. For example, `Reboot` cannot touch `realtimeMode` or `deviceInfo`.
- `user_controller.dfy`: the handlers `enrollUser`, `getUsers`, `getUser`, `deleteUser` and `clearAllUsers` as pure functions of the request and of what the session answered.

The model follows the code where it differs from what one might expect of the session:

- `reboot` drops `connected` and `device` but keeps `realtimeMode` and `deviceInfo`. So "real-time mode implies connected" is not an invariant of the code. The model proves that every operation except `reboot` preserves it. It also proves that connect, enable real-time mode, reboot reaches a state that breaks it. After a reconnect, the stale flag makes `enableRealtimeMode` answer "already active" without registering the callback with the new client.
- `reboot` changes state only after `restartDevice` returns. If that call throws, nothing changes and the error is rethrown.
- Leaving real-time mode means calling `disableDevice`. No callback is deregistered.
- A missing address is a plain thrown error with the message "Device IP is required". It is modelled as `SessionError.MissingIp` with that message.
- The code has no lock. Operations are modelled as atomic and run one after another.

## Model

| member | source | states |
|---|---|---|
| `Service.DeviceService.constructor` | services/deviceService.js:5-10 | a new session is disconnected, without a handle, not in real-time mode, with no cached info and an empty trace |
| `Service.DeviceService.Connect` | services/deviceService.js:15-50 | the stepwise connect ends in exactly the state, result and trace `SessionSpec.Connect` gives; it never touches `realtimeMode` |
| `Service.DeviceService.Disconnect` | services/deviceService.js:55-77 | the stepwise disconnect ends in exactly the state, result and trace `SessionSpec.Disconnect` gives |
| `Service.DeviceService.GetStatus` | services/deviceService.js:82-88 | returns connected, realtimeMode and deviceInfo as they are, and changes nothing |
| `Service.DeviceService.EnsureConnected` | services/deviceService.js:269-273 | refuses with NotConnected exactly when the session is not both connected and holding a handle |
| `Service.DeviceService.GetDeviceInfo` | services/deviceService.js:93-103 | matches `SessionSpec.GetDeviceInfo`; changes only `deviceInfo` and the trace |
| `Service.DeviceService.Reboot` | services/deviceService.js:108-120 | matches `SessionSpec.Reboot`; changes only `connected`, `device` and the trace |
| `Service.DeviceService.GetUsers` | services/deviceService.js:125-135 | matches `SessionSpec.GetUsers`; changes only the trace |
| `Service.DeviceService.SetUser` | services/deviceService.js:140-156 | matches `SessionSpec.SetUser`; changes only the trace |
| `Service.DeviceService.DeleteUser` | services/deviceService.js:161-171 | matches `SessionSpec.DeleteUser`; changes only the trace |
| `Service.DeviceService.ClearAllUsers` | services/deviceService.js:177-188 | matches `SessionSpec.ClearAllUsers`; changes only the trace |
| `Service.DeviceService.GetAttendance` | services/deviceService.js:193-203 | matches `SessionSpec.GetAttendance`; changes only the trace |
| `Service.DeviceService.ClearAttendance` | services/deviceService.js:208-218 | matches `SessionSpec.ClearAttendance`; changes only the trace |
| `Service.DeviceService.EnableRealtimeMode` | services/deviceService.js:223-243 | matches `SessionSpec.EnableRealtime`; changes only `realtimeMode` and the trace |
| `Service.DeviceService.DisableRealtimeMode` | services/deviceService.js:248-264 | matches `SessionSpec.DisableRealtime`; changes only `realtimeMode` and the trace |
| `SessionSpec.ClientFor` | services/deviceService.js:22-32 | an address exists iff the argument or the configured IP is non-empty, and the argument wins over the configured IP; port is the argument's, else the configured one, else 4370, and timeout likewise with 5000, where a zero or missing value counts as absent; the in-port is 4000 |
| `SessionSpec.Connect` | services/deviceService.js:15-50 | when already connected: "Already connected", no client call, state unchanged. With no address: MissingIp before any call. Otherwise the first call is `createSocket` on the resolved client. It succeeds iff the address resolves and `createSocket` and `getInfo` both return. A throw from `createSocket` or `getInfo` is rethrown with its own message. Any failure leaves `connected` false and `device` null and keeps `realtimeMode` and `deviceInfo`. Success caches and returns the fetched info after exactly `[createSocket, getInfo]`. Keeps `connected == (device != null)` |
| `SessionSpec.Disconnect` | services/deviceService.js:55-77 | when not connected: "Already disconnected", no call. In real-time mode it calls `disableDevice` first and closes only if that returned; otherwise it calls only `disconnect`. It succeeds iff every call it makes returns, and success restores the initial state and answers "Disconnected successfully". A throwing call's error is rethrown as it is, and on failure `connected`, `device` and `deviceInfo` are unchanged. The flag is cleared only after `disableDevice` returned, and stays cleared when the close then throws |
| `SessionSpec.GetDeviceInfo` | services/deviceService.js:93-103 | refused with no call when not connected; otherwise one `getInfo`, whose value is returned and cached; on a throw nothing changes |
| `SessionSpec.Reboot` | services/deviceService.js:108-120 | refused with no call when not connected; otherwise one `restartDevice`. When it returns, only `connected` and `device` are reset and `realtimeMode` and `deviceInfo` are kept. When it throws, nothing changes and its error is rethrown |
| `SessionSpec.Delegate` | services/deviceService.js:125-135 | the shared shape of a guarded single-call command: no field changes, refused with no call when not connected, else exactly one call whose value or error is passed through |
| `SessionSpec.GetUsers` | services/deviceService.js:125-135 | no field changes; refused with no call when not connected; else one `getUsers`, and the result is the device's list; a throw is rethrown with its own message |
| `SessionSpec.SetUser` | services/deviceService.js:140-156 | no field changes; refused with no call when not connected; else one `setUser` with all six fields; success echoes uid, userid, name, role and cardno but not the password; a throw is rethrown with its own message |
| `SessionSpec.DeleteUser` | services/deviceService.js:161-171 | no field changes; refused with no call when not connected; else one `deleteUser(uid)`; a throw is rethrown with its own message |
| `SessionSpec.ClearAllUsers` | services/deviceService.js:177-188 | no field changes; refused with no call when not connected; else exactly one `clearAdminPrivilege` call; a throw is rethrown with its own message |
| `SessionSpec.GetAttendance` | services/deviceService.js:193-203 | no field changes; refused with no call when not connected; else one `getAttendances`, and the result is the device's log; a throw is rethrown with its own message |
| `SessionSpec.ClearAttendance` | services/deviceService.js:208-218 | no field changes; refused with no call when not connected; else one `clearAttendanceLog`; a throw is rethrown with its own message |
| `SessionSpec.EnableRealtime` | services/deviceService.js:223-243 | refused with no call when not connected. When already active: "already active" with no call. Otherwise one `getRealTimeLogs`: when it returns, the flag is set and the answer is "Real-time mode enabled"; when it throws, nothing changes and the error is rethrown |
| `SessionSpec.DisableRealtime` | services/deviceService.js:248-264 | refused with no call when not connected. When inactive: "already inactive" with no call. Otherwise one `disableDevice`: when it returns, the flag is cleared and the answer is "Real-time mode disabled"; when it throws, nothing changes and the error is rethrown |
| `SessionSpec.Apply` | services/deviceService.js:4-274 | every session operation keeps `connected == (device != null)` |
| `SessionSpec.RunKeepsLinked` | services/deviceService.js:6-113 | any run of operations keeps `connected == (device != null)`, across every place the two fields are written (construction, connect and its rollback, disconnect, reboot) |
| `SessionSpec.ReachableLinked` | services/deviceService.js:5-10 | every state reachable from a new session pairs `connected` with a non-null `device` |
| `SessionSpec.CommandRefusedWhenNotLive` | services/deviceService.js:269-273 | each of the ten device commands on a session that is not live fails, calls nothing and changes nothing |
| `SessionSpec.NotLiveCommandsSilent` | services/deviceService.js:269-273 | any run of device commands on a session that is not live issues no client call and leaves the state as it was |
| `SessionSpec.ConnectIdempotent` | services/deviceService.js:17-20 | after a successful connect, a second connect succeeds with no call and no change |
| `SessionSpec.EnableTwiceRegistersOnce` | services/deviceService.js:227-236 | enabling real-time mode twice, the first time successfully, issues `getRealTimeLogs` at most once, and not at all if it was already active |
| `SessionSpec.DisableTwiceDisablesOnce` | services/deviceService.js:252-259 | disabling real-time mode twice, the first time successfully, leaves it off, succeeds, and calls `disableDevice` at most once, and not at all if it was already inactive |
| `SessionSpec.DisableInactiveSilent` | services/deviceService.js:252-254 | disabling an inactive real-time mode succeeds with no call and no change |
| `SessionSpec.ApplyKeepsRealtimeOwned` | services/deviceService.js:6-257 | every operation except `reboot` keeps "real-time mode implies connected", across every place `connected`, `device` or `realtimeMode` is written (disconnect clears the flag first, enable sets it only while connected) |
| `SessionSpec.RunWithoutRebootKeepsRealtimeOwned` | services/deviceService.js:223-264 | a run with no `reboot` keeps "real-time mode implies connected" |
| `SessionSpec.RebootLeavesRealtimeFlag` | services/deviceService.js:111-113 | a successful reboot in real-time mode leaves the flag set on a disconnected session, with `deviceInfo` kept |
| `SessionSpec.RealtimeWithoutConnectionReachable` | services/deviceService.js:108-120 | connect, enable real-time mode and reboot, from a new session, end in real-time mode while disconnected |
| `SessionSpec.StaleRealtimeAfterReconnect` | services/deviceService.js:227-229 | after reboot in real-time mode and a successful reconnect, enabling real-time mode answers "already active" and registers nothing with the new client |
| `SessionSpec.DisconnectFromRealtime` | services/deviceService.js:61-69 | a successful disconnect from real-time mode issues exactly `[disableDevice, disconnect]` and restores the initial state |
| `UserController.ErrorResponse` | controllers/userController.js:28-34 | a thrown error becomes status 500, `success: false`, with the error's message, or the handler's fallback when that message is empty |
| `UserController.Forward` | controllers/userController.js:106-117 | the service's acknowledgement is passed on as 200, and an error becomes that handler's 500 answer |
| `UserController.EnrollFields` | controllers/userController.js:18-25 | passes uid, userid and name through, which are then non-zero and non-empty; password falls back to '', role to 0 and cardno to 0 whenever they are missing or falsy |
| `UserController.EnrollUser` | controllers/userController.js:7-35 | the service is reached iff uid, userid and name are all truthy, and with exactly the defaulted fields. Otherwise the answer is 400 "uid, userid, and name are required". A service error becomes 500 with the fallback "Failed to enroll user" |
| `UserController.EnrollRejectsFalsyUid` | controllers/userController.js:11-16 | a uid of 0 or a missing uid yields 400, never reaches the service, and the answer does not depend on what the service would say |
| `UserController.EnrollEchoesRequest` | controllers/userController.js:18-27 | a valid request on a live session whose `setUser` returns makes exactly one `setUser` call with the defaulted fields. It is answered 200 with the request echoed back, without the password |
| `UserController.GetUsers` | controllers/userController.js:40-55 | on success: 200 with the device's list as `data` and `count` equal to its length; on error: 500 with fallback "Failed to get users" |
| `UserController.FirstMatch` | controllers/userController.js:64 | finds the first position whose uid equals the requested one, or reports that none does; a NaN uid matches nothing |
| `UserController.GetUser` | controllers/userController.js:60-84 | 404 "User not found" iff no user has the requested uid; otherwise 200 with the first user that has it; a service error becomes 500 with fallback "Failed to get user" |
| `UserController.DeleteUser` | controllers/userController.js:89-101 | 200 with the service's acknowledgement iff the service succeeded; otherwise 500 with fallback "Failed to delete user" |
| `UserController.ClearAllUsers` | controllers/userController.js:106-117 | 200 with the service's acknowledgement iff the service succeeded; otherwise 500 with fallback "Failed to clear all users" |
| `UserController.NotConnectedIs500` | controllers/userController.js:77-83 | a command refused for lack of a connection reaches the client as 500 with "Device not connected. Please connect first." |

## Left out

- The node-zklib protocol client: socket I/O, framing and the contents of its answers. Each client call is only an attempted `Call` in the trace plus a parameter saying whether it returned or threw.
- The real-time push callback: its body only logs, and it fires asynchronously. The model records only that `getRealTimeLogs` was called. It does not model event delivery, or delivery after `disableDevice`.
- Concurrency: the source has no lock and interleaves `await`s. Each operation is modelled as atomic and sequential.
- Logging, `process.env` lookup and `parseInt`. The configuration and request values come in already resolved as optional text and numbers. A falsy number is a missing one or 0; a falsy text is a missing or empty one. String-typed numbers (such as `"0"`, which JavaScript treats as truthy), `NaN` ports and fractional values are not modelled. In `getUser` a missing requested uid stands for `NaN`.
- `UserController.DeleteUser`: the `parseInt` of the route parameter is not modelled; the handler is modelled from the service's answer onwards.
- The default parameters `role = 0, cardno = 0` of the service's `setUser` apply only when an argument is `undefined`. The only caller always passes all six, so `SessionSpec.SetUser` takes them explicitly.
- The contents of device information, user records and attendance records beyond `uid` and `name` are opaque maps.
- Stack traces and the exact JSON field layout of success answers. A success answer is modelled by its status, success flag and payload.
- The Express wiring in `index.js` and its API-key middleware. The device and attendance controllers only forward to the service and map errors to 500, so they are not part of this model.
