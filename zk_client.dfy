/**
 * The vocabulary of the terminal's protocol client (the node-zklib library),
 * which the session treats as an oracle: every call it makes is recorded as a
 * `Call`, and the caller supplies whether that call returned or threw.
 */
module ZkClient {

  /** Device-information snapshot returned by `getInfo`; its contents are opaque here. */
  datatype DeviceInfo = DeviceInfo(attributes: map<string, string>)

  /** A user row read from the terminal; only `uid` and `name` matter to the bridge. */
  datatype UserRecord = UserRecord(uid: int, name: string, other: map<string, string>)

  /** An attendance row read from the terminal; opaque beyond its `uid`. */
  datatype AttendanceRecord = AttendanceRecord(uid: int, other: map<string, string>)

  /** The arguments a client instance is constructed with: address, port, timeout, in-port. */
  datatype Handle = Handle(ip: string, port: int, timeout: int, inport: int)

  /** The six arguments of `setUser`. */
  datatype UserFields = UserFields(uid: int, userid: string, name: string, password: string, role: int, cardno: int)

  /** One attempted call on the protocol client, in the order the session issues them. */
  datatype Call =
    | CreateSocket(client: Handle)
    | GetInfo
    | GetUsers
    | SetUser(user: UserFields)
    | DeleteUser(uid: int)
    | ClearAdminPrivilege
    | GetAttendances
    | ClearAttendanceLog
    | RestartDevice
    | GetRealTimeLogs
    | DisableDevice
    | Disconnect

  /** How a call without a useful return value ended. */
  datatype Outcome = Pass | Fail(message: string)

  /** How a call returning a value ended. */
  datatype Reply<+T> = Done(value: T) | Threw(message: string)
}
