/**
 * The session object itself: one instance owns the protocol client and the
 * four fields the bridge keeps about it. Each method changes the fields step
 * by step, as the service does, and is proved to end in exactly the state,
 * result and device-call trace that the matching function of SessionSpec
 * gives. The device calls are not performed: each method takes, as
 * parameters, how every call it may issue ends, and appends the calls it
 * does issue to the ghost trace `calls`.
 */
module Service {
  import opened Wrappers
  import opened Js
  import Zk = ZkClient
  import Spec = SessionSpec

  class DeviceService {
    var connected: bool
    var device: Option<Zk.Handle>
    var deviceInfo: Option<Zk.DeviceInfo>
    var realtimeMode: bool
    /** Every protocol-client call this session has attempted, oldest first. */
    ghost var calls: seq<Zk.Call>

    function Snapshot(): Spec.State
      reads this
    {
      Spec.State(connected, device, realtimeMode, deviceInfo)
    }

    constructor ()
      ensures Snapshot() == Spec.Initial && calls == []
    {
      device := None;
      connected := false;
      deviceInfo := None;
      realtimeMode := false;
      calls := [];
    }

    /** Connect to the terminal unless already connected; roll back on any failure. */
    method Connect(ip: Option<string>, port: Option<int>, timeout: Option<int>, env: Spec.Config,
                   socket: Zk.Outcome, info: Zk.Reply<Zk.DeviceInfo>)
      returns (r: Result<Spec.Ack, Spec.SessionError>)
      modifies this`connected, this`device, this`deviceInfo, this`calls
      ensures var step := Spec.Connect(old(Snapshot()), ip, port, timeout, env, socket, info);
              Snapshot() == step.post && r == step.result && calls == old(calls) + step.calls
    {
      if connected && device.Some? {
        return Ok(Spec.Ack("Already connected"));
      }

      var deviceIp := TextOr(ip, env.ip);
      var devicePort := NumberOr(port, NumberOr(env.port, Spec.DefaultPort));
      var deviceTimeout := NumberOr(timeout, NumberOr(env.timeout, Spec.DefaultTimeout));

      if !TruthyText(deviceIp) {
        connected, device := false, None;
        return Err(Spec.MissingIp);
      }

      device := Some(Zk.Handle(deviceIp.value, devicePort, deviceTimeout, Spec.ClientInPort));
      calls := calls + [Zk.CreateSocket(device.value)];
      if socket.Fail? {
        connected, device := false, None;
        return Err(Spec.DeviceError(socket.message));
      }

      connected := true;
      calls := calls + [Zk.GetInfo];
      if info.Threw? {
        connected, device := false, None;
        return Err(Spec.DeviceError(info.message));
      }
      deviceInfo := Some(info.value);
      r := Ok(Spec.Connected("Connected successfully", info.value));
    }

    /** Leave real-time mode if needed, then close the transport and forget the device. */
    method Disconnect(disable: Zk.Outcome, close: Zk.Outcome) returns (r: Result<Spec.Ack, Spec.SessionError>)
      modifies this
      ensures var step := Spec.Disconnect(old(Snapshot()), disable, close);
              Snapshot() == step.post && r == step.result && calls == old(calls) + step.calls
    {
      if device.None? || !connected {
        return Ok(Spec.Ack("Already disconnected"));
      }

      if realtimeMode {
        calls := calls + [Zk.DisableDevice];
        if disable.Fail? {
          return Err(Spec.DeviceError(disable.message));
        }
        realtimeMode := false;
      }

      calls := calls + [Zk.Disconnect];
      if close.Fail? {
        return Err(Spec.DeviceError(close.message));
      }
      connected := false;
      device := None;
      deviceInfo := None;
      r := Ok(Spec.Ack("Disconnected successfully"));
    }

    /** Report the three public fields; changes nothing. */
    method GetStatus() returns (status: Spec.Status)
      ensures status == Spec.StatusOf(Snapshot())
    {
      status := Spec.Status(connected, realtimeMode, deviceInfo);
    }

    /** The guard in front of every device command. */
    method EnsureConnected() returns (refusal: Option<Spec.SessionError>)
      ensures refusal.None? <==> Spec.Live(Snapshot())
      ensures refusal.Some? ==> refusal.value == Spec.NotConnected
    {
      if !connected || device.None? {
        refusal := Some(Spec.NotConnected);
      } else {
        refusal := None;
      }
    }

    /** Fetch device information afresh and cache it. */
    method GetDeviceInfo(reply: Zk.Reply<Zk.DeviceInfo>) returns (r: Result<Zk.DeviceInfo, Spec.SessionError>)
      modifies this`deviceInfo, this`calls
      ensures var step := Spec.GetDeviceInfo(old(Snapshot()), reply);
              Snapshot() == step.post && r == step.result && calls == old(calls) + step.calls
    {
      var refusal := EnsureConnected();
      if refusal.Some? {
        return Err(refusal.value);
      }
      calls := calls + [Zk.GetInfo];
      if reply.Threw? {
        return Err(Spec.DeviceError(reply.message));
      }
      deviceInfo := Some(reply.value);
      r := Ok(reply.value);
    }

    /** Restart the terminal and drop the connection; real-time flag and cached info are not touched. */
    method Reboot(restart: Zk.Outcome) returns (r: Result<Spec.Ack, Spec.SessionError>)
      modifies this`connected, this`device, this`calls
      ensures var step := Spec.Reboot(old(Snapshot()), restart);
              Snapshot() == step.post && r == step.result && calls == old(calls) + step.calls
    {
      var refusal := EnsureConnected();
      if refusal.Some? {
        return Err(refusal.value);
      }
      calls := calls + [Zk.RestartDevice];
      if restart.Fail? {
        return Err(Spec.DeviceError(restart.message));
      }
      connected := false;
      device := None;
      r := Ok(Spec.Ack("Device is rebooting"));
    }

    method GetUsers(reply: Zk.Reply<seq<Zk.UserRecord>>) returns (r: Result<seq<Zk.UserRecord>, Spec.SessionError>)
      modifies this`calls
      ensures var step := Spec.GetUsers(old(Snapshot()), reply);
              Snapshot() == step.post && r == step.result && calls == old(calls) + step.calls
    {
      var refusal := EnsureConnected();
      if refusal.Some? {
        return Err(refusal.value);
      }
      calls := calls + [Zk.GetUsers];
      match reply
      case Threw(m) => r := Err(Spec.DeviceError(m));
      case Done(users) => r := Ok(users);
    }

    method SetUser(user: Zk.UserFields, outcome: Zk.Outcome) returns (r: Result<Spec.Ack, Spec.SessionError>)
      modifies this`calls
      ensures var step := Spec.SetUser(old(Snapshot()), user, outcome);
              Snapshot() == step.post && r == step.result && calls == old(calls) + step.calls
    {
      var refusal := EnsureConnected();
      if refusal.Some? {
        return Err(refusal.value);
      }
      calls := calls + [Zk.SetUser(user)];
      if outcome.Fail? {
        return Err(Spec.DeviceError(outcome.message));
      }
      r := Ok(Spec.Enrolled("User enrolled successfully",
                            Spec.EnrolledUser(user.uid, user.userid, user.name, user.role, user.cardno)));
    }

    method DeleteUser(uid: int, outcome: Zk.Outcome) returns (r: Result<Spec.Ack, Spec.SessionError>)
      modifies this`calls
      ensures var step := Spec.DeleteUser(old(Snapshot()), uid, outcome);
              Snapshot() == step.post && r == step.result && calls == old(calls) + step.calls
    {
      var refusal := EnsureConnected();
      if refusal.Some? {
        return Err(refusal.value);
      }
      calls := calls + [Zk.DeleteUser(uid)];
      if outcome.Fail? {
        return Err(Spec.DeviceError(outcome.message));
      }
      r := Ok(Spec.Ack("User deleted successfully"));
    }

    /** Erase the whole user table with the client's single `clearAdminPrivilege` call. */
    method ClearAllUsers(outcome: Zk.Outcome) returns (r: Result<Spec.Ack, Spec.SessionError>)
      modifies this`calls
      ensures var step := Spec.ClearAllUsers(old(Snapshot()), outcome);
              Snapshot() == step.post && r == step.result && calls == old(calls) + step.calls
    {
      var refusal := EnsureConnected();
      if refusal.Some? {
        return Err(refusal.value);
      }
      calls := calls + [Zk.ClearAdminPrivilege];
      if outcome.Fail? {
        return Err(Spec.DeviceError(outcome.message));
      }
      r := Ok(Spec.Ack("All users cleared successfully"));
    }

    method GetAttendance(reply: Zk.Reply<seq<Zk.AttendanceRecord>>)
      returns (r: Result<seq<Zk.AttendanceRecord>, Spec.SessionError>)
      modifies this`calls
      ensures var step := Spec.GetAttendance(old(Snapshot()), reply);
              Snapshot() == step.post && r == step.result && calls == old(calls) + step.calls
    {
      var refusal := EnsureConnected();
      if refusal.Some? {
        return Err(refusal.value);
      }
      calls := calls + [Zk.GetAttendances];
      match reply
      case Threw(m) => r := Err(Spec.DeviceError(m));
      case Done(logs) => r := Ok(logs);
    }

    method ClearAttendance(outcome: Zk.Outcome) returns (r: Result<Spec.Ack, Spec.SessionError>)
      modifies this`calls
      ensures var step := Spec.ClearAttendance(old(Snapshot()), outcome);
              Snapshot() == step.post && r == step.result && calls == old(calls) + step.calls
    {
      var refusal := EnsureConnected();
      if refusal.Some? {
        return Err(refusal.value);
      }
      calls := calls + [Zk.ClearAttendanceLog];
      if outcome.Fail? {
        return Err(Spec.DeviceError(outcome.message));
      }
      r := Ok(Spec.Ack("Attendance logs cleared successfully"));
    }

    /** Register the push callback once; the flag is set only after registration returned. */
    method EnableRealtimeMode(outcome: Zk.Outcome) returns (r: Result<Spec.Ack, Spec.SessionError>)
      modifies this`realtimeMode, this`calls
      ensures var step := Spec.EnableRealtime(old(Snapshot()), outcome);
              Snapshot() == step.post && r == step.result && calls == old(calls) + step.calls
    {
      var refusal := EnsureConnected();
      if refusal.Some? {
        return Err(refusal.value);
      }
      if realtimeMode {
        return Ok(Spec.Ack("Real-time mode already active"));
      }
      calls := calls + [Zk.GetRealTimeLogs];
      if outcome.Fail? {
        return Err(Spec.DeviceError(outcome.message));
      }
      realtimeMode := true;
      r := Ok(Spec.Ack("Real-time mode enabled"));
    }

    /** Leave real-time mode with `disableDevice`; the flag is cleared only after that returned. */
    method DisableRealtimeMode(outcome: Zk.Outcome) returns (r: Result<Spec.Ack, Spec.SessionError>)
      modifies this`realtimeMode, this`calls
      ensures var step := Spec.DisableRealtime(old(Snapshot()), outcome);
              Snapshot() == step.post && r == step.result && calls == old(calls) + step.calls
    {
      var refusal := EnsureConnected();
      if refusal.Some? {
        return Err(refusal.value);
      }
      if !realtimeMode {
        return Ok(Spec.Ack("Real-time mode already inactive"));
      }
      calls := calls + [Zk.DisableDevice];
      if outcome.Fail? {
        return Err(Spec.DeviceError(outcome.message));
      }
      realtimeMode := false;
      r := Ok(Spec.Ack("Real-time mode disabled"));
    }
  }
}
