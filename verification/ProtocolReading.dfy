/** What each side reads out of a payload is what the other side put into it. */
module ProtocolReading {
  import opened Wrappers
  import opened Config
  import opened Messages
  import opened Protocol

  function TextAt(p: Payload, name: string): string {
    if name in p && p[name].JString? then p[name].text else ""
  }

  function NumberAt(p: Payload, name: string): int {
    if name in p && p[name].JInt? then p[name].number else 0
  }

  function Texts(items: seq<Json>): seq<string> {
    seq(|items|, i requires 0 <= i < |items| => if items[i].JString? then items[i].text else "")
  }

  function TextsAt(p: Payload, name: string): seq<string> {
    if name in p && p[name].JList? then Texts(p[name].items) else []
  }

  function ToReason(text: string): WaitReason {
    if text == "connecting" then Connecting
    else if text == "vm_stopped" then VmStopped
    else if text == "pairing_required" then PairingRequired
    else if text == "reconnecting" then Reconnecting
    else if text == "degraded" then DegradedWait
    else if text == "vm_not_running" then VmNotRunning
    else if text == "control_error" then ControlError
    else OtherReason(text)
  }

  function ToPower(text: string): Power {
    if text == "on" then On else Off
  }

  function DetailsAt(p: Payload): Option<Details> {
    if "details" in p && p["details"].JDict? then
      var d := p["details"].fields;
      Some(Details(TextAt(d, "backend"), TextAt(d, "host"), TextAt(d, "pin"), TextAt(d, "instructions")))
    else None
  }

  /** What the session does with a payload that has passed its check: the branch it takes and the fields it reads. */
  function ReadDaemonMessage(p: Payload): Option<DaemonMessage> {
    var kind := TextAt(p, "type");
    if kind == "show_waiting" then Some(ShowWaiting(ToReason(TextAt(p, "reason")), DetailsAt(p)))
    else if kind == "disconnect_console" then Some(DisconnectConsole(ToReason(TextAt(p, "reason"))))
    else if kind == "connect_console" then
      Some(ConnectConsole(ToBackend(TextAt(p, "backend")), TextAt(p, "launcher"), TextsAt(p, "argv"),
                          if "cwd" in p then Some(TextAt(p, "cwd")) else None))
    else if kind == "connect_spice" then Some(ConnectSpice(TextAt(p, "vv_path")))
    else if kind == "display_power" then Some(DisplayPower(ToPower(TextAt(p, "state")), TextAt(p, "output")))
    else if kind == "health_ping" then Some(HealthPing)
    else None
  }

  function BackendAt(p: Payload): Option<Backend> {
    if "backend" in p then Some(ToBackend(TextAt(p, "backend"))) else None
  }

  /** The same for the daemon. */
  function ReadSessionMessage(p: Payload): Option<SessionMessage> {
    var kind := TextAt(p, "type");
    if kind == "session_ready" then Some(SessionReady)
    else if kind == "console_started" then Some(ConsoleStarted(NumberAt(p, "pid"), BackendAt(p)))
    else if kind == "display_power_applied" then Some(DisplayPowerApplied(ToPower(TextAt(p, "state"))))
    else if kind == "console_exited" then
      Some(ConsoleExited(NumberAt(p, "code"), NumberAt(p, "signal"), BackendAt(p)))
    else if kind == "session_error" then Some(SessionError(TextAt(p, "reason")))
    else None
  }

  /** A free reason or backend that does not go by the name of a known one. */
  predicate IsOwnReason(r: WaitReason) {
    ToReason(ReasonText(r)) == r
  }

  predicate IsOwnBackend(b: Backend) {
    ToBackend(BackendName(b)) == b
  }

  lemma KnownNames(r: WaitReason, b: Backend)
    ensures !r.OtherReason? ==> IsOwnReason(r)
    ensures !b.OtherBackend? ==> IsOwnBackend(b)
  {
  }

  predicate IsPlain(m: DaemonMessage) {
    match m
    case ShowWaiting(reason, _) => IsOwnReason(reason)
    case DisconnectConsole(reason) => IsOwnReason(reason)
    case ConnectConsole(backend, _, _, _) => IsOwnBackend(backend)
    case _ => true
  }

  lemma TextsOfStrings(texts: seq<string>)
    ensures Texts(Strings(texts)) == texts
  {
  }

  lemma ConnectReads(m: DaemonMessage)
    requires m.ConnectConsole? && IsPlain(m)
    ensures ReadDaemonMessage(DaemonPayload(m)) == Some(m)
  {
    var p := DaemonPayload(m);
    assert TextAt(p, "type") == "connect_console";
    assert TextAt(p, "backend") == BackendName(m.backend) && TextAt(p, "launcher") == m.launcher;
    assert TextsAt(p, "argv") == m.argv by { TextsOfStrings(m.argv); }
    assert "cwd" in p <==> m.cwd.Some?;
  }

  lemma ShowWaitingReads(m: DaemonMessage)
    requires m.ShowWaiting? && IsPlain(m)
    ensures ReadDaemonMessage(DaemonPayload(m)) == Some(m)
  {
    var p := DaemonPayload(m);
    assert TextAt(p, "type") == "show_waiting" && TextAt(p, "reason") == ReasonText(m.reason);
    assert DetailsAt(p) == m.details;
  }

  /** The session reads the message that the daemon sent. */
  lemma DaemonMessagesArrive(m: DaemonMessage)
    requires IsPlain(m)
    ensures ReadDaemonMessage(DaemonPayload(m)) == Some(m)
  {
    match m
    case ShowWaiting(_, _) => ShowWaitingReads(m);
    case ConnectConsole(_, _, _, _) => ConnectReads(m);
    case ConnectSpice(_) => assert TextAt(DaemonPayload(m), "type") == "connect_spice";
    case DisconnectConsole(_) => assert TextAt(DaemonPayload(m), "type") == "disconnect_console";
    case DisplayPower(_, _) => assert TextAt(DaemonPayload(m), "type") == "display_power";
    case HealthPing => assert TextAt(DaemonPayload(m), "type") == "health_ping";
  }

  /** The daemon reads the message that the session sent. */
  lemma SessionMessagesArrive(m: SessionMessage)
    requires m.ConsoleStarted? && m.backend.Some? ==> IsOwnBackend(m.backend.value)
    requires m.ConsoleExited? && m.backend.Some? ==> IsOwnBackend(m.backend.value)
    ensures ReadSessionMessage(SessionPayload(m)) == Some(m)
  {
    match m
    case SessionReady => assert TextAt(SessionPayload(m), "type") == "session_ready";
    case ConsoleStarted(_, _) => assert TextAt(SessionPayload(m), "type") == "console_started";
    case ConsoleExited(_, _, _) => assert TextAt(SessionPayload(m), "type") == "console_exited";
    case DisplayPowerApplied(_) => assert TextAt(SessionPayload(m), "type") == "display_power_applied";
    case SessionError(_) => assert TextAt(SessionPayload(m), "type") == "session_error";
  }
}
