/** The session supervisor as a function from state and observations to state and messages. */
module SessionSpec {
  import opened Wrappers
  import opened Config
  import opened Messages

  // ------------------------------------------------------------------ what has become of the viewers

  /** A viewer process was started, was sent the signal to terminate, or was seen to have exited. */
  datatype ChildEvent =
    | Spawned(pid: int, backend: Backend, legacy: bool)
    | Terminated(pid: int)
    | Exited(pid: int, status: int, backend: Backend, legacy: bool)

  datatype ChildHistory = NoChildren | Then(past: ChildHistory, last: ChildEvent)

  /** The processes that were started and neither seen to exit nor sent the signal to terminate. */
  function Outstanding(h: ChildHistory): multiset<int> {
    match h
    case NoChildren => multiset{}
    case Then(past, e) =>
      if e.Spawned? then Outstanding(past) + multiset{e.pid} else Outstanding(past) - multiset{e.pid}
  }

  /** Every exit and every signal is of a process outstanding at that time. */
  predicate Accounted(h: ChildHistory) {
    match h
    case NoChildren => true
    case Then(past, e) => Accounted(past) && (!e.Spawned? ==> e.pid in Outstanding(past))
  }

  /** What the daemon is to be told about the processes: each start and each exit, and no signal. */
  function Announced(h: ChildHistory): seq<SessionMessage> {
    match h
    case NoChildren => []
    case Then(past, e) =>
      Announced(past) +
      match e
      case Spawned(pid, b, legacy) => [ConsoleStarted(pid, if legacy then None else Some(b))]
      case Terminated(_) => []
      case Exited(_, status, b, legacy) => [ExitMessage(status, b, legacy)]
  }

  function ExitMessage(status: int, b: Backend, legacy: bool): SessionMessage {
    ConsoleExited(if status < 0 then 0 else status, if status < 0 then -status else 0, if legacy then None else Some(b))
  }

  // ------------------------------------------------------------------ state

  datatype Status = Sleeping | Shows(reason: WaitReason)

  /** The text for the reason, with the default for a reason that has none. */
  function StatusText(reason: WaitReason): Status {
    match reason
    case VmNotRunning => Shows(VmStopped)
    case ControlError => Shows(VmStopped)
    case OtherReason(_) => Shows(VmStopped)
    case _ => Shows(reason)
  }

  datatype View = View(
    waiting: WaitReason, status: Status, details: Option<Details>, consoleActive: bool, cursorHidden: bool, power: Power)

  datatype Session = Session(
    child: Option<int>, backend: Option<Backend>, view: View, suppress: bool, legacy: bool, history: ChildHistory)

  datatype SessionOutcome = SessionOutcome(session: Session, messages: seq<SessionMessage>)

  function InitialSession(): Session {
    Session(None, None, View(VmStopped, Shows(VmStopped), None, false, false, On), false, false, NoChildren)
  }

  function Refresh(v: View, active: bool): View {
    v.(consoleActive := active, cursorHidden := active,
       status := if v.power == Off then Sleeping else StatusText(v.waiting))
  }

  function Refreshed(s: Session): Session {
    s.(view := Refresh(s.view, s.child.Some?))
  }

  /** The child is sent the signal and waited for; its exit is not reported. */
  function StopConsole(s: Session): Session {
    match s.child
    case None => Refreshed(s.(suppress := false, legacy := false, backend := None))
    case Some(pid) =>
      Refreshed(s.(suppress := true, child := None, backend := None, legacy := false,
                   history := Then(s.history, Terminated(pid))))
  }

  function ShowWaitingState(s: Session, reason: WaitReason, details: Option<Details>): Session {
    Refreshed(StopConsole(s.(view := s.view.(waiting := reason, details := details))))
  }

  // ------------------------------------------------------------------ launch requests

  /** The last component of a path, as the path library finds it: "" for a path that has none. */
  function FileName(path: string): string {
    match LastSlash(path)
    case None => if path == "." then "" else path
    case Some(i) =>
      var tail := path[i + 1..];
      if tail == "" || tail == "." then FileName(path[..i]) else tail
  }

  function LastSlash(path: string): (r: Option<nat>)
    ensures r.Some? ==> r.value < |path| && path[r.value] == '/' && forall j | r.value < j < |path| :: path[j] != '/'
    ensures r.None? ==> forall j | 0 <= j < |path| :: path[j] != '/'
  {
    if path == "" then None
    else if path[|path| - 1] == '/' then Some(|path| - 1)
    else LastSlash(path[..|path| - 1])
  }

  function ProgramName(path: string): string {
    if FileName(path) == "" then path else FileName(path)
  }

  /** The program that a request for the backend has to name. */
  function AllowedProgram(b: Backend): Option<string> {
    match b
    case Spice => Some("remote-viewer")
    case Vnc => Some("remote-viewer")
    case LookingGlass => Some("looking-glass-client")
    case _ => None
  }

  /** The request is one for the configured backend and names the right program. */
  predicate Permitted(cfg: AppConfig, b: Backend, launcher: string, argv: seq<string>)
    requires argv != []
  {
    && b == cfg.Backend()
    && if b == Moonlight then
         cfg.console.MoonlightConsole? && launcher == cfg.console.binary && argv[0] == cfg.console.binary
       else
         && AllowedProgram(b).Some?
         && ProgramName(launcher) == AllowedProgram(b).value
         && ProgramName(argv[0]) == AllowedProgram(b).value
  }

  /** Why a request that is not permitted is refused. */
  function RefusalText(cfg: AppConfig, b: Backend, launcher: string, argv: seq<string>): string
    requires argv != []
  {
    "invalid_console_request: backend=" + BackendName(b) +
    if b != cfg.Backend() then " does not match configured backend=" + BackendName(cfg.Backend())
    else if b != Moonlight && AllowedProgram(b).None? then " is not supported"
    else " launcher=" + launcher + " argv0=" + argv[0]
  }

  function LaunchErrorText(b: Backend, text: string): string {
    "viewer_launch_failed: backend=" + BackendName(b) + ": " + text
  }

  /** How the start of a process fares. */
  datatype LaunchResult = Started(pid: int) | LaunchError(text: string)

  /** The session after a process has been started for a request, with none running before. */
  function Spawn(s: Session, b: Backend, legacy: bool, pid: int): Session {
    Refreshed(s.(child := Some(pid), backend := Some(b), suppress := false, legacy := legacy,
                 history := Then(s.history, Spawned(pid, b, legacy))))
  }

  function LaunchConsole(
    cfg: AppConfig, s: Session, b: Backend, launcher: string, argv: seq<string>, legacy: bool,
    launch: LaunchResult): SessionOutcome
    requires argv != []
  {
    if !Permitted(cfg, b, launcher, argv) then
      SessionOutcome(Refreshed(s.(view := s.view.(waiting := DegradedWait))), [SessionError(RefusalText(cfg, b, launcher, argv))])
    else
      var stopped := StopConsole(s);
      var t := stopped.(view := stopped.view.(waiting := Connecting, details := None));
      match launch
      case LaunchError(text) =>
        SessionOutcome(Refreshed(t.(view := t.view.(waiting := DegradedWait))), [SessionError(LaunchErrorText(b, text))])
      case Started(pid) =>
        SessionOutcome(Spawn(t, b, legacy, pid), [ConsoleStarted(pid, if legacy then None else Some(b))])
  }

  /** The power helper has done its work, or has not and nothing is said. */
  function ApplyPower(s: Session, power: Power, helped: bool): SessionOutcome {
    if helped then SessionOutcome(Refreshed(s.(view := s.view.(power := power))), [DisplayPowerApplied(power)])
    else SessionOutcome(s, [])
  }

  /** What the outside does while the session handles a message. */
  datatype Effects = Effects(launch: LaunchResult, helped: bool)

  /** A message with an empty command line does not pass the check that comes before everything else. */
  function HandleDaemonMessage(cfg: AppConfig, s: Session, m: DaemonMessage, e: Effects): SessionOutcome {
    match m
    case ShowWaiting(reason, details) => SessionOutcome(ShowWaitingState(s, reason, details), [])
    case DisconnectConsole(reason) => SessionOutcome(ShowWaitingState(s, reason, None), [])
    case ConnectConsole(b, launcher, argv, _) =>
      if argv == [] then SessionOutcome(s, []) else LaunchConsole(cfg, s, b, launcher, argv, false, e.launch)
    case ConnectSpice(vvPath) =>
      LaunchConsole(cfg, s, Spice, REMOTE_VIEWER, [REMOTE_VIEWER, "--full-screen", vvPath], true, e.launch)
    case DisplayPower(power, _) => ApplyPower(s, power, e.helped)
    case HealthPing => SessionOutcome(s, [])
  }

  /** `exit` is the status the process ended with, if it has. */
  function PollConsole(cfg: AppConfig, s: Session, exit: Option<int>): SessionOutcome {
    if s.child.None? || exit.None? then SessionOutcome(s, [])
    else
      var b := s.backend.GetOr(cfg.Backend());
      var t := Refreshed(s.(child := None, backend := None, view := s.view.(waiting := Reconnecting)))
                 .(history := Then(s.history, Exited(s.child.value, exit.value, b, s.legacy)));
      if s.suppress then SessionOutcome(t.(suppress := false, legacy := false), [])
      else SessionOutcome(t.(legacy := false), [ExitMessage(exit.value, b, s.legacy)])
  }

  // ------------------------------------------------------------------ runs

  datatype SessionStep =
    | Deliver(message: DaemonMessage, effects: Effects)
    | Poll(exit: Option<int>)
    | LoseConnection

  function TakeSession(cfg: AppConfig, s: Session, step: SessionStep): SessionOutcome {
    match step
    case Deliver(m, e) => HandleDaemonMessage(cfg, s, m, e)
    case Poll(exit) => PollConsole(cfg, s, exit)
    case LoseConnection => SessionOutcome(StopConsole(s), [])
  }

  function RunSession(cfg: AppConfig, steps: seq<SessionStep>): SessionOutcome {
    if steps == [] then SessionOutcome(InitialSession(), [])
    else
      var o := RunSession(cfg, steps[..|steps| - 1]);
      var p := TakeSession(cfg, o.session, steps[|steps| - 1]);
      SessionOutcome(p.session, o.messages + p.messages)
  }
}
