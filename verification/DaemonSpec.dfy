/** The display daemon as a function from state, time and observations to state and messages. */
module DaemonSpec {
  import opened Wrappers
  import opened Config
  import opened Messages
  import opened History

  datatype SessionState =
    | Booting | WaitingForSession | WaitingForVm | WaitingForPairing
    | RequestingConsole | ShowingConsole | ReconnectingConsole | DisplaySleeping | Degraded

  datatype PairState = Unknown | PendingPinApproval | Paired

  datatype PressResult =
    | StatusFailed | IgnoredInFlight | IgnoredDebounced | IgnoredNonActionable
    | Submitted | Failed | Completed | Stalled | TimedOut

  /** What went wrong, with the text that came from outside. */
  datatype Error =
    | Reported(text: string)
    | HostUnreachable
    | PairProbeUnreachable
    | PreparationFailed(backend: Backend, text: string)
    | ConsoleExit(backend: Backend, code: int, signal: int)
    | ButtonReadFailed(text: string)

  datatype ExitRecord = ExitRecord(at: int, code: int, signal: int, backend: Backend)

  datatype ConsoleRecord = ConsoleRecord(running: bool, pid: Option<int>, backend: Option<Backend>)

  datatype Reconnect = Reconnect(nextAt: Option<int>, delayMs: int)

  datatype Pairing = Pairing(state: PairState, pin: Option<string>, requestedAt: Option<int>, launchPending: bool)

  datatype Button = Button(
    inFlight: bool, startedAt: Option<int>, lastAcceptedAt: Option<int>,
    lastAction: Option<Action>, lastAt: Option<int>, lastResult: Option<PressResult>)

  datatype Guest = Guest(power: VmStatus, sinceAt: Option<int>)

  datatype Display = Display(policyPending: bool, intent: Power, applied: Power)

  datatype Mode = Mode(state: SessionState, degradedReason: Option<Error>, startupError: Option<Error>)

  datatype Report = Report(lastExit: Option<ExitRecord>, lastConnectAt: Option<int>, lastError: Option<Error>)

  /** The fields of the daemon and of the runtime state it persists, grouped, with its history. */
  datatype Daemon = Daemon(
    sessionReady: bool,
    startedAt: Option<int>,
    failures: seq<int>,
    console: ConsoleRecord,
    reconnect: Reconnect,
    pairing: Pairing,
    button: Button,
    guest: Guest,
    display: Display,
    mode: Mode,
    report: Report,
    history: History)

  const NO_CONSOLE := ConsoleRecord(false, None, None)

  function Initial(cfg: AppConfig, startupError: Option<Error>): Daemon {
    Daemon(
      false, None, [],
      NO_CONSOLE,
      Reconnect(None, cfg.policy.reconnectInitialMs),
      Pairing(Unknown, None, None, false),
      Button(false, None, None, None, None, None),
      Guest(OtherStatus("unknown"), None),
      Display(true, On, On),
      Mode(Booting, None, startupError),
      Report(None, None, None),
      Begin)
  }

  // ------------------------------------------------------------------ observations

  datatype StatusReading = StatusIs(status: VmStatus) | StatusUnreadable(text: string)

  /** One press of the power button: the status read for it, and how the command fares if one is issued. */
  datatype Press = Press(reading: StatusReading, failure: Option<string>)

  datatype ButtonPoll = Presses(presses: seq<Press>) | PollFailed(text: string)

  datatype ProbeResult = ProbePaired | ProbeUnpaired | ProbeUnreachable | ProbeError(text: string)

  /** What the pairing checks of one tick find, and the PIN they would use. */
  datatype PairProbe = PairProbe(reachable: bool, live: ProbeResult, pinned: bool, anyHost: ProbeResult, pin: string)

  /** How the preparation of a launch fares. */
  datatype Preparation =
    | Prepared
    | EndpointUnavailable(text: string)
    | PreparationInvalid(text: string)
    | PreparationCommandFailed(text: string)

  datatype TickInput = TickInput(poll: ButtonPoll, reading: StatusReading, pairing: PairProbe, preparation: Preparation)

  datatype Outcome = Outcome(daemon: Daemon, messages: seq<DaemonMessage>)

  // ------------------------------------------------------------------ small steps

  function Enter(m: Mode, to: SessionState): Mode {
    m.(state := to, degradedReason := if to == Degraded then m.degradedReason else None)
  }

  function Transition(s: Daemon, to: SessionState): Daemon {
    s.(mode := Enter(s.mode, to))
  }

  function SetError(s: Daemon, e: Option<Error>): Daemon {
    s.(report := s.report.(lastError := e))
  }

  function WaitingState(d: Display): SessionState {
    if d.intent == Off && d.applied == Off then DisplaySleeping else WaitingForVm
  }

  predicate IsBlocked(m: Mode) {
    m.startupError.Some? || m.degradedReason.Some?
  }

  function EnterDegraded(s: Daemon, reason: Error): Outcome {
    var hadConsole := s.console.running || s.console.pid.Some?;
    Outcome(
      s.(console := NO_CONSOLE,
         mode := s.mode.(state := Degraded, degradedReason := Some(reason)),
         report := s.report.(lastError := Some(reason))),
      (if hadConsole then [DisconnectConsole(ControlError)] else []) + [ShowWaiting(DegradedWait, None)])
  }

  /** The failures that count once one more has happened at `now`. */
  function MoreFailures(failures: seq<int>, now: int): seq<int> {
    Recent(failures, now) + [now]
  }

  function RecordFailure(s: Daemon, now: int, text: string): Outcome {
    var failures := MoreFailures(s.failures, now);
    var t := s.(failures := failures,
                report := s.report.(lastError := Some(Reported(text))),
                history := After(s.history, FailureRecorded(now, text)));
    if |failures| >= FAILURE_LIMIT then EnterDegraded(t, Reported(text)) else Outcome(t, [])
  }

  function RecordPower(g: Guest, v: VmStatus, now: int): Guest {
    Guest(v, if g.power != v || g.sinceAt.None? then Some(now) else g.sinceAt)
  }

  datatype StatusOutcome = StatusOutcome(daemon: Daemon, status: Option<VmStatus>, messages: seq<DaemonMessage>)

  function RefreshStatus(s: Daemon, now: int, reading: StatusReading): StatusOutcome {
    match reading
    case StatusUnreadable(text) =>
      var o := RecordFailure(s, now, text);
      StatusOutcome(o.daemon, None, o.messages)
    case StatusIs(v) =>
      StatusOutcome(
        s.(failures := [], guest := RecordPower(s.guest, v, now), history := After(s.history, StatusRead(now, v))),
        Some(v), [])
  }

  function ScheduleReconnect(cfg: AppConfig, s: Daemon, now: int): Daemon {
    var delay := s.reconnect.delayMs;
    s.(reconnect := Reconnect(
         Some(now + delay * 1000),
         if delay * 2 <= cfg.policy.reconnectMaxMs then delay * 2 else cfg.policy.reconnectMaxMs),
       history := After(s.history, ReconnectScheduled(now, delay)))
  }

  function ResetBackoff(cfg: AppConfig, s: Daemon): Daemon {
    s.(reconnect := Reconnect(None, cfg.policy.reconnectInitialMs), history := After(s.history, BackoffReset))
  }

  function ClearDeadline(s: Daemon): Daemon {
    s.(reconnect := s.reconnect.(nextAt := None))
  }

  function EndPairing(s: Daemon, to: PairState): Daemon {
    s.(pairing := Pairing(to, None, None, false), history := After(s.history, PairEnded))
  }

  function ClearPairing(s: Daemon): Daemon {
    EndPairing(s, Unknown)
  }

  function MarkPaired(s: Daemon): Daemon {
    SetError(EndPairing(s, Paired), None)
  }

  function SetStartupError(s: Daemon, reason: Error): Daemon {
    var t := ClearPairing(s);
    t.(mode := Mode(Degraded, Some(reason), Some(reason)),
       button := t.button.(inFlight := false, startedAt := None),
       report := t.report.(lastError := Some(reason)),
       history := After(t.history, ActionResolved))
  }

  // ------------------------------------------------------------------ the power button

  /** The result with which an action in flight ends, if it ends now. */
  function Resolution(cfg: AppConfig, b: Button, now: int, v: VmStatus): Option<PressResult> {
    var elapsed := if b.startedAt.Some? then ElapsedMs(b.startedAt.value, now) else 0;
    if b.lastAction == Some(StartVm) && ButtonStops(v) then Some(Completed)
    else if b.lastAction == Some(StartVm) && b.startedAt.Some? && elapsed >= cfg.debounceMs && ButtonStarts(v)
    then Some(Stalled)
    else if b.lastAction == Some(ShutdownVm) && ButtonStarts(v) then Some(Completed)
    else if b.lastAction.Some? && b.startedAt.Some? && elapsed >= cfg.policy.shutdownTimeoutS * 1000 && !ButtonStarts(v)
    then Some(TimedOut)
    else None
  }

  function RefreshAction(cfg: AppConfig, s: Daemon, now: int, v: VmStatus): Daemon {
    if !s.button.inFlight then s
    else
      match Resolution(cfg, s.button, now, v)
      case None => s
      case Some(result) =>
        s.(button := s.button.(inFlight := false, lastResult := Some(result), startedAt := None),
           history := After(s.history, ActionResolved))
  }

  predicate WithinDebounce(cfg: AppConfig, b: Button, now: int) {
    b.lastAcceptedAt.Some? && ElapsedMs(b.lastAcceptedAt.value, now) < cfg.debounceMs
  }

  /** `mark_power_button_press`. */
  function MarkPress(b: Button, now: int, action: Action, result: PressResult): Button {
    b.(lastAt := Some(now), lastAction := Some(action), lastResult := Some(result), inFlight := result == Submitted)
  }

  function IssueCommand(s: Daemon, now: int, action: Action, failure: Option<string>): Daemon {
    var b := s.button.(lastAcceptedAt := Some(now));
    var h := After(s.history, CommandIssued(now, action, failure.None?));
    match failure
    case Some(text) =>
      s.(button := MarkPress(b, now, action, Failed), report := s.report.(lastError := Some(Reported(text))), history := h)
    case None =>
      s.(button := MarkPress(b.(startedAt := Some(now)), now, action, Submitted),
         failures := [],
         report := s.report.(lastError := None),
         history := After(h, FailuresCleared(now)))
  }

  function NotePress(s: Daemon, result: PressResult): Daemon {
    s.(button := s.button.(lastResult := Some(result)))
  }

  function ActOnPress(cfg: AppConfig, s: Daemon, now: int, v: VmStatus, failure: Option<string>): Daemon {
    if s.button.inFlight then NotePress(s, IgnoredInFlight)
    else if WithinDebounce(cfg, s.button, now) then NotePress(s, IgnoredDebounced)
    else if ButtonStarts(v) then IssueCommand(s, now, StartVm, failure)
    else if ButtonStops(v) then IssueCommand(s, now, ShutdownVm, failure)
    else NotePress(s, IgnoredNonActionable)
  }

  function HandlePress(cfg: AppConfig, s: Daemon, now: int, press: Press): Daemon {
    var r := RefreshStatus(s, now, press.reading);
    if r.status.None? then NotePress(r.daemon, StatusFailed)
    else ActOnPress(cfg, RefreshAction(cfg, r.daemon, now, r.status.value), now, r.status.value, press.failure)
  }

  function HandlePresses(cfg: AppConfig, s: Daemon, now: int, presses: seq<Press>): Daemon {
    if presses == [] then s
    else HandlePress(cfg, HandlePresses(cfg, s, now, presses[..|presses| - 1]), now, presses[|presses| - 1])
  }

  function PollButton(cfg: AppConfig, s: Daemon, now: int, poll: ButtonPoll): Daemon {
    if !cfg.forwardPowerButton || s.mode.startupError.Some? then s
    else
      match poll
      case PollFailed(text) => SetStartupError(s, ButtonReadFailed(text))
      case Presses(presses) => HandlePresses(cfg, s, now, presses)
  }

  // ------------------------------------------------------------------ the display

  /** When the display may go off, given that the guest is off. */
  function OffDueAt(cfg: AppConfig, sinceAt: Option<int>, startedAt: Option<int>, policyPending: bool): Option<int> {
    if sinceAt.None? || (policyPending && startedAt.None?) then None
    else
      var since := sinceAt.value;
      var stabilized := if policyPending then startedAt.value + cfg.policy.powerStateStabilizeMs * 1000 else since;
      Some((if since < stabilized then stabilized else since) + cfg.policy.dpmsOffDelayMs * 1000)
  }

  function Decide(s: Daemon, now: int, power: Power): Daemon {
    s.(display := s.display.(policyPending := false), history := After(s.history, DisplayDecided(now, power)))
  }

  predicate IsStarting(b: Button) {
    b.inFlight && b.lastAction == Some(StartVm)
  }

  /** The intent that the situation asks for, if it asks for one. */
  function DesiredIntent(cfg: AppConfig, s: Daemon, now: int): (Daemon, Option<Power>) {
    if IsStarting(s.button) then (s, Some(On))
    else if IsOn(s.guest.power) then (Decide(s, now, On), Some(On))
    else if !IsOff(s.guest.power) then (s, None)
    else
      match OffDueAt(cfg, s.guest.sinceAt, s.startedAt, s.display.policyPending)
      case None => (s, None)
      case Some(due) => if now < due then (s, None) else (Decide(s, now, Off), Some(Off))
  }

  function UpdateIntent(cfg: AppConfig, s: Daemon, now: int): Outcome {
    var (t, desired) := DesiredIntent(cfg, s, now);
    if desired.None? || desired.value == t.display.intent then Outcome(t, [])
    else
      Outcome(t.(display := t.display.(intent := desired.value)),
              if t.sessionReady then [DisplayPower(desired.value, cfg.outputName)] else [])
  }

  // ------------------------------------------------------------------ pairing

  datatype PairingOutcome =
    | PairingBlocked(daemon: Daemon, messages: seq<DaemonMessage>)
    | PairingReady(daemon: Daemon)
    | PairingFailed(daemon: Daemon, text: string)

  function HostLost(cfg: AppConfig, s: Daemon, now: int, why: Error): PairingOutcome {
    PairingBlocked(
      Transition(ScheduleReconnect(cfg, SetError(ClearPairing(s), Some(why)), now), ReconnectingConsole),
      [ShowWaiting(Reconnecting, None)])
  }

  predicate ShouldIssuePair(p: Pairing, now: int) {
    || p.state != PendingPinApproval
    || p.pin.None?
    || p.requestedAt.None?
    || now - p.requestedAt.value >= PAIR_TIMEOUT
    || !p.launchPending
  }

  function AwaitPairing(cfg: AppConfig, s: Daemon, now: int, pin: string): PairingOutcome {
    if ShouldIssuePair(s.pairing, now) then
      PairingBlocked(
        SetError(Transition(s, WaitingForPairing), None)
          .(pairing := Pairing(PendingPinApproval, Some(pin), Some(now), true),
            history := After(s.history, PairLaunched(now, pin))),
        [PairMessage(cfg.console, pin)])
    else
      PairingBlocked(
        SetError(Transition(s, WaitingForPairing), None),
        if s.mode.state == WaitingForPairing then [] else [PairWaitingMessage(cfg.console, s.pairing.pin.GetOr(""))])
  }

  function HandlePairing(cfg: AppConfig, s: Daemon, now: int, p: PairProbe): PairingOutcome {
    if !p.reachable then HostLost(cfg, s, now, HostUnreachable)
    else
      var t := ClearDeadline(s);
      match p.live
      case ProbeError(text) => PairingFailed(t, text)
      case ProbePaired => PairingReady(MarkPaired(t))
      case ProbeUnreachable => HostLost(cfg, t, now, PairProbeUnreachable)
      case ProbeUnpaired =>
        if !p.pinned then AwaitPairing(cfg, t, now, p.pin)
        else
          match p.anyHost
          case ProbeError(text) => PairingFailed(t, text)
          case ProbePaired => PairingReady(MarkPaired(t))
          case _ => AwaitPairing(cfg, t, now, p.pin)
  }

  // ------------------------------------------------------------------ the tick

  predicate IsPairingConsole(s: Daemon) {
    s.console.backend == Some(Moonlight) && s.pairing.state == PendingPinApproval
  }

  function Launch(cfg: AppConfig, s: Daemon, now: int, preparation: Preparation): Outcome {
    var t := Transition(s, RequestingConsole);
    match preparation
    case EndpointUnavailable(text) =>
      Outcome(Transition(ScheduleReconnect(cfg, SetError(t, Some(Reported(text))), now), ReconnectingConsole),
              [ShowWaiting(Reconnecting, None)])
    case PreparationInvalid(text) => EnterDegraded(t, PreparationFailed(cfg.Backend(), text))
    case PreparationCommandFailed(text) => RecordFailure(t, now, text)
    case Prepared =>
      Outcome(
        ClearDeadline(t).(failures := [],
          report := t.report.(lastError := None, lastConnectAt := Some(now)),
          history := After(t.history, FailuresCleared(now))),
        [LaunchMessage(cfg.console)])
  }

  predicate DeadlinePassed(r: Reconnect, now: int) {
    r.nextAt.Some? ==> r.nextAt.value <= now
  }

  function LaunchWhenDue(cfg: AppConfig, s: Daemon, now: int, inp: TickInput, paired: bool): Outcome {
    if !DeadlinePassed(s.reconnect, now) then Outcome(Transition(s, ReconnectingConsole), [])
    else if cfg.Backend() != Moonlight || paired then Launch(cfg, s, now, inp.preparation)
    else
      match HandlePairing(cfg, s, now, inp.pairing)
      case PairingFailed(t, text) => EnterDegraded(t, PreparationFailed(Moonlight, text))
      case PairingBlocked(t, messages) => Outcome(t, messages)
      case PairingReady(t) => Launch(cfg, t, now, inp.preparation)
  }

  /** The guest has a picture: show it, or bring up what is missing. */
  function ShowConsole(cfg: AppConfig, s: Daemon, now: int, inp: TickInput): Outcome {
    if !s.console.running then LaunchWhenDue(cfg, s, now, inp, false)
    else if !IsPairingConsole(s) then Outcome(Transition(SetError(s, None), ShowingConsole), [])
    else
      match HandlePairing(cfg, s, now, inp.pairing)
      case PairingFailed(t, text) => EnterDegraded(t, PreparationFailed(Moonlight, text))
      case PairingBlocked(t, messages) => Outcome(t, messages)
      case PairingReady(t) => LaunchWhenDue(cfg, t, now, inp, true)
  }

  /** The guest is off. */
  function StandBy(cfg: AppConfig, s: Daemon): Outcome {
    var t := ClearPairing(ResetBackoff(cfg, s));
    Outcome(
      Transition(if t.console.running then t.(console := NO_CONSOLE) else t, WaitingState(t.display)),
      (if t.console.running then [DisconnectConsole(VmNotRunning)] else [])
        + (if t.mode.state == WaitingForVm || t.mode.state == DisplaySleeping then []
           else [ShowWaiting(VmStopped, None)]))
  }

  /** The guest is in some other state. */
  function Idle(s: Daemon): Daemon {
    var t := ClearPairing(s);
    if !t.console.running && t.display.intent == On then Transition(t, WaitingState(t.display)) else t
  }

  /** What a tick does for the session, once the status is read and the display intent updated. */
  function Serve(cfg: AppConfig, s: Daemon, now: int, v: VmStatus, inp: TickInput, display: seq<DaemonMessage>): Outcome {
    if !s.sessionReady then Outcome(s, [])
    else if IsOff(v) then
      var o := StandBy(cfg, s);
      Outcome(o.daemon, o.messages + display)
    else if !IsOn(v) then Outcome(Idle(s), display)
    else
      var o := ShowConsole(cfg, s, now, inp);
      Outcome(o.daemon, display + o.messages)
  }

  function Tick(cfg: AppConfig, s: Daemon, now: int, inp: TickInput): Outcome {
    var polled := PollButton(cfg, s, now, inp.poll);
    if IsBlocked(polled.mode) then Outcome(polled, [])
    else
      var r := RefreshStatus(polled, now, inp.reading);
      if r.status.None? then Outcome(r.daemon, r.messages)
      else
        var u := UpdateIntent(cfg, RefreshAction(cfg, r.daemon, now, r.status.value), now);
        Serve(cfg, u.daemon, now, r.status.value, inp, u.messages)
  }

  // ------------------------------------------------------------------ session messages

  predicate PairingPending(cfg: AppConfig, p: Pairing) {
    cfg.Backend() == Moonlight && p.state == PendingPinApproval && p.pin.Some?
  }

  /** What a ready session is told, once the status has been read. */
  function Greet(cfg: AppConfig, s: Daemon): Outcome {
    if IsOn(s.guest.power) && PairingPending(cfg, s.pairing) then
      Outcome(Transition(s, WaitingForPairing), [PairWaitingMessage(cfg.console, s.pairing.pin.GetOr(""))])
    else if IsOn(s.guest.power) then
      if s.reconnect.nextAt.Some? then Outcome(Transition(s, ReconnectingConsole), [ShowWaiting(Reconnecting, None)])
      else Outcome(Transition(s, RequestingConsole), [ShowWaiting(Connecting, None)])
    else Outcome(Transition(s, WaitingState(s.display)), [ShowWaiting(VmStopped, None)])
  }

  /** The record of the session starts afresh when one comes or goes. */
  function ResetSession(s: Daemon, ready: bool): Daemon {
    s.(sessionReady := ready, console := NO_CONSOLE,
       pairing := s.pairing.(launchPending := false), history := After(s.history, SessionReset))
  }

  function OnReady(cfg: AppConfig, s: Daemon, now: int, reading: StatusReading): Outcome {
    var t := ResetSession(s, true);
    if IsBlocked(t.mode) then Outcome(Transition(t, Degraded), [ShowWaiting(DegradedWait, None)])
    else
      var power := [DisplayPower(t.display.intent, cfg.outputName)];
      var r := RefreshStatus(t, now, reading);
      if r.status.Some? then
        var o := Greet(cfg, r.daemon);
        Outcome(o.daemon, power + o.messages)
      else if r.daemon.mode.state == Degraded then
        Outcome(r.daemon, power + r.messages + [ShowWaiting(DegradedWait, None)])
      else
        Outcome(Transition(r.daemon, WaitingState(r.daemon.display)),
                power + r.messages + [ShowWaiting(VmStopped, None)])
  }

  function OnStarted(cfg: AppConfig, s: Daemon, pid: int, backend: Option<Backend>): Daemon {
    var b := backend.GetOr(cfg.Backend());
    var t := ResetBackoff(cfg, s).(console := ConsoleRecord(true, Some(pid), Some(b)));
    Transition(SetError(t, None), if IsPairingConsole(t) then WaitingForPairing else ShowingConsole)
  }

  /** Without a viewer, the daemon tries again later, or waits for the guest. */
  function AfterExit(cfg: AppConfig, s: Daemon, now: int): Outcome {
    if IsOn(s.guest.power) then
      Outcome(Transition(ScheduleReconnect(cfg, s, now), ReconnectingConsole), [ShowWaiting(Reconnecting, None)])
    else Outcome(Transition(s, WaitingState(s.display)), [ShowWaiting(VmStopped, None)])
  }

  function OnExited(cfg: AppConfig, s: Daemon, now: int, code: int, signal: int, backend: Option<Backend>): Outcome {
    var b := backend.GetOr(s.console.backend.GetOr(cfg.Backend()));
    var exit := Some(ExitRecord(now, code, signal, b));
    if b == Moonlight && s.pairing.state == PendingPinApproval then
      var t := ClearDeadline(s).(console := NO_CONSOLE, report := s.report.(lastExit := exit, lastError := None));
      Outcome(Transition(t, WaitingForPairing), [PairWaitingMessage(cfg.console, t.pairing.pin.GetOr(""))])
    else
      var u := s.(console := NO_CONSOLE, report := s.report.(lastExit := exit, lastError := Some(ConsoleExit(b, code, signal))));
      AfterExit(cfg, u, now)
  }

  function OnPowerApplied(s: Daemon, power: Power): Daemon {
    var t := s.(display := s.display.(applied := power));
    if !t.console.running && !IsOn(t.guest.power) then Transition(t, WaitingState(t.display)) else t
  }

  function OnSessionError(s: Daemon, reason: string): Outcome {
    EnterDegraded(s.(console := s.console.(running := false, pid := None)), Reported(reason))
  }

  function HandleMessage(cfg: AppConfig, s: Daemon, message: SessionMessage, now: int, reading: StatusReading): Outcome {
    match message
    case SessionReady => OnReady(cfg, s, now, reading)
    case ConsoleStarted(pid, backend) => Outcome(OnStarted(cfg, s, pid, backend), [])
    case DisplayPowerApplied(power) => Outcome(OnPowerApplied(s, power), [])
    case ConsoleExited(code, signal, backend) => OnExited(cfg, s, now, code, signal, backend)
    case SessionError(reason) => OnSessionError(s, reason)
  }

  // ------------------------------------------------------------------ start and disconnection

  /** `start`: `validation` is what the startup checks object to, if anything. */
  function Start(s: Daemon, now: int, validation: Option<Error>): Daemon {
    var t := s.(startedAt := Some(now), history := After(s.history, DaemonStarted(now)));
    if t.mode.startupError.Some? then SetStartupError(t, t.mode.startupError.value)
    else if validation.Some? then SetStartupError(t, validation.value)
    else Transition(t, WaitingForSession)
  }

  function OnDisconnect(s: Daemon): Daemon {
    var t := ResetSession(s, false);
    Transition(t, if IsBlocked(t.mode) then Degraded else WaitingForSession)
  }
}
