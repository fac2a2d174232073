/** The session supervisor with its mutable state; every method does what the specification says. */
module SessionSupervisor {
  import opened Wrappers
  import opened Config
  import opened Messages
  import opened SessionSpec

  /** What the session shows on its screen. */
  class SessionViewState {
    var waitingReason: WaitReason
    var statusText: Status
    var details: Option<Details>
    var consoleActive: bool
    var cursorHidden: bool
    var displayPowerState: Power

    constructor ()
      ensures Value() == InitialSession().view
    {
      waitingReason, statusText, details := VmStopped, Shows(VmStopped), None;
      consoleActive, cursorHidden, displayPowerState := false, false, On;
    }

    ghost function Value(): View
      reads this
    {
      View(waitingReason, statusText, details, consoleActive, cursorHidden, displayPowerState)
    }
  }

  class SessionSupervisor {
    const config: AppConfig
    const viewState: SessionViewState
    var consoleProcess: Option<int>
    var activeConsoleBackend: Option<Backend>
    var suppressExitReport: bool
    var activeConsoleUsesLegacyEvents: bool
    ghost var children: ChildHistory

    constructor (config: AppConfig)
      ensures fresh(viewState) && this.config == config
      ensures Snapshot() == InitialSession()
    {
      this.config := config;
      viewState := new SessionViewState();
      consoleProcess, activeConsoleBackend := None, None;
      suppressExitReport, activeConsoleUsesLegacyEvents := false, false;
      children := NoChildren;
    }

    ghost function Snapshot(): Session
      reads this, viewState
    {
      Session(consoleProcess, activeConsoleBackend, viewState.Value(), suppressExitReport,
              activeConsoleUsesLegacyEvents, children)
    }

    method RefreshViewState()
      modifies viewState
      ensures Snapshot() == Refreshed(old(Snapshot()))
    {
      viewState.consoleActive := consoleProcess.Some?;
      viewState.cursorHidden := consoleProcess.Some?;
      if viewState.displayPowerState == Off {
        viewState.statusText := Sleeping;
        return;
      }
      viewState.statusText := StatusText(viewState.waitingReason);
    }

    /** Every caller in the program asks for the exit not to be reported. */
    method StopConsole()
      modifies this, viewState
      ensures Snapshot() == SessionSpec.StopConsole(old(Snapshot()))
    {
      if consoleProcess.None? {
        suppressExitReport := false;
        activeConsoleUsesLegacyEvents := false;
        activeConsoleBackend := None;
        RefreshViewState();
        return;
      }
      suppressExitReport := true;
      children := Then(children, Terminated(consoleProcess.value));
      consoleProcess := None;
      activeConsoleBackend := None;
      activeConsoleUsesLegacyEvents := false;
      RefreshViewState();
    }

    method ShowWaitingState(reason: WaitReason, details: Option<Details>)
      modifies this, viewState
      ensures Snapshot() == SessionSpec.ShowWaitingState(old(Snapshot()), reason, details)
    {
      viewState.waitingReason := reason;
      viewState.details := details;
      StopConsole();
      RefreshViewState();
    }

    /** Why the request is refused, if it is: exactly when it is not permitted. */
    method ValidateConsoleRequest(backend: Backend, launcher: string, argv: seq<string>) returns (reason: Option<string>)
      requires argv != []
      ensures reason.None? <==> Permitted(config, backend, launcher, argv)
      ensures reason.Some? ==> reason.value == RefusalText(config, backend, launcher, argv)
    {
      if backend != config.Backend() {
        return Some("invalid_console_request: backend=" + BackendName(backend)
                    + (" does not match configured backend=" + BackendName(config.Backend())));
      }
      if backend == Moonlight {
        if config.console.MoonlightConsole? && launcher == config.console.binary && argv[0] == config.console.binary {
          return None;
        }
        return Some("invalid_console_request: backend=" + BackendName(backend)
                    + (" launcher=" + launcher + " argv0=" + argv[0]));
      }
      var allowed := AllowedProgram(backend);
      if allowed.None? {
        return Some("invalid_console_request: backend=" + BackendName(backend) + " is not supported");
      }
      if ProgramName(launcher) != allowed.value || ProgramName(argv[0]) != allowed.value {
        return Some("invalid_console_request: backend=" + BackendName(backend)
                    + (" launcher=" + launcher + " argv0=" + argv[0]));
      }
      return None;
    }

    method ShowReason(reason: WaitReason)
      modifies viewState
      ensures Snapshot() == Refreshed(old(Snapshot()).(view := old(Snapshot()).view.(waiting := reason)))
    {
      viewState.waitingReason := reason;
      RefreshViewState();
    }

    method AdoptProcess(pid: int, backend: Backend, legacyEvents: bool)
      modifies this, viewState
      ensures Snapshot() == Spawn(old(Snapshot()), backend, legacyEvents, pid)
    {
      consoleProcess := Some(pid);
      activeConsoleBackend := Some(backend);
      suppressExitReport := false;
      activeConsoleUsesLegacyEvents := legacyEvents;
      children := Then(children, Spawned(pid, backend, legacyEvents));
      RefreshViewState();
    }

    method LaunchConsole(
        backend: Backend, launcher: string, argv: seq<string>, legacyEvents: bool, launch: LaunchResult)
      returns (events: seq<SessionMessage>)
      requires argv != []
      modifies this, viewState
      ensures SessionOutcome(Snapshot(), events)
           == SessionSpec.LaunchConsole(config, old(Snapshot()), backend, launcher, argv, legacyEvents, launch)
    {
      var rejection := ValidateConsoleRequest(backend, launcher, argv);
      if rejection.Some? {
        ShowReason(DegradedWait);
        return [SessionError(rejection.value)];
      }
      StopConsole();
      viewState.waitingReason := Connecting;
      viewState.details := None;
      match launch {
        case LaunchError(text) =>
          ShowReason(DegradedWait);
          return [SessionError(LaunchErrorText(backend, text))];
        case Started(pid) =>
          AdoptProcess(pid, backend, legacyEvents);
          return [ConsoleStarted(pid, if legacyEvents then None else Some(backend))];
      }
    }

    method ApplyDisplayPower(power: Power, helped: bool) returns (events: seq<SessionMessage>)
      modifies viewState
      ensures SessionOutcome(Snapshot(), events) == ApplyPower(old(Snapshot()), power, helped)
    {
      if !helped {
        return [];
      }
      viewState.displayPowerState := power;
      RefreshViewState();
      return [DisplayPowerApplied(power)];
    }

    method HandleDaemonMessage(message: DaemonMessage, effects: Effects) returns (events: seq<SessionMessage>)
      modifies this, viewState
      ensures SessionOutcome(Snapshot(), events)
           == SessionSpec.HandleDaemonMessage(config, old(Snapshot()), message, effects)
    {
      match message {
        case ShowWaiting(reason, details) =>
          ShowWaitingState(reason, details);
          return [];
        case DisconnectConsole(reason) =>
          ShowWaitingState(reason, None);
          return [];
        case ConnectConsole(backend, launcher, argv, _) =>
          if argv == [] {
            return [];
          }
          events := LaunchConsole(backend, launcher, argv, false, effects.launch);
        case ConnectSpice(vvPath) =>
          events := LaunchConsole(
            Spice, REMOTE_VIEWER, [REMOTE_VIEWER, "--full-screen", vvPath], true, effects.launch);
        case DisplayPower(power, _) =>
          events := ApplyDisplayPower(power, effects.helped);
        case HealthPing =>
          return [];
      }
    }

    method PollConsole(exit: Option<int>) returns (events: seq<SessionMessage>)
      modifies this, viewState
      ensures SessionOutcome(Snapshot(), events) == SessionSpec.PollConsole(config, old(Snapshot()), exit)
    {
      if consoleProcess.None? || exit.None? {
        return [];
      }
      var backend := activeConsoleBackend.GetOr(config.Backend());
      children := Then(children, Exited(consoleProcess.value, exit.value, backend, activeConsoleUsesLegacyEvents));
      consoleProcess := None;
      activeConsoleBackend := None;
      viewState.waitingReason := Reconnecting;
      RefreshViewState();
      if suppressExitReport {
        suppressExitReport := false;
        activeConsoleUsesLegacyEvents := false;
        return [];
      }
      events := [ExitMessage(exit.value, backend, activeConsoleUsesLegacyEvents)];
      activeConsoleUsesLegacyEvents := false;
    }
  }
}
