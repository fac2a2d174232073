/** The display daemon with its mutable state; every method does what the specification says. */
module DisplayDaemon {
  import opened Wrappers
  import opened Config
  import opened Messages
  import opened History
  import opened DaemonSpec
  import opened RuntimeState

  /** What the pairing checks come to: the tick ends here, or goes on to the stream, or the checks raise an error. */
  datatype PairingResult = Blocked(messages: seq<DaemonMessage>) | ReadyToStream | Raised(text: string)

  /** A result of the checks together with the state they leave. */
  function Together(d: Daemon, r: PairingResult): PairingOutcome {
    match r
    case Blocked(messages) => PairingBlocked(d, messages)
    case ReadyToStream => PairingReady(d)
    case Raised(text) => PairingFailed(d, text)
  }

  lemma {:induction false} OnePressMore(cfg: AppConfig, s: Daemon, now: int, presses: seq<Press>, i: nat)
    requires i < |presses|
    ensures HandlePresses(cfg, s, now, presses[..i + 1])
         == HandlePress(cfg, HandlePresses(cfg, s, now, presses[..i]), now, presses[i])
  {
    assert presses[..i + 1][..i] == presses[..i];
  }

  class DisplayDaemon {
    const config: AppConfig
    const state: RuntimeState
    var sessionReady: bool
    var consoleRunning: bool
    var consolePid: Option<int>
    var nextReconnectAt: Option<int>
    var currentReconnectDelayMs: int
    var startedAt: Option<int>
    var powerStateSinceAt: Option<int>
    var startupDisplayPolicyPending: bool
    var startupError: Option<Error>
    var lastPowerButtonAcceptedAt: Option<int>
    var powerButtonActionStartedAt: Option<int>
    var proxmoxFailureTimestamps: seq<int>
    var moonlightPairRequestedAt: Option<int>
    var moonlightPairLaunchPending: bool
    ghost var history: History

    constructor (config: AppConfig, startupError: Option<Error>)
      ensures this.config == config && fresh(state)
      ensures Snapshot() == Initial(config, startupError)
    {
      this.config := config;
      this.startupError := startupError;
      state := new RuntimeState();
      sessionReady, consoleRunning, consolePid := false, false, None;
      nextReconnectAt, currentReconnectDelayMs := None, config.policy.reconnectInitialMs;
      startedAt, powerStateSinceAt, startupDisplayPolicyPending := None, None, true;
      lastPowerButtonAcceptedAt, powerButtonActionStartedAt := None, None;
      proxmoxFailureTimestamps := [];
      moonlightPairRequestedAt, moonlightPairLaunchPending := None, false;
      history := Begin;
    }

    ghost function Snapshot(): Daemon
      reads this, state
    {
      Daemon(
        sessionReady, startedAt, proxmoxFailureTimestamps,
        ConsoleRecord(consoleRunning, consolePid, state.activeConsoleBackend),
        Reconnect(nextReconnectAt, currentReconnectDelayMs),
        Pairing(state.moonlightPairState, state.moonlightPairPin, moonlightPairRequestedAt, moonlightPairLaunchPending),
        Button(state.powerButtonActionInFlight, powerButtonActionStartedAt, lastPowerButtonAcceptedAt,
               state.lastPowerButtonAction, state.lastPowerButtonAt, state.lastPowerButtonResult),
        Guest(state.vmPowerState, powerStateSinceAt),
        Display(startupDisplayPolicyPending, state.displayPowerIntent, state.displayPowerApplied),
        Mode(state.sessionState, state.degradedReason, startupError),
        Report(state.lastConsoleExit, state.lastConnectAttemptAt, state.lastError),
        history)
    }

    // ---------------------------------------------------------------- small steps

    /** No console is up any more. */
    method ForgetConsole()
      modifies this`consoleRunning, this`consolePid, state`activeConsoleBackend
      ensures Snapshot() == old(Snapshot()).(console := NO_CONSOLE)
    {
      consoleRunning := false;
      consolePid := None;
      state.activeConsoleBackend := None;
    }

    method SetLastError(e: Option<Error>)
      modifies state`lastError
      ensures Snapshot() == SetError(old(Snapshot()), e)
    {
      state.lastError := e;
    }

    method ResetReconnect()
      modifies this
      ensures Snapshot() == ResetBackoff(config, old(Snapshot()))
    {
      nextReconnectAt := None;
      currentReconnectDelayMs := config.policy.reconnectInitialMs;
      history := After(history, BackoffReset);
    }

    method Transition(to: SessionState)
      modifies state`sessionState, state`degradedReason
      ensures Snapshot() == DaemonSpec.Transition(old(Snapshot()), to)
    {
      state.sessionState := to;
      if to != Degraded {
        state.degradedReason := None;
      }
    }

    method EnterDegraded(reason: Error) returns (actions: seq<DaemonMessage>)
      modifies this, state
      ensures Outcome(Snapshot(), actions) == DaemonSpec.EnterDegraded(old(Snapshot()), reason)
    {
      var hadConsole := consoleRunning || consolePid.Some?;
      ForgetConsole();
      state.lastError := Some(reason);
      state.degradedReason := Some(reason);
      Transition(Degraded);
      actions := [];
      if hadConsole {
        actions := actions + [DisconnectConsole(ControlError)];
      }
      actions := actions + [ShowWaiting(DegradedWait, None)];
    }

    method ClearProxmoxFailures(now: int)
      modifies this
      ensures Snapshot() == old(Snapshot()).(
        failures := [], history := After(old(Snapshot()).history, FailuresCleared(now)))
    {
      proxmoxFailureTimestamps := [];
      history := After(history, FailuresCleared(now));
    }

    /** Only the failures within the window before `now` are kept. */
    method PruneFailures(now: int)
      modifies this`proxmoxFailureTimestamps
      ensures proxmoxFailureTimestamps == Recent(old(proxmoxFailureTimestamps), now)
    {
      var kept := [];
      var i := 0;
      while i < |proxmoxFailureTimestamps|
        invariant 0 <= i <= |proxmoxFailureTimestamps|
        invariant kept == Recent(proxmoxFailureTimestamps[..i], now)
        invariant proxmoxFailureTimestamps == old(proxmoxFailureTimestamps)
      {
        assert proxmoxFailureTimestamps[..i + 1][..i] == proxmoxFailureTimestamps[..i];
        if now - proxmoxFailureTimestamps[i] <= FAILURE_WINDOW {
          kept := kept + [proxmoxFailureTimestamps[i]];
        }
        i := i + 1;
      }
      assert proxmoxFailureTimestamps[..i] == proxmoxFailureTimestamps;
      proxmoxFailureTimestamps := kept;
    }

    method RecordProxmoxFailure(now: int, text: string) returns (actions: seq<DaemonMessage>)
      modifies this, state
      ensures Outcome(Snapshot(), actions) == RecordFailure(old(Snapshot()), now, text)
    {
      PruneFailures(now);
      proxmoxFailureTimestamps := proxmoxFailureTimestamps + [now];
      state.lastError := Some(Reported(text));
      history := After(history, FailureRecorded(now, text));
      if |proxmoxFailureTimestamps| >= FAILURE_LIMIT {
        actions := EnterDegraded(Reported(text));
        return;
      }
      return [];
    }

    method RecordVmPowerState(v: VmStatus, now: int)
      modifies this`powerStateSinceAt, state`vmPowerState
      ensures Snapshot() == old(Snapshot()).(guest := RecordPower(old(Snapshot()).guest, v, now))
    {
      if state.vmPowerState != v || powerStateSinceAt.None? {
        powerStateSinceAt := Some(now);
      }
      state.vmPowerState := v;
    }

    method RefreshVmStatus(now: int, reading: StatusReading) returns (status: Option<VmStatus>, actions: seq<DaemonMessage>)
      modifies this, state
      ensures StatusOutcome(Snapshot(), status, actions) == RefreshStatus(old(Snapshot()), now, reading)
    {
      match reading {
        case StatusUnreadable(text) =>
          actions := RecordProxmoxFailure(now, text);
          status := None;
        case StatusIs(v) =>
          proxmoxFailureTimestamps := [];
          RecordVmPowerState(v, now);
          history := After(history, StatusRead(now, v));
          return Some(v), [];
      }
    }

    method ScheduleReconnect(now: int)
      modifies this
      ensures Snapshot() == DaemonSpec.ScheduleReconnect(config, old(Snapshot()), now)
    {
      var delayMs := currentReconnectDelayMs;
      nextReconnectAt := Some(now + delayMs * 1000);
      currentReconnectDelayMs :=
        if currentReconnectDelayMs * 2 <= config.policy.reconnectMaxMs then currentReconnectDelayMs * 2
        else config.policy.reconnectMaxMs;
      history := After(history, ReconnectScheduled(now, delayMs));
    }

    method ClearMoonlightPairState()
      modifies this, state
      ensures Snapshot() == ClearPairing(old(Snapshot()))
    {
      state.moonlightPairPin := None;
      moonlightPairRequestedAt := None;
      moonlightPairLaunchPending := false;
      state.moonlightPairState := Unknown;
      history := After(history, PairEnded);
    }

    method MarkMoonlightAsPaired()
      modifies this, state
      ensures Snapshot() == MarkPaired(old(Snapshot()))
    {
      state.moonlightPairState := Paired;
      state.moonlightPairPin := None;
      moonlightPairRequestedAt := None;
      moonlightPairLaunchPending := false;
      state.lastError := None;
      history := After(history, PairEnded);
    }

    method CallOffAction()
      modifies this, state
      ensures Snapshot() == old(Snapshot()).(
        button := old(Snapshot()).button.(inFlight := false, startedAt := None),
        history := After(old(Snapshot()).history, ActionResolved))
    {
      state.powerButtonActionInFlight := false;
      powerButtonActionStartedAt := None;
      history := After(history, ActionResolved);
    }

    method SetStartupError(reason: Error)
      modifies this, state
      ensures Snapshot() == DaemonSpec.SetStartupError(old(Snapshot()), reason)
    {
      startupError := Some(reason);
      ClearMoonlightPairState();
      SetLastError(Some(reason));
      state.degradedReason := Some(reason);
      CallOffAction();
      Transition(Degraded);
    }

    method WaitingSessionState() returns (to: SessionState)
      ensures to == WaitingState(Snapshot().display)
    {
      if state.displayPowerIntent == Off && state.displayPowerApplied == Off {
        return DisplaySleeping;
      }
      return WaitingForVm;
    }

    // ---------------------------------------------------------------- the power button

    method EndAction(result: PressResult)
      modifies this, state
      ensures Snapshot() == old(Snapshot()).(
        button := old(Snapshot()).button.(inFlight := false, lastResult := Some(result), startedAt := None),
        history := After(old(Snapshot()).history, ActionResolved))
    {
      state.powerButtonActionInFlight := false;
      state.lastPowerButtonResult := Some(result);
      powerButtonActionStartedAt := None;
      history := After(history, ActionResolved);
    }

    method RefreshStart(now: int, v: VmStatus, elapsed: int)
      requires state.powerButtonActionInFlight && state.lastPowerButtonAction == Some(StartVm)
      requires powerButtonActionStartedAt.Some? ==> elapsed == ElapsedMs(powerButtonActionStartedAt.value, now)
      modifies this, state
      ensures Snapshot() == RefreshAction(config, old(Snapshot()), now, v)
    {
      if ButtonStops(v) {
        EndAction(Completed);
        return;
      }
      if powerButtonActionStartedAt.Some? && elapsed >= config.debounceMs && ButtonStarts(v) {
        EndAction(Stalled);
        return;
      }
      if powerButtonActionStartedAt.Some? && elapsed >= config.policy.shutdownTimeoutS * 1000 && !ButtonStarts(v) {
        EndAction(TimedOut);
      }
    }

    method RefreshShutdown(now: int, v: VmStatus, elapsed: int)
      requires state.powerButtonActionInFlight && state.lastPowerButtonAction == Some(ShutdownVm)
      requires powerButtonActionStartedAt.Some? ==> elapsed == ElapsedMs(powerButtonActionStartedAt.value, now)
      modifies this, state
      ensures Snapshot() == RefreshAction(config, old(Snapshot()), now, v)
    {
      if ButtonStarts(v) {
        EndAction(Completed);
        return;
      }
      if powerButtonActionStartedAt.Some? && elapsed >= config.policy.shutdownTimeoutS * 1000 && !ButtonStarts(v) {
        EndAction(TimedOut);
      }
    }

    method RefreshPowerButtonAction(now: int, v: VmStatus)
      modifies this, state
      ensures Snapshot() == RefreshAction(config, old(Snapshot()), now, v)
    {
      if !state.powerButtonActionInFlight {
        return;
      }
      var elapsed := if powerButtonActionStartedAt.Some? then ElapsedMs(powerButtonActionStartedAt.value, now) else 0;
      match state.lastPowerButtonAction {
        case Some(StartVm) => RefreshStart(now, v, elapsed);
        case Some(ShutdownVm) => RefreshShutdown(now, v, elapsed);
        case None =>
      }
    }

    method WithinPowerButtonDebounce(now: int) returns (within: bool)
      ensures within == WithinDebounce(config, Snapshot().button, now)
    {
      if lastPowerButtonAcceptedAt.None? {
        return false;
      }
      return ElapsedMs(lastPowerButtonAcceptedAt.value, now) < config.debounceMs;
    }

    method NoteCommand(now: int, action: Action, result: PressResult)
      modifies this`lastPowerButtonAcceptedAt, state
      ensures Snapshot() == old(Snapshot()).(
        button := MarkPress(old(Snapshot()).button.(lastAcceptedAt := Some(now)), now, action, result))
    {
      lastPowerButtonAcceptedAt := Some(now);
      state.MarkPowerButtonPress(now, action, result);
    }

    method SubmitCommand(now: int, action: Action, failure: Option<string>)
      modifies this, state
      ensures Snapshot() == IssueCommand(old(Snapshot()), now, action, failure)
    {
      history := After(history, CommandIssued(now, action, failure.None?));
      if failure.Some? {
        NoteCommand(now, action, Failed);
        SetLastError(Some(Reported(failure.value)));
        return;
      }
      ClearProxmoxFailures(now);
      powerButtonActionStartedAt := Some(now);
      NoteCommand(now, action, Submitted);
      SetLastError(None);
    }

    method HandlePowerButtonPress(now: int, press: Press)
      modifies this, state
      ensures Snapshot() == HandlePress(config, old(Snapshot()), now, press)
    {
      var status, _ := RefreshVmStatus(now, press.reading);
      if status.None? {
        state.lastPowerButtonResult := Some(StatusFailed);
        return;
      }
      RefreshPowerButtonAction(now, status.value);
      if state.powerButtonActionInFlight {
        state.lastPowerButtonResult := Some(IgnoredInFlight);
        return;
      }
      var within := WithinPowerButtonDebounce(now);
      if within {
        state.lastPowerButtonResult := Some(IgnoredDebounced);
        return;
      }
      if ButtonStarts(status.value) {
        SubmitCommand(now, StartVm, press.failure);
      } else if ButtonStops(status.value) {
        SubmitCommand(now, ShutdownVm, press.failure);
      } else {
        state.lastPowerButtonResult := Some(IgnoredNonActionable);
      }
    }

    method PollPowerButtonSource(now: int, poll: ButtonPoll)
      modifies this, state
      ensures Snapshot() == PollButton(config, old(Snapshot()), now, poll)
    {
      if !config.forwardPowerButton || startupError.Some? {
        return;
      }
      match poll {
        case PollFailed(text) =>
          SetStartupError(ButtonReadFailed(text));
        case Presses(presses) =>
          var i := 0;
          while i < |presses|
            invariant 0 <= i <= |presses|
            invariant Snapshot() == HandlePresses(config, old(Snapshot()), now, presses[..i])
          {
            OnePressMore(config, old(Snapshot()), now, presses, i);
            HandlePowerButtonPress(now, presses[i]);
            i := i + 1;
          }
          assert presses[..i] == presses;
      }
    }

    // ---------------------------------------------------------------- the display

    method DesiredDisplayPowerIntent(now: int) returns (desired: Option<Power>)
      modifies this
      ensures (Snapshot(), desired) == DesiredIntent(config, old(Snapshot()), now)
    {
      if state.powerButtonActionInFlight && state.lastPowerButtonAction == Some(StartVm) {
        return Some(On);
      }
      if IsOn(state.vmPowerState) {
        startupDisplayPolicyPending := false;
        history := After(history, DisplayDecided(now, On));
        return Some(On);
      }
      if !IsOff(state.vmPowerState) || powerStateSinceAt.None? {
        return None;
      }
      var offSince := powerStateSinceAt.value;
      if startupDisplayPolicyPending {
        if startedAt.None? {
          return None;
        }
        var stabilizedAt := startedAt.value + config.policy.powerStateStabilizeMs * 1000;
        if offSince < stabilizedAt {
          offSince := stabilizedAt;
        }
      }
      if now < offSince + config.policy.dpmsOffDelayMs * 1000 {
        return None;
      }
      startupDisplayPolicyPending := false;
      history := After(history, DisplayDecided(now, Off));
      return Some(Off);
    }

    method UpdateDisplayPowerIntent(now: int) returns (actions: seq<DaemonMessage>)
      modifies this, state
      ensures Outcome(Snapshot(), actions) == UpdateIntent(config, old(Snapshot()), now)
    {
      var target := DesiredDisplayPowerIntent(now);
      if target.None? || target.value == state.displayPowerIntent {
        return [];
      }
      state.displayPowerIntent := target.value;
      if !sessionReady {
        return [];
      }
      return [DisplayPower(target.value, config.outputName)];
    }

    // ---------------------------------------------------------------- pairing

    method GiveUpHost(now: int, why: Error) returns (result: PairingResult)
      modifies this, state
      ensures Together(Snapshot(), result) == HostLost(config, old(Snapshot()), now, why)
    {
      ClearMoonlightPairState();
      state.lastError := Some(why);
      ScheduleReconnect(now);
      Transition(ReconnectingConsole);
      return Blocked([ShowWaiting(Reconnecting, None)]);
    }

    method IssuePin(now: int, pin: string)
      modifies this, state
      ensures Snapshot() == old(Snapshot()).(
        pairing := Pairing(old(Snapshot()).pairing.state, Some(pin), Some(now), true),
        history := After(old(Snapshot()).history, PairLaunched(now, pin)))
    {
      state.moonlightPairPin := Some(pin);
      moonlightPairRequestedAt := Some(now);
      moonlightPairLaunchPending := true;
      history := After(history, PairLaunched(now, pin));
    }

    method AwaitPin(now: int, pin: string) returns (result: PairingResult)
      modifies this, state
      ensures Together(Snapshot(), result) == AwaitPairing(config, old(Snapshot()), now, pin)
    {
      var issue := ShouldIssuePair(
        Pairing(state.moonlightPairState, state.moonlightPairPin, moonlightPairRequestedAt, moonlightPairLaunchPending), now);
      if issue {
        IssuePin(now, pin);
      }
      state.moonlightPairState := PendingPinApproval;
      SetLastError(None);
      var previous := state.sessionState;
      Transition(WaitingForPairing);
      if issue {
        return Blocked([PairMessage(config.console, state.moonlightPairPin.GetOr(""))]);
      }
      if previous == WaitingForPairing {
        return Blocked([]);
      }
      return Blocked([PairWaitingMessage(config.console, state.moonlightPairPin.GetOr(""))]);
    }

    method HandleMoonlightPairing(now: int, p: PairProbe) returns (result: PairingResult)
      modifies this, state
      ensures Together(Snapshot(), result) == HandlePairing(config, old(Snapshot()), now, p)
    {
      if !p.reachable {
        result := GiveUpHost(now, HostUnreachable);
        return;
      }
      nextReconnectAt := None;
      match p.live {
        case ProbeError(text) =>
          return Raised(text);
        case ProbePaired =>
          MarkMoonlightAsPaired();
          return ReadyToStream;
        case ProbeUnreachable =>
          result := GiveUpHost(now, PairProbeUnreachable);
          return;
        case ProbeUnpaired =>
      }
      if p.pinned {
        if p.anyHost.ProbeError? {
          return Raised(p.anyHost.text);
        }
        if p.anyHost.ProbePaired? {
          MarkMoonlightAsPaired();
          return ReadyToStream;
        }
      }
      result := AwaitPin(now, p.pin);
    }

    // ---------------------------------------------------------------- the tick

    method PrepareAndLaunch(now: int, preparation: Preparation) returns (actions: seq<DaemonMessage>)
      modifies this, state
      ensures Outcome(Snapshot(), actions) == Launch(config, old(Snapshot()), now, preparation)
    {
      Transition(RequestingConsole);
      match preparation {
        case EndpointUnavailable(text) =>
          SetLastError(Some(Reported(text)));
          ScheduleReconnect(now);
          Transition(ReconnectingConsole);
          return [ShowWaiting(Reconnecting, None)];
        case PreparationInvalid(text) =>
          actions := EnterDegraded(PreparationFailed(config.Backend(), text));
        case PreparationCommandFailed(text) =>
          actions := RecordProxmoxFailure(now, text);
        case Prepared =>
          ClearProxmoxFailures(now);
          SetLastError(None);
          state.MarkConnectAttempt(now);
          nextReconnectAt := None;
          return [LaunchMessage(config.console)];
      }
    }

    method LaunchConsoleWhenDue(now: int, inp: TickInput, readyToStream: bool) returns (actions: seq<DaemonMessage>)
      modifies this, state
      ensures Outcome(Snapshot(), actions) == LaunchWhenDue(config, old(Snapshot()), now, inp, readyToStream)
    {
      if nextReconnectAt.Some? && now < nextReconnectAt.value {
        Transition(ReconnectingConsole);
        return [];
      }
      if config.Backend() == Moonlight && !readyToStream {
        var result := HandleMoonlightPairing(now, inp.pairing);
        match result {
          case Raised(text) =>
            actions := EnterDegraded(PreparationFailed(Moonlight, text));
            return;
          case Blocked(messages) =>
            return messages;
          case ReadyToStream =>
        }
      }
      actions := PrepareAndLaunch(now, inp.preparation);
    }

    method ServeConsole(now: int, inp: TickInput) returns (actions: seq<DaemonMessage>)
      modifies this, state
      ensures Outcome(Snapshot(), actions) == ShowConsole(config, old(Snapshot()), now, inp)
    {
      var readyToStream := false;
      if consoleRunning {
        if state.activeConsoleBackend != Some(Moonlight) || state.moonlightPairState != PendingPinApproval {
          state.lastError := None;
          Transition(ShowingConsole);
          return [];
        }
        var result := HandleMoonlightPairing(now, inp.pairing);
        match result {
          case Raised(text) =>
            actions := EnterDegraded(PreparationFailed(Moonlight, text));
            return;
          case Blocked(messages) =>
            return messages;
          case ReadyToStream =>
            readyToStream := true;
        }
      }
      actions := LaunchConsoleWhenDue(now, inp, readyToStream);
    }

    method ServeVmOff() returns (actions: seq<DaemonMessage>)
      modifies this, state
      ensures Outcome(Snapshot(), actions) == StandBy(config, old(Snapshot()))
    {
      ResetReconnect();
      ClearMoonlightPairState();
      actions := [];
      if consoleRunning {
        ForgetConsole();
        actions := actions + [DisconnectConsole(VmNotRunning)];
      }
      if state.sessionState != WaitingForVm && state.sessionState != DisplaySleeping {
        actions := actions + [ShowWaiting(VmStopped, None)];
      }
      var to := WaitingSessionState();
      Transition(to);
    }

    method ServeSession(now: int, v: VmStatus, inp: TickInput, displayActions: seq<DaemonMessage>)
      returns (actions: seq<DaemonMessage>)
      modifies this, state
      ensures Outcome(Snapshot(), actions) == Serve(config, old(Snapshot()), now, v, inp, displayActions)
    {
      if !sessionReady {
        return [];
      }
      if IsOff(v) {
        var sessionActions := ServeVmOff();
        return sessionActions + displayActions;
      }
      if !IsOn(v) {
        ClearMoonlightPairState();
        if !consoleRunning && state.displayPowerIntent == On {
          var to := WaitingSessionState();
          Transition(to);
        }
        return displayActions;
      }
      var consoleActions := ServeConsole(now, inp);
      return displayActions + consoleActions;
    }

    method Tick(now: int, inp: TickInput) returns (actions: seq<DaemonMessage>)
      modifies this, state
      ensures Outcome(Snapshot(), actions) == DaemonSpec.Tick(config, old(Snapshot()), now, inp)
    {
      PollPowerButtonSource(now, inp.poll);
      if startupError.Some? || state.degradedReason.Some? {
        return [];
      }
      var status, failureActions := RefreshVmStatus(now, inp.reading);
      if status.None? {
        return failureActions;
      }
      RefreshPowerButtonAction(now, status.value);
      var displayActions := UpdateDisplayPowerIntent(now);
      actions := ServeSession(now, status.value, inp, displayActions);
    }

    // ---------------------------------------------------------------- session messages

    method GreetSession() returns (actions: seq<DaemonMessage>)
      modifies this, state
      ensures Outcome(Snapshot(), actions) == Greet(config, old(Snapshot()))
    {
      if IsOn(state.vmPowerState) {
        if config.Backend() == Moonlight && state.moonlightPairState == PendingPinApproval && state.moonlightPairPin.Some? {
          Transition(WaitingForPairing);
          return [PairWaitingMessage(config.console, state.moonlightPairPin.GetOr(""))];
        }
        if nextReconnectAt.Some? {
          Transition(ReconnectingConsole);
          return [ShowWaiting(Reconnecting, None)];
        }
        Transition(RequestingConsole);
        return [ShowWaiting(Connecting, None)];
      }
      var to := WaitingSessionState();
      Transition(to);
      return [ShowWaiting(VmStopped, None)];
    }

    method ForgetSession(ready: bool)
      modifies this, state
      ensures Snapshot() == ResetSession(old(Snapshot()), ready)
    {
      sessionReady := ready;
      ForgetConsole();
      moonlightPairLaunchPending := false;
      history := After(history, SessionReset);
    }

    method OnSessionReady(now: int, reading: StatusReading) returns (actions: seq<DaemonMessage>)
      modifies this, state
      ensures Outcome(Snapshot(), actions) == OnReady(config, old(Snapshot()), now, reading)
    {
      ForgetSession(true);
      if startupError.Some? || state.degradedReason.Some? {
        Transition(Degraded);
        return [ShowWaiting(DegradedWait, None)];
      }
      var power := [DisplayPower(state.displayPowerIntent, config.outputName)];
      var status, failureActions := RefreshVmStatus(now, reading);
      if status.None? {
        if state.sessionState == Degraded {
          return power + failureActions + [ShowWaiting(DegradedWait, None)];
        }
        var to := WaitingSessionState();
        Transition(to);
        return power + failureActions + [ShowWaiting(VmStopped, None)];
      }
      var greeting := GreetSession();
      return power + greeting;
    }

    method OnConsoleStarted(pid: int, backend: Option<Backend>)
      modifies this, state
      ensures Snapshot() == OnStarted(config, old(Snapshot()), pid, backend)
    {
      var started := backend.GetOr(config.Backend());
      ResetReconnect();
      consoleRunning := true;
      consolePid := Some(pid);
      state.activeConsoleBackend := Some(started);
      SetLastError(None);
      if started == Moonlight && state.moonlightPairState == PendingPinApproval {
        Transition(WaitingForPairing);
      } else {
        Transition(ShowingConsole);
      }
    }

    method OnConsoleExited(now: int, code: int, signal: int, backend: Option<Backend>) returns (actions: seq<DaemonMessage>)
      modifies this, state
      ensures Outcome(Snapshot(), actions) == OnExited(config, old(Snapshot()), now, code, signal, backend)
    {
      var exited := backend.GetOr(state.activeConsoleBackend.GetOr(config.Backend()));
      ForgetConsole();
      state.MarkConsoleExit(now, code, signal, exited);
      if exited == Moonlight && state.moonlightPairState == PendingPinApproval {
        nextReconnectAt := None;
        SetLastError(None);
        Transition(WaitingForPairing);
        return [PairWaitingMessage(config.console, state.moonlightPairPin.GetOr(""))];
      }
      SetLastError(Some(ConsoleExit(exited, code, signal)));
      actions := ReconnectOrWait(now);
    }

    method ReconnectOrWait(now: int) returns (actions: seq<DaemonMessage>)
      modifies this, state
      ensures Outcome(Snapshot(), actions) == AfterExit(config, old(Snapshot()), now)
    {
      if IsOn(state.vmPowerState) {
        ScheduleReconnect(now);
        Transition(ReconnectingConsole);
        return [ShowWaiting(Reconnecting, None)];
      }
      var to := WaitingSessionState();
      Transition(to);
      return [ShowWaiting(VmStopped, None)];
    }

    method OnDisplayPowerApplied(power: Power)
      modifies this, state
      ensures Snapshot() == OnPowerApplied(old(Snapshot()), power)
    {
      state.displayPowerApplied := power;
      if !consoleRunning && !IsOn(state.vmPowerState) {
        var to := WaitingSessionState();
        Transition(to);
      }
    }

    method HandleSessionMessage(message: SessionMessage, now: int, reading: StatusReading)
      returns (actions: seq<DaemonMessage>)
      modifies this, state
      ensures Outcome(Snapshot(), actions) == HandleMessage(config, old(Snapshot()), message, now, reading)
    {
      actions := [];
      match message {
        case SessionReady =>
          actions := OnSessionReady(now, reading);
        case ConsoleStarted(pid, backend) =>
          OnConsoleStarted(pid, backend);
        case DisplayPowerApplied(power) =>
          OnDisplayPowerApplied(power);
        case ConsoleExited(code, signal, backend) =>
          actions := OnConsoleExited(now, code, signal, backend);
        case SessionError(reason) =>
          consoleRunning := false;
          consolePid := None;
          actions := EnterDegraded(Reported(reason));
      }
    }

    // ---------------------------------------------------------------- start and disconnection

    method Start(now: int, validation: Option<Error>)
      modifies this, state
      ensures Snapshot() == DaemonSpec.Start(old(Snapshot()), now, validation)
    {
      startedAt := Some(now);
      history := After(history, DaemonStarted(now));
      if startupError.Some? {
        SetStartupError(startupError.value);
        return;
      }
      if validation.Some? {
        SetStartupError(validation.value);
        return;
      }
      Transition(WaitingForSession);
    }

    method OnSessionDisconnected()
      modifies this, state
      ensures Snapshot() == OnDisconnect(old(Snapshot()))
    {
      ForgetSession(false);
      if startupError.Some? || state.degradedReason.Some? {
        Transition(Degraded);
      } else {
        Transition(WaitingForSession);
      }
    }
  }
}
