/** What holds of the daemon after every step of every run. */
module DaemonInvariant {
  import opened Wrappers
  import opened Config
  import opened Messages
  import opened History
  import opened DaemonSpec

  // ------------------------------------------------------------------ runs

  datatype Step =
    | TickStep(now: int, inp: TickInput)
    | MessageStep(now: int, message: SessionMessage, reading: StatusReading)
    | DisconnectStep

  function Take(cfg: AppConfig, s: Daemon, step: Step): Outcome {
    match step
    case TickStep(now, inp) => Tick(cfg, s, now, inp)
    case MessageStep(now, message, reading) => HandleMessage(cfg, s, message, now, reading)
    case DisconnectStep => Outcome(OnDisconnect(s), [])
  }

  /** How a run begins: with the configuration error, the time of the start and what the startup checks find. */
  datatype Launching = Launching(configError: Option<Error>, now: int, validation: Option<Error>)

  function Run(cfg: AppConfig, l: Launching, steps: seq<Step>): Daemon {
    if steps == [] then Start(Initial(cfg, l.configError), l.now, l.validation)
    else Take(cfg, Run(cfg, l, steps[..|steps| - 1]), steps[|steps| - 1]).daemon
  }

  // ------------------------------------------------------------------ the invariant

  /** The records of the console, of pairing, of the button and of the degraded mode each hang together. */
  predicate Inv(cfg: AppConfig, s: Daemon) {
    && ConsoleInv(s.console, s.mode.state)
    && PairInv(cfg, s.pairing)
    && PairingConsoleInv(s)
    && ButtonInv(s.button)
    && ModeInv(s.mode)
  }

  predicate ConsoleInv(c: ConsoleRecord, state: SessionState) {
    && (c.running <==> c.pid.Some?)
    && (c.running <==> c.backend.Some?)
    && (state == ShowingConsole ==> c.running)
    && (c.running ==> state != DisplaySleeping)
  }

  predicate PairInv(cfg: AppConfig, p: Pairing) {
    && (p.state == PendingPinApproval <==> p.pin.Some?)
    && (p.state == PendingPinApproval <==> p.requestedAt.Some?)
    && (p.launchPending ==> p.state == PendingPinApproval)
    && (p.state == PendingPinApproval ==> cfg.Backend() == Moonlight)
  }

  /** While a console runs and a PIN is pending there is no reconnect deadline. */
  predicate PairingConsoleInv(s: Daemon) {
    s.console.running && s.pairing.state == PendingPinApproval ==>
      && s.reconnect.nextAt.None?
      && (s.console.backend == Some(Moonlight) ==> s.mode.state == WaitingForPairing)
  }

  predicate ButtonInv(b: Button) {
    && (b.inFlight <==> b.startedAt.Some?)
    && (b.inFlight ==> b.lastAction.Some?)
  }

  predicate ModeInv(m: Mode) {
    && (m.degradedReason.Some? ==> m.state == Degraded)
    && (m.state == Degraded ==> IsBlocked(m))
  }

  lemma EnterDegradedKeeps(cfg: AppConfig, s: Daemon, reason: Error)
    requires PairInv(cfg, s.pairing) && ButtonInv(s.button)
    ensures Inv(cfg, EnterDegraded(s, reason).daemon)
  {
  }

  lemma RefreshStatusKeeps(cfg: AppConfig, s: Daemon, now: int, reading: StatusReading)
    requires Inv(cfg, s)
    ensures Inv(cfg, RefreshStatus(s, now, reading).daemon)
  {
  }

  lemma RefreshActionKeeps(cfg: AppConfig, s: Daemon, now: int, v: VmStatus)
    requires Inv(cfg, s)
    ensures Inv(cfg, RefreshAction(cfg, s, now, v))
  {
  }

  /** The button is all that has changed, and some of what no invariant speaks of. */
  predicate OnlyButton(s: Daemon, t: Daemon) {
    && t.console == s.console && t.mode == s.mode && t.pairing == s.pairing && t.reconnect == s.reconnect
    && ButtonInv(t.button)
  }

  lemma OnlyButtonKeeps(cfg: AppConfig, s: Daemon, t: Daemon)
    requires Inv(cfg, s) && OnlyButton(s, t)
    ensures Inv(cfg, t)
  {
  }

  lemma CommandKeeps(s: Daemon, now: int, action: Action, failure: Option<string>)
    requires ButtonInv(s.button) && !s.button.inFlight
    ensures OnlyButton(s, IssueCommand(s, now, action, failure))
  {
  }

  lemma ActOnPressKeeps(cfg: AppConfig, s: Daemon, now: int, v: VmStatus, failure: Option<string>)
    requires Inv(cfg, s)
    ensures Inv(cfg, ActOnPress(cfg, s, now, v, failure))
  {
    if !s.button.inFlight {
      CommandKeeps(s, now, StartVm, failure);
      CommandKeeps(s, now, ShutdownVm, failure);
    }
    OnlyButtonKeeps(cfg, s, ActOnPress(cfg, s, now, v, failure));
  }

  lemma HandlePressKeeps(cfg: AppConfig, s: Daemon, now: int, press: Press)
    requires Inv(cfg, s)
    ensures Inv(cfg, HandlePress(cfg, s, now, press))
  {
    RefreshStatusKeeps(cfg, s, now, press.reading);
    var r := RefreshStatus(s, now, press.reading);
    if r.status.Some? {
      RefreshActionKeeps(cfg, r.daemon, now, r.status.value);
      ActOnPressKeeps(cfg, RefreshAction(cfg, r.daemon, now, r.status.value), now, r.status.value, press.failure);
    }
  }

  lemma {:induction false} HandlePressesKeep(cfg: AppConfig, s: Daemon, now: int, presses: seq<Press>)
    requires Inv(cfg, s)
    ensures Inv(cfg, HandlePresses(cfg, s, now, presses))
  {
    if presses != [] {
      HandlePressesKeep(cfg, s, now, presses[..|presses| - 1]);
      HandlePressKeeps(cfg, HandlePresses(cfg, s, now, presses[..|presses| - 1]), now, presses[|presses| - 1]);
    }
  }

  /** What presses leave alone. */
  predicate SameAside(s: Daemon, t: Daemon) {
    s.display == t.display && s.pairing == t.pairing && s.sessionReady == t.sessionReady && s.reconnect == t.reconnect
  }

  lemma PressLeaves(cfg: AppConfig, s: Daemon, now: int, press: Press)
    ensures SameAside(s, HandlePress(cfg, s, now, press))
  {
  }

  lemma {:induction false} PressesLeave(cfg: AppConfig, s: Daemon, now: int, presses: seq<Press>)
    ensures SameAside(s, HandlePresses(cfg, s, now, presses))
  {
    if presses != [] {
      var before := presses[..|presses| - 1];
      PressesLeave(cfg, s, now, before);
      PressLeaves(cfg, HandlePresses(cfg, s, now, before), now, presses[|presses| - 1]);
    }
  }

  lemma PollButtonKeeps(cfg: AppConfig, s: Daemon, now: int, poll: ButtonPoll)
    requires Inv(cfg, s)
    ensures Inv(cfg, PollButton(cfg, s, now, poll))
  {
    if poll.Presses? {
      HandlePressesKeep(cfg, s, now, poll.presses);
    }
  }

  lemma UpdateIntentKeeps(cfg: AppConfig, s: Daemon, now: int)
    requires Inv(cfg, s)
    ensures Inv(cfg, UpdateIntent(cfg, s, now).daemon)
  {
  }

  lemma HostLostKeeps(cfg: AppConfig, s: Daemon, now: int, why: Error)
    requires Inv(cfg, s) && !IsBlocked(s.mode) && (s.console.running ==> IsPairingConsole(s))
    ensures Inv(cfg, HostLost(cfg, s, now, why).daemon)
  {
  }

  lemma AwaitPairingKeeps(cfg: AppConfig, s: Daemon, now: int, pin: string)
    requires Inv(cfg, s) && cfg.Backend() == Moonlight && !IsBlocked(s.mode) && s.reconnect.nextAt.None?
    ensures Inv(cfg, AwaitPairing(cfg, s, now, pin).daemon)
  {
  }

  ghost predicate PairingOutcomeInv(cfg: AppConfig, o: PairingOutcome) {
    match o
    case PairingBlocked(t, _) => Inv(cfg, t)
    case PairingReady(t) => ReadyToLaunch(cfg, t) && t.reconnect.nextAt.None?
    case PairingFailed(t, _) => PairInv(cfg, t.pairing) && ButtonInv(t.button)
  }

  /** What pairing leaves behind when it lets the tick go on: no reconnect deadline and no open pairing. */
  lemma HandlePairingKeeps(cfg: AppConfig, s: Daemon, now: int, p: PairProbe)
    requires Inv(cfg, s) && cfg.Backend() == Moonlight && !IsBlocked(s.mode)
    requires s.console.running ==> IsPairingConsole(s)
    ensures PairingOutcomeInv(cfg, HandlePairing(cfg, s, now, p))
  {
    HostLostKeeps(cfg, s, now, HostUnreachable);
    var t := ClearDeadline(s);
    assert Inv(cfg, t);
    HostLostKeeps(cfg, t, now, PairProbeUnreachable);
    AwaitPairingKeeps(cfg, t, now, p.pin);
    assert ReadyToLaunch(cfg, MarkPaired(t));
  }

  /** Before a launch the invariant holds except that the mode is about to change. */
  predicate ReadyToLaunch(cfg: AppConfig, s: Daemon) {
    Inv(cfg, s) && !IsBlocked(s.mode) && (s.console.running ==> s.pairing.state != PendingPinApproval)
  }

  lemma LaunchKeeps(cfg: AppConfig, s: Daemon, now: int, preparation: Preparation)
    requires ReadyToLaunch(cfg, s)
    ensures Inv(cfg, Launch(cfg, s, now, preparation).daemon)
  {
  }

  lemma LaunchWhenDueKeeps(cfg: AppConfig, s: Daemon, now: int, inp: TickInput, paired: bool)
    requires ReadyToLaunch(cfg, s) && (!paired ==> !s.console.running)
    ensures Inv(cfg, LaunchWhenDue(cfg, s, now, inp, paired).daemon)
  {
    if DeadlinePassed(s.reconnect, now) {
      if cfg.Backend() != Moonlight || paired {
        LaunchKeeps(cfg, s, now, inp.preparation);
      } else {
        HandlePairingKeeps(cfg, s, now, inp.pairing);
        match HandlePairing(cfg, s, now, inp.pairing) {
          case PairingFailed(t, text) => EnterDegradedKeeps(cfg, t, PreparationFailed(Moonlight, text));
          case PairingBlocked(t, _) =>
          case PairingReady(t) => LaunchKeeps(cfg, t, now, inp.preparation);
        }
      }
    }
  }

  lemma ShowConsoleKeeps(cfg: AppConfig, s: Daemon, now: int, inp: TickInput)
    requires Inv(cfg, s) && !IsBlocked(s.mode)
    ensures Inv(cfg, ShowConsole(cfg, s, now, inp).daemon)
  {
    if !s.console.running {
      LaunchWhenDueKeeps(cfg, s, now, inp, false);
    } else if IsPairingConsole(s) {
      HandlePairingKeeps(cfg, s, now, inp.pairing);
      match HandlePairing(cfg, s, now, inp.pairing) {
        case PairingFailed(t, text) => EnterDegradedKeeps(cfg, t, PreparationFailed(Moonlight, text));
        case PairingBlocked(t, _) =>
        case PairingReady(t) => LaunchWhenDueKeeps(cfg, t, now, inp, true);
      }
    }
  }

  lemma StandByKeeps(cfg: AppConfig, s: Daemon)
    requires Inv(cfg, s)
    ensures Inv(cfg, StandBy(cfg, s).daemon)
  {
  }

  lemma IdleKeeps(cfg: AppConfig, s: Daemon)
    requires Inv(cfg, s)
    ensures Inv(cfg, Idle(s))
  {
  }

  lemma ServeKeeps(cfg: AppConfig, s: Daemon, now: int, v: VmStatus, inp: TickInput, display: seq<DaemonMessage>)
    requires Inv(cfg, s) && !IsBlocked(s.mode)
    ensures Inv(cfg, Serve(cfg, s, now, v, inp, display).daemon)
  {
    StandByKeeps(cfg, s);
    IdleKeeps(cfg, s);
    ShowConsoleKeeps(cfg, s, now, inp);
  }

  lemma TickKeeps(cfg: AppConfig, s: Daemon, now: int, inp: TickInput)
    requires Inv(cfg, s)
    ensures Inv(cfg, Tick(cfg, s, now, inp).daemon)
  {
    PollButtonKeeps(cfg, s, now, inp.poll);
    var polled := PollButton(cfg, s, now, inp.poll);
    if !IsBlocked(polled.mode) {
      RefreshStatusKeeps(cfg, polled, now, inp.reading);
      var r := RefreshStatus(polled, now, inp.reading);
      if r.status.Some? {
        LookKeeps(cfg, r.daemon, now, r.status.value, inp);
      }
    }
  }

  lemma LookKeeps(cfg: AppConfig, s: Daemon, now: int, v: VmStatus, inp: TickInput)
    requires Inv(cfg, s) && !IsBlocked(s.mode)
    ensures
      var u := UpdateIntent(cfg, RefreshAction(cfg, s, now, v), now);
      Inv(cfg, Serve(cfg, u.daemon, now, v, inp, u.messages).daemon)
  {
    RefreshActionKeeps(cfg, s, now, v);
    var t := RefreshAction(cfg, s, now, v);
    UpdateIntentKeeps(cfg, t, now);
    var u := UpdateIntent(cfg, t, now);
    ServeKeeps(cfg, u.daemon, now, v, inp, u.messages);
  }

  /** What is left of the invariant when the session's record has just been reset. */
  predicate ResetInv(cfg: AppConfig, s: Daemon) {
    PairInv(cfg, s.pairing) && ButtonInv(s.button) && ModeInv(s.mode) && s.console == NO_CONSOLE
  }

  lemma GreetKeeps(cfg: AppConfig, s: Daemon)
    requires ResetInv(cfg, s)
    ensures Inv(cfg, Greet(cfg, s).daemon)
  {
  }

  lemma WaitingKeeps(cfg: AppConfig, s: Daemon)
    requires ResetInv(cfg, s)
    ensures Inv(cfg, Transition(s, WaitingState(s.display)))
  {
  }

  lemma FailedReadyKeeps(cfg: AppConfig, s: Daemon, now: int, text: string)
    requires ResetInv(cfg, s) && !IsBlocked(s.mode)
    ensures
      var t := RecordFailure(s, now, text).daemon;
      Inv(cfg, if t.mode.state == Degraded then t else Transition(t, WaitingState(t.display)))
  {
    var t := RecordFailure(s, now, text).daemon;
    if t.mode.state != Degraded {
      WaitingKeeps(cfg, t);
    }
  }

  lemma OnReadyKeeps(cfg: AppConfig, s: Daemon, now: int, reading: StatusReading)
    requires Inv(cfg, s)
    ensures Inv(cfg, OnReady(cfg, s, now, reading).daemon)
  {
    var t := ResetSession(s, true);
    assert ResetInv(cfg, t);
    if !IsBlocked(t.mode) {
      match reading {
        case StatusIs(_) => GreetKeeps(cfg, RefreshStatus(t, now, reading).daemon);
        case StatusUnreadable(text) => FailedReadyKeeps(cfg, t, now, text);
      }
    }
  }

  lemma OnStartedKeeps(cfg: AppConfig, s: Daemon, pid: int, backend: Option<Backend>)
    requires Inv(cfg, s)
    ensures Inv(cfg, OnStarted(cfg, s, pid, backend))
  {
  }

  lemma AfterExitKeeps(cfg: AppConfig, s: Daemon, now: int)
    requires PairInv(cfg, s.pairing) && ButtonInv(s.button) && s.console == NO_CONSOLE
    ensures Inv(cfg, AfterExit(cfg, s, now).daemon)
  {
  }

  lemma OnExitedKeeps(cfg: AppConfig, s: Daemon, now: int, code: int, signal: int, backend: Option<Backend>)
    requires Inv(cfg, s)
    ensures Inv(cfg, OnExited(cfg, s, now, code, signal, backend).daemon)
  {
    var b := backend.GetOr(s.console.backend.GetOr(cfg.Backend()));
    var report := s.report.(lastExit := Some(ExitRecord(now, code, signal, b)), lastError := Some(ConsoleExit(b, code, signal)));
    AfterExitKeeps(cfg, s.(console := NO_CONSOLE, report := report), now);
  }

  lemma HandleMessageKeeps(cfg: AppConfig, s: Daemon, message: SessionMessage, now: int, reading: StatusReading)
    requires Inv(cfg, s)
    ensures Inv(cfg, HandleMessage(cfg, s, message, now, reading).daemon)
  {
    match message
    case SessionReady => OnReadyKeeps(cfg, s, now, reading);
    case ConsoleStarted(pid, backend) => OnStartedKeeps(cfg, s, pid, backend);
    case ConsoleExited(code, signal, backend) => OnExitedKeeps(cfg, s, now, code, signal, backend);
    case DisplayPowerApplied(power) =>
    case SessionError(reason) =>
      EnterDegradedKeeps(cfg, s.(console := s.console.(running := false, pid := None)), Reported(reason));
  }

  lemma OnDisconnectKeeps(cfg: AppConfig, s: Daemon)
    requires Inv(cfg, s)
    ensures Inv(cfg, OnDisconnect(s))
  {
  }

  /** The invariant holds after every run, whatever the session sends. */
  lemma {:induction false} RunKeepsInv(cfg: AppConfig, l: Launching, steps: seq<Step>)
    ensures Inv(cfg, Run(cfg, l, steps))
  {
    if steps != [] {
      RunKeepsInv(cfg, l, steps[..|steps| - 1]);
      var s := Run(cfg, l, steps[..|steps| - 1]);
      match steps[|steps| - 1] {
        case TickStep(now, inp) => TickKeeps(cfg, s, now, inp);
        case MessageStep(now, message, reading) => HandleMessageKeeps(cfg, s, message, now, reading);
        case DisconnectStep => OnDisconnectKeeps(cfg, s);
      }
    }
  }
}
