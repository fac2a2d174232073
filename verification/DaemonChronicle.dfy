/** Every step keeps the chronicle, so every run whose times do not go back has one. */
module DaemonChronicle {
  import opened Wrappers
  import opened Config
  import opened Messages
  import opened History
  import opened DaemonSpec
  import opened DaemonInvariant
  import opened DaemonHistory

  lemma {:induction false} NotAfterLater(h: History, now: int, later: int)
    requires NotAfter(h, now) && now <= later
    ensures NotAfter(h, later)
  {
    if h.After? {
      NotAfterLater(h.past, now, later);
    }
  }

  // ------------------------------------------------------------------ the power button

  lemma HandlePressChronicle(cfg: AppConfig, s: Daemon, now: int, press: Press)
    requires Chronicle(cfg, s, now) && Parsed(cfg)
    ensures Chronicle(cfg, HandlePress(cfg, s, now, press), now)
  {
    StatusChronicle(cfg, s, now, press.reading);
    var r := RefreshStatus(s, now, press.reading);
    if r.status.Some? {
      var v := r.status.value;
      ActionChronicle(cfg, r.daemon, now, v);
      PressChronicle(cfg, RefreshAction(cfg, r.daemon, now, v), now, v, press.failure);
    }
  }

  lemma {:induction false} HandlePressesChronicle(cfg: AppConfig, s: Daemon, now: int, presses: seq<Press>)
    requires Chronicle(cfg, s, now) && Parsed(cfg)
    ensures Chronicle(cfg, HandlePresses(cfg, s, now, presses), now)
  {
    if presses != [] {
      HandlePressesChronicle(cfg, s, now, presses[..|presses| - 1]);
      HandlePressChronicle(cfg, HandlePresses(cfg, s, now, presses[..|presses| - 1]), now, presses[|presses| - 1]);
    }
  }

  lemma StartupErrorChronicle(cfg: AppConfig, s: Daemon, now: int, reason: Error)
    requires Chronicle(cfg, s, now)
    ensures Chronicle(cfg, SetStartupError(s, reason), now)
  {
    EndPairingChronicle(cfg, s, now, Unknown);
  }

  lemma PollButtonChronicle(cfg: AppConfig, s: Daemon, now: int, poll: ButtonPoll)
    requires Chronicle(cfg, s, now) && Parsed(cfg)
    ensures Chronicle(cfg, PollButton(cfg, s, now, poll), now)
  {
    match poll
    case PollFailed(text) => StartupErrorChronicle(cfg, s, now, ButtonReadFailed(text));
    case Presses(presses) => HandlePressesChronicle(cfg, s, now, presses);
  }

  // ------------------------------------------------------------------ the display

  /** The code's deadline is the one of the history. */
  lemma OffDueMeans(cfg: AppConfig, s: Daemon, now: int)
    requires GuestHist(s.guest, s.history) && DisplayHist(s.display, s.startedAt, s.history)
    ensures
      var due := OffDueAt(cfg, s.guest.sinceAt, s.startedAt, s.display.policyPending);
      OffDue(cfg, s.history, now) <==> due.Some? && due.value <= now
  {
  }

  lemma DecideChronicle(cfg: AppConfig, s: Daemon, now: int, power: Power)
    requires Chronicle(cfg, s, now) && LawfulDecision(cfg, s.history, now, power)
    ensures Chronicle(cfg, Decide(s, now, power), now)
  {
  }

  lemma UpdateIntentChronicle(cfg: AppConfig, s: Daemon, now: int)
    requires Chronicle(cfg, s, now)
    ensures Chronicle(cfg, UpdateIntent(cfg, s, now).daemon, now)
  {
    if !IsStarting(s.button) {
      assert !StartInFlight(s.history);
      if IsOn(s.guest.power) {
        DecideChronicle(cfg, s, now, On);
      } else if IsOff(s.guest.power) {
        OffDueMeans(cfg, s, now);
        if OffDue(cfg, s.history, now) {
          DecideChronicle(cfg, s, now, Off);
        }
      }
    }
  }

  // ------------------------------------------------------------------ pairing

  lemma AwaitPairingChronicle(cfg: AppConfig, s: Daemon, now: int, pin: string)
    requires Chronicle(cfg, s, now) && PairInv(cfg, s.pairing)
    ensures Chronicle(cfg, AwaitPairing(cfg, s, now, pin).daemon, now)
  {
  }

  lemma HostLostChronicle(cfg: AppConfig, s: Daemon, now: int, why: Error)
    requires Chronicle(cfg, s, now) && Parsed(cfg)
    ensures Chronicle(cfg, HostLost(cfg, s, now, why).daemon, now)
  {
    EndPairingChronicle(cfg, s, now, Unknown);
    ScheduleChronicle(cfg, SetError(ClearPairing(s), Some(why)), now);
  }

  lemma HandlePairingChronicle(cfg: AppConfig, s: Daemon, now: int, p: PairProbe)
    requires Chronicle(cfg, s, now) && Parsed(cfg) && PairInv(cfg, s.pairing)
    ensures Chronicle(cfg, HandlePairing(cfg, s, now, p).daemon, now)
  {
    if !p.reachable {
      HostLostChronicle(cfg, s, now, HostUnreachable);
    } else {
      var t := ClearDeadline(s);
      SameButDeadline(cfg, s, now);
      PairedChronicle(cfg, t, now);
      if p.live.ProbeUnreachable? {
        HostLostChronicle(cfg, t, now, PairProbeUnreachable);
      } else if p.live.ProbeUnpaired? {
        AwaitPairingChronicle(cfg, t, now, p.pin);
      }
    }
  }

  lemma SameButDeadline(cfg: AppConfig, s: Daemon, now: int)
    requires Chronicle(cfg, s, now)
    ensures Chronicle(cfg, ClearDeadline(s), now)
  {
  }

  lemma PairedChronicle(cfg: AppConfig, s: Daemon, now: int)
    requires Chronicle(cfg, s, now)
    ensures Chronicle(cfg, MarkPaired(s), now)
  {
    EndPairingChronicle(cfg, s, now, Paired);
    SameRecordChronicle(cfg, EndPairing(s, Paired), MarkPaired(s), now);
  }

  // ------------------------------------------------------------------ the tick

  lemma ClearedChronicle(cfg: AppConfig, s: Daemon, now: int)
    requires Chronicle(cfg, s, now)
    ensures Chronicle(cfg, s.(failures := [], history := After(s.history, FailuresCleared(now))), now)
  {
  }

  lemma DegradedChronicle(cfg: AppConfig, s: Daemon, now: int, reason: Error)
    requires Chronicle(cfg, s, now)
    ensures Chronicle(cfg, EnterDegraded(s, reason).daemon, now)
  {
  }

  lemma LaunchChronicle(cfg: AppConfig, s: Daemon, now: int, preparation: Preparation)
    requires Chronicle(cfg, s, now) && Parsed(cfg)
    ensures Chronicle(cfg, Launch(cfg, s, now, preparation).daemon, now)
  {
    var t := Transition(s, RequestingConsole);
    match preparation
    case EndpointUnavailable(text) => ScheduleChronicle(cfg, SetError(t, Some(Reported(text))), now);
    case PreparationInvalid(_) =>
    case PreparationCommandFailed(text) => FailureChronicle(cfg, t, now, text);
    case Prepared => ClearedChronicle(cfg, ClearDeadline(t), now);
  }

  lemma LaunchWhenDueChronicle(cfg: AppConfig, s: Daemon, now: int, inp: TickInput, paired: bool)
    requires Chronicle(cfg, s, now) && Parsed(cfg) && (!paired ==> PairInv(cfg, s.pairing))
    ensures Chronicle(cfg, LaunchWhenDue(cfg, s, now, inp, paired).daemon, now)
  {
    if !DeadlinePassed(s.reconnect, now) {
      SameRecordChronicle(cfg, s, Transition(s, ReconnectingConsole), now);
    } else if cfg.Backend() != Moonlight || paired {
      LaunchChronicle(cfg, s, now, inp.preparation);
    } else {
      HandlePairingChronicle(cfg, s, now, inp.pairing);
      var o := HandlePairing(cfg, s, now, inp.pairing);
      match o {
        case PairingFailed(u, text) => DegradedChronicle(cfg, u, now, PreparationFailed(Moonlight, text));
        case PairingBlocked(_, _) =>
        case PairingReady(u) => LaunchChronicle(cfg, u, now, inp.preparation);
      }
    }
  }

  lemma PairingConsoleChronicle(cfg: AppConfig, s: Daemon, now: int, inp: TickInput)
    requires Chronicle(cfg, s, now) && Parsed(cfg) && PairInv(cfg, s.pairing)
    requires s.console.running && IsPairingConsole(s)
    ensures Chronicle(cfg, ShowConsole(cfg, s, now, inp).daemon, now)
  {
    HandlePairingChronicle(cfg, s, now, inp.pairing);
    match HandlePairing(cfg, s, now, inp.pairing)
    case PairingFailed(u, text) => DegradedChronicle(cfg, u, now, PreparationFailed(Moonlight, text));
    case PairingBlocked(_, _) =>
    case PairingReady(u) => LaunchWhenDueChronicle(cfg, u, now, inp, true);
  }

  lemma ShowConsoleChronicle(cfg: AppConfig, s: Daemon, now: int, inp: TickInput)
    requires Chronicle(cfg, s, now) && Parsed(cfg) && PairInv(cfg, s.pairing)
    ensures Chronicle(cfg, ShowConsole(cfg, s, now, inp).daemon, now)
  {
    if !s.console.running {
      LaunchWhenDueChronicle(cfg, s, now, inp, false);
    } else if !IsPairingConsole(s) {
      SameRecordChronicle(cfg, s, Transition(SetError(s, None), ShowingConsole), now);
    } else {
      PairingConsoleChronicle(cfg, s, now, inp);
    }
  }

  lemma ServeChronicle(cfg: AppConfig, s: Daemon, now: int, v: VmStatus, inp: TickInput, display: seq<DaemonMessage>)
    requires Chronicle(cfg, s, now) && Parsed(cfg) && PairInv(cfg, s.pairing)
    ensures Chronicle(cfg, Serve(cfg, s, now, v, inp, display).daemon, now)
  {
    if IsOff(v) {
      ResetChronicle(cfg, s, now);
      EndPairingChronicle(cfg, ResetBackoff(cfg, s), now, Unknown);
    } else if IsOn(v) {
      ShowConsoleChronicle(cfg, s, now, inp);
    } else {
      EndPairingChronicle(cfg, s, now, Unknown);
    }
  }

  /** The state of a tick once the button has been polled, the status read and the action in flight looked at. */
  function Observed(cfg: AppConfig, s: Daemon, now: int, poll: ButtonPoll, v: VmStatus): Daemon {
    RefreshAction(cfg, RefreshStatus(PollButton(cfg, s, now, poll), now, StatusIs(v)).daemon, now, v)
  }

  lemma ObservedChronicle(cfg: AppConfig, s: Daemon, now: int, poll: ButtonPoll, v: VmStatus)
    requires Chronicle(cfg, s, now) && Parsed(cfg) && Inv(cfg, s)
    ensures Chronicle(cfg, Observed(cfg, s, now, poll, v), now) && Inv(cfg, Observed(cfg, s, now, poll, v))
  {
    PollButtonChronicle(cfg, s, now, poll);
    PollButtonKeeps(cfg, s, now, poll);
    var polled := PollButton(cfg, s, now, poll);
    StatusChronicle(cfg, polled, now, StatusIs(v));
    RefreshStatusKeeps(cfg, polled, now, StatusIs(v));
    ActionChronicle(cfg, RefreshStatus(polled, now, StatusIs(v)).daemon, now, v);
    RefreshActionKeeps(cfg, RefreshStatus(polled, now, StatusIs(v)).daemon, now, v);
  }

  lemma TickChronicle(cfg: AppConfig, s: Daemon, now: int, inp: TickInput)
    requires Chronicle(cfg, s, now) && Parsed(cfg) && Inv(cfg, s)
    ensures Chronicle(cfg, Tick(cfg, s, now, inp).daemon, now)
  {
    PollButtonChronicle(cfg, s, now, inp.poll);
    match inp.reading
    case StatusUnreadable(_) => StatusChronicle(cfg, PollButton(cfg, s, now, inp.poll), now, inp.reading);
    case StatusIs(v) =>
      ObservedChronicle(cfg, s, now, inp.poll, v);
      var o := Observed(cfg, s, now, inp.poll, v);
      UpdateIntentChronicle(cfg, o, now);
      UpdateIntentKeeps(cfg, o, now);
      var u := UpdateIntent(cfg, o, now);
      ServeChronicle(cfg, u.daemon, now, v, inp, u.messages);
  }

  // ------------------------------------------------------------------ session messages

  lemma ResetSessionChronicle(cfg: AppConfig, s: Daemon, now: int, ready: bool)
    requires Chronicle(cfg, s, now)
    ensures Chronicle(cfg, ResetSession(s, ready), now)
  {
  }

  lemma ReadyRecord(cfg: AppConfig, s: Daemon, now: int, reading: StatusReading)
    ensures
      var t := ResetSession(s, true);
      SameRecord(if IsBlocked(t.mode) then t else RefreshStatus(t, now, reading).daemon, OnReady(cfg, s, now, reading).daemon)
  {
  }

  lemma OnReadyChronicle(cfg: AppConfig, s: Daemon, now: int, reading: StatusReading)
    requires Chronicle(cfg, s, now)
    ensures Chronicle(cfg, OnReady(cfg, s, now, reading).daemon, now)
  {
    var t := ResetSession(s, true);
    ResetSessionChronicle(cfg, s, now, true);
    StatusChronicle(cfg, t, now, reading);
    ReadyRecord(cfg, s, now, reading);
    SameRecordChronicle(
      cfg, if IsBlocked(t.mode) then t else RefreshStatus(t, now, reading).daemon, OnReady(cfg, s, now, reading).daemon, now);
  }

  lemma ExitedRecord(cfg: AppConfig, s: Daemon, now: int, code: int, signal: int, backend: Option<Backend>)
    ensures
      var t := OnExited(cfg, s, now, code, signal, backend).daemon;
      SameRecord(s, t) || SameRecord(ClearDeadline(s), t) || SameRecord(ScheduleReconnect(cfg, s, now), t)
  {
  }

  lemma OnExitedChronicle(cfg: AppConfig, s: Daemon, now: int, code: int, signal: int, backend: Option<Backend>)
    requires Chronicle(cfg, s, now) && Parsed(cfg)
    ensures Chronicle(cfg, OnExited(cfg, s, now, code, signal, backend).daemon, now)
  {
    var t := OnExited(cfg, s, now, code, signal, backend).daemon;
    ExitedRecord(cfg, s, now, code, signal, backend);
    AnyChronicle(cfg, s, ClearDeadline(s), ScheduleReconnect(cfg, s, now), t, now);
  }

  /** It is enough to have the record of one of three daemons that have a chronicle. */
  lemma AnyChronicle(cfg: AppConfig, s: Daemon, cleared: Daemon, scheduled: Daemon, t: Daemon, now: int)
    requires Chronicle(cfg, s, now) && Parsed(cfg)
    requires cleared == ClearDeadline(s) && scheduled == ScheduleReconnect(cfg, s, now)
    requires SameRecord(s, t) || SameRecord(cleared, t) || SameRecord(scheduled, t)
    ensures Chronicle(cfg, t, now)
  {
    if SameRecord(s, t) {
      SameRecordChronicle(cfg, s, t, now);
    } else if SameRecord(cleared, t) {
      SameRecordChronicle(cfg, cleared, t, now);
    } else {
      ScheduleChronicle(cfg, s, now);
      SameRecordChronicle(cfg, scheduled, t, now);
    }
  }

  lemma HandleMessageChronicle(cfg: AppConfig, s: Daemon, message: SessionMessage, now: int, reading: StatusReading)
    requires Chronicle(cfg, s, now) && Parsed(cfg)
    ensures Chronicle(cfg, HandleMessage(cfg, s, message, now, reading).daemon, now)
  {
    match message
    case SessionReady => OnReadyChronicle(cfg, s, now, reading);
    case ConsoleStarted(_, _) => ResetChronicle(cfg, s, now);
    case ConsoleExited(code, signal, backend) => OnExitedChronicle(cfg, s, now, code, signal, backend);
    case DisplayPowerApplied(power) => AppliedChronicle(cfg, s, now, power);
    case SessionError(reason) => ErrorChronicle(cfg, s, now, reason);
  }

  lemma AppliedChronicle(cfg: AppConfig, s: Daemon, now: int, power: Power)
    requires Chronicle(cfg, s, now)
    ensures Chronicle(cfg, OnPowerApplied(s, power), now)
  {
  }

  lemma ErrorChronicle(cfg: AppConfig, s: Daemon, now: int, reason: string)
    requires Chronicle(cfg, s, now)
    ensures Chronicle(cfg, OnSessionError(s, reason).daemon, now)
  {
  }

  // ------------------------------------------------------------------ runs

  function StepTime(step: Step): Option<int> {
    match step
    case TickStep(now, _) => Some(now)
    case MessageStep(now, _, _) => Some(now)
    case DisconnectStep => None
  }

  /** The time of the latest step of the run that has one. */
  function Clock(l: Launching, steps: seq<Step>): int {
    if steps == [] then l.now
    else StepTime(steps[|steps| - 1]).GetOr(Clock(l, steps[..|steps| - 1]))
  }

  /** The times of the run do not go back. */
  predicate InOrder(l: Launching, steps: seq<Step>) {
    steps != [] ==>
      && InOrder(l, steps[..|steps| - 1])
      && Clock(l, steps[..|steps| - 1]) <= Clock(l, steps)
  }

  lemma StartedChronicle(cfg: AppConfig, s: Daemon, now: int)
    requires Chronicle(cfg, s, now)
    ensures Chronicle(cfg, s.(startedAt := Some(now), history := After(s.history, DaemonStarted(now))), now)
  {
  }

  lemma {:induction false} StartChronicle(cfg: AppConfig, l: Launching)
    requires Parsed(cfg)
    ensures Chronicle(cfg, Run(cfg, l, []), l.now)
  {
    var s := Initial(cfg, l.configError);
    assert Chronicle(cfg, s, l.now);
    var t := s.(startedAt := Some(l.now), history := After(s.history, DaemonStarted(l.now)));
    StartedChronicle(cfg, s, l.now);
    if l.configError.Some? {
      StartupErrorChronicle(cfg, t, l.now, l.configError.value);
    } else if l.validation.Some? {
      StartupErrorChronicle(cfg, t, l.now, l.validation.value);
    }
  }

  /** After every run the state is the summary of its history, and every event of the history was lawful. */
  lemma {:induction false} RunHasChronicle(cfg: AppConfig, l: Launching, steps: seq<Step>)
    requires Parsed(cfg) && InOrder(l, steps)
    ensures Chronicle(cfg, Run(cfg, l, steps), Clock(l, steps))
  {
    if steps == [] {
      StartChronicle(cfg, l);
    } else {
      var before, step := steps[..|steps| - 1], steps[|steps| - 1];
      RunHasChronicle(cfg, l, before);
      RunKeepsInv(cfg, l, before);
      var s := Run(cfg, l, before);
      NotAfterLater(s.history, Clock(l, before), Clock(l, steps));
      match step {
        case TickStep(now, inp) => TickChronicle(cfg, s, now, inp);
        case MessageStep(now, message, reading) => HandleMessageChronicle(cfg, s, message, now, reading);
        case DisconnectStep => ResetSessionChronicle(cfg, s, Clock(l, steps), false);
      }
    }
  }
}
