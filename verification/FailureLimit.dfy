/** Over every run, a failure degrades the daemon exactly when it fills the window, wherever it happens. */
module FailureLimit {
  import opened Wrappers
  import opened Config
  import opened Messages
  import opened History
  import opened DaemonSpec
  import opened DaemonInvariant
  import opened DaemonHistory
  import opened DaemonChronicle
  import DaemonProperties

  /** The degraded mode that a failure leads to. */
  function Tripped(m: Mode, text: string): Mode {
    m.(state := Degraded, degradedReason := Some(Reported(text)))
  }

  /** Between the two, failures have filled the window and the last of these is the reason, or none has and the mode is the same. */
  predicate FailedAs(s: Daemon, t: Daemon) {
    var a, b := Trips(s.history), Trips(t.history);
    if a == b then t.mode == s.mode
    else |a| < |b| && t.mode == Tripped(s.mode, b[|b| - 1])
  }

  lemma FailureTrips(cfg: AppConfig, s: Daemon, now: int, text: string)
    requires Chronicle(cfg, s, now)
    ensures
      var t := RecordFailure(s, now, text).daemon;
      var filled := |FailureWindow(After(s.history, FailureRecorded(now, text)))| >= FAILURE_LIMIT;
      && Trips(t.history) == Trips(s.history) + (if filled then [text] else [])
      && t.mode == (if filled then Tripped(s.mode, text) else s.mode)
      && (filled <==> |MoreFailures(s.failures, now)| >= FAILURE_LIMIT)
  {
    WindowGrows(s.history, now, text);
  }

  lemma FailureFails(cfg: AppConfig, s: Daemon, now: int, text: string)
    requires Chronicle(cfg, s, now)
    ensures FailedAs(s, RecordFailure(s, now, text).daemon)
  {
    FailureTrips(cfg, s, now, text);
  }

  // ------------------------------------------------------------------ presses

  lemma {:induction false} OtherEvent(h: History, e: Event)
    requires !e.FailureRecorded?
    ensures Trips(After(h, e)) == Trips(h)
  {
  }

  lemma RefreshCalm(cfg: AppConfig, s: Daemon, now: int, v: VmStatus)
    ensures Trips(RefreshAction(cfg, s, now, v).history) == Trips(s.history)
    ensures RefreshAction(cfg, s, now, v).mode == s.mode
  {
    OtherEvent(s.history, ActionResolved);
  }

  lemma CommandCalm(s: Daemon, now: int, action: Action, failure: Option<string>)
    ensures Trips(IssueCommand(s, now, action, failure).history) == Trips(s.history)
    ensures IssueCommand(s, now, action, failure).mode == s.mode
  {
    var e := CommandIssued(now, action, failure.None?);
    OtherEvent(s.history, e);
    OtherEvent(After(s.history, e), FailuresCleared(now));
  }

  lemma ActCalm(cfg: AppConfig, s: Daemon, now: int, v: VmStatus, failure: Option<string>)
    ensures Trips(ActOnPress(cfg, s, now, v, failure).history) == Trips(s.history)
    ensures ActOnPress(cfg, s, now, v, failure).mode == s.mode
  {
    CommandCalm(s, now, StartVm, failure);
    CommandCalm(s, now, ShutdownVm, failure);
  }

  lemma PressFails(cfg: AppConfig, s: Daemon, now: int, press: Press)
    requires Chronicle(cfg, s, now)
    ensures FailedAs(s, HandlePress(cfg, s, now, press))
  {
    match press.reading
    case StatusUnreadable(text) => FailureFails(cfg, s, now, text);
    case StatusIs(v) =>
      var r := RefreshStatus(s, now, press.reading).daemon;
      OtherEvent(s.history, StatusRead(now, v));
      RefreshCalm(cfg, r, now, v);
      ActCalm(cfg, RefreshAction(cfg, r, now, v), now, v, press.failure);
  }

  lemma FailedTwice(s: Daemon, t: Daemon, u: Daemon)
    requires FailedAs(s, t) && FailedAs(t, u)
    ensures FailedAs(s, u)
  {
  }

  lemma {:induction false} PressesFail(cfg: AppConfig, s: Daemon, now: int, presses: seq<Press>)
    requires Chronicle(cfg, s, now) && Parsed(cfg)
    ensures FailedAs(s, HandlePresses(cfg, s, now, presses))
  {
    if presses != [] {
      var before := presses[..|presses| - 1];
      PressesFail(cfg, s, now, before);
      HandlePressesChronicle(cfg, s, now, before);
      var t := HandlePresses(cfg, s, now, before);
      PressFails(cfg, t, now, presses[|presses| - 1]);
      FailedTwice(s, t, HandlePresses(cfg, s, now, presses));
    }
  }

  // ------------------------------------------------------------------ the rest of a tick

  /** No failure has filled the window, and the reason is none that a failure gives. */
  predicate IsCalm(s: Daemon, t: Daemon) {
    && Trips(t.history) == Trips(s.history)
    && (t.mode.degradedReason.Some? ==> !t.mode.degradedReason.value.Reported?)
  }

  /** A launch follows a read that succeeded, so its failure is the only one that counts. */
  lemma LaunchCalm(cfg: AppConfig, s: Daemon, now: int, preparation: Preparation)
    requires Chronicle(cfg, s, now) && s.failures == [] && s.mode.degradedReason.None?
    ensures IsCalm(s, Launch(cfg, s, now, preparation).daemon)
  {
    if preparation.PreparationCommandFailed? {
      FailureTrips(cfg, Transition(s, RequestingConsole), now, preparation.text);
    }
  }

  lemma PairingCalm(cfg: AppConfig, s: Daemon, now: int, p: PairProbe)
    requires s.mode.degradedReason.None?
    ensures
      var t := HandlePairing(cfg, s, now, p).daemon;
      Trips(t.history) == Trips(s.history) && t.failures == s.failures && t.mode.degradedReason.None?
  {
    if !p.reachable {
      HostLostCalm(cfg, s, now, HostUnreachable);
    } else {
      HostLostCalm(cfg, ClearDeadline(s), now, PairProbeUnreachable);
      OtherEvent(s.history, PairEnded);
      OtherEvent(s.history, PairLaunched(now, p.pin));
    }
  }

  lemma HostLostCalm(cfg: AppConfig, s: Daemon, now: int, why: Error)
    requires s.mode.degradedReason.None?
    ensures
      var t := HostLost(cfg, s, now, why).daemon;
      Trips(t.history) == Trips(s.history) && t.failures == s.failures && t.mode.degradedReason.None?
  {
    OtherEvent(s.history, PairEnded);
    OtherEvent(After(s.history, PairEnded), ReconnectScheduled(now, s.reconnect.delayMs));
  }

  lemma DegradedCalm(s: Daemon, t: Daemon, backend: Backend, text: string)
    requires Trips(t.history) == Trips(s.history)
    ensures IsCalm(s, EnterDegraded(t, PreparationFailed(backend, text)).daemon)
  {
  }

  lemma WhenDueCalm(cfg: AppConfig, s: Daemon, now: int, inp: TickInput, paired: bool)
    requires Chronicle(cfg, s, now) && Parsed(cfg) && PairInv(cfg, s.pairing)
    requires s.failures == [] && s.mode.degradedReason.None?
    ensures IsCalm(s, LaunchWhenDue(cfg, s, now, inp, paired).daemon)
  {
    if DeadlinePassed(s.reconnect, now) {
      if cfg.Backend() != Moonlight || paired {
        LaunchCalm(cfg, s, now, inp.preparation);
      } else {
        PairingCalm(cfg, s, now, inp.pairing);
        HandlePairingChronicle(cfg, s, now, inp.pairing);
        match HandlePairing(cfg, s, now, inp.pairing) {
          case PairingFailed(t, text) => DegradedCalm(s, t, Moonlight, text);
          case PairingBlocked(_, _) =>
          case PairingReady(t) => LaunchCalm(cfg, t, now, inp.preparation);
        }
      }
    }
  }

  lemma ShowCalm(cfg: AppConfig, s: Daemon, now: int, inp: TickInput)
    requires Chronicle(cfg, s, now) && Parsed(cfg) && Inv(cfg, s)
    requires s.failures == [] && s.mode.degradedReason.None?
    ensures IsCalm(s, ShowConsole(cfg, s, now, inp).daemon)
  {
    if !s.console.running {
      WhenDueCalm(cfg, s, now, inp, false);
    } else if IsPairingConsole(s) {
      PairingCalm(cfg, s, now, inp.pairing);
      HandlePairingChronicle(cfg, s, now, inp.pairing);
      match HandlePairing(cfg, s, now, inp.pairing) {
        case PairingFailed(t, text) => DegradedCalm(s, t, Moonlight, text);
        case PairingBlocked(_, _) =>
        case PairingReady(t) => WhenDueCalm(cfg, t, now, inp, true);
      }
    }
  }

  lemma ServeCalm(cfg: AppConfig, s: Daemon, now: int, v: VmStatus, inp: TickInput, display: seq<DaemonMessage>)
    requires Chronicle(cfg, s, now) && Parsed(cfg) && Inv(cfg, s)
    requires s.failures == [] && s.mode.degradedReason.None?
    ensures IsCalm(s, Serve(cfg, s, now, v, inp, display).daemon)
  {
    if IsOn(v) {
      ShowCalm(cfg, s, now, inp);
    }
  }

  lemma IntentCalm(cfg: AppConfig, s: Daemon, now: int)
    ensures
      var u := UpdateIntent(cfg, s, now).daemon;
      u.failures == s.failures && u.mode == s.mode && Trips(u.history) == Trips(s.history)
  {
    OtherEvent(s.history, DisplayDecided(now, On));
    OtherEvent(s.history, DisplayDecided(now, Off));
  }

  lemma LookTrips(cfg: AppConfig, s: Daemon, now: int, v: VmStatus)
    ensures
      var u := UpdateIntent(cfg, RefreshAction(cfg, RefreshStatus(s, now, StatusIs(v)).daemon, now, v), now).daemon;
      u.failures == [] && u.mode == s.mode && Trips(u.history) == Trips(s.history)
  {
    var r := RefreshStatus(s, now, StatusIs(v)).daemon;
    OtherEvent(s.history, StatusRead(now, v));
    RefreshCalm(cfg, r, now, v);
    IntentCalm(cfg, RefreshAction(cfg, r, now, v), now);
  }

  lemma LookKeeps(cfg: AppConfig, s: Daemon, now: int, v: VmStatus)
    requires Chronicle(cfg, s, now) && Inv(cfg, s)
    ensures
      var u := UpdateIntent(cfg, RefreshAction(cfg, RefreshStatus(s, now, StatusIs(v)).daemon, now, v), now).daemon;
      Chronicle(cfg, u, now) && Inv(cfg, u)
  {
    var r := RefreshStatus(s, now, StatusIs(v)).daemon;
    StatusChronicle(cfg, s, now, StatusIs(v));
    RefreshStatusKeeps(cfg, s, now, StatusIs(v));
    ActionChronicle(cfg, r, now, v);
    RefreshActionKeeps(cfg, r, now, v);
    UpdateIntentChronicle(cfg, RefreshAction(cfg, r, now, v), now);
    UpdateIntentKeeps(cfg, RefreshAction(cfg, r, now, v), now);
  }

  // ------------------------------------------------------------------ steps

  /**
    * Failures have filled the window in the step, and the daemon is degraded for the last of these; or none has, and
    * whatever reason the daemon has now is not one that a failure of this step gave.
    */
  predicate ReasonAs(s: Daemon, t: Daemon) {
    var a, b := Trips(s.history), Trips(t.history);
    var reason := t.mode.degradedReason;
    if a == b then reason.None? || reason == s.mode.degradedReason || !reason.value.Reported?
    else |a| < |b| && t.mode.state == Degraded && reason == Some(Reported(b[|b| - 1]))
  }

  /** With what the poll has found, the daemon goes on only if nothing has filled the window. */
  predicate PolledReason(s: Daemon, t: Daemon) {
    ReasonAs(s, t) && (!IsBlocked(t.mode) ==> Trips(t.history) == Trips(s.history) && !IsBlocked(s.mode))
  }

  lemma FailedReason(s: Daemon, t: Daemon)
    requires FailedAs(s, t)
    ensures PolledReason(s, t)
  {
  }

  lemma PollFailedReason(s: Daemon, text: string)
    ensures PolledReason(s, SetStartupError(s, ButtonReadFailed(text)))
  {
    OtherEvent(s.history, PairEnded);
    OtherEvent(After(s.history, PairEnded), ActionResolved);
  }

  lemma PollReason(cfg: AppConfig, s: Daemon, now: int, poll: ButtonPoll)
    requires Chronicle(cfg, s, now) && Parsed(cfg)
    ensures PolledReason(s, PollButton(cfg, s, now, poll))
  {
    if cfg.forwardPowerButton && s.mode.startupError.None? {
      match poll {
        case Presses(presses) =>
          PressesFail(cfg, s, now, presses);
          FailedReason(s, HandlePresses(cfg, s, now, presses));
        case PollFailed(text) => PollFailedReason(s, text);
      }
    }
  }

  /** The rest of a tick, once the button has been polled. */
  lemma LookReason(cfg: AppConfig, s: Daemon, now: int, inp: TickInput)
    requires Chronicle(cfg, s, now) && Inv(cfg, s) && Parsed(cfg)
    requires !IsBlocked(PollButton(cfg, s, now, inp.poll).mode)
    ensures ReasonAs(PollButton(cfg, s, now, inp.poll), Tick(cfg, s, now, inp).daemon)
  {
    var polled := PollButton(cfg, s, now, inp.poll);
    PollButtonChronicle(cfg, s, now, inp.poll);
    PollButtonKeeps(cfg, s, now, inp.poll);
    match inp.reading {
      case StatusUnreadable(text) => FailureFails(cfg, polled, now, text);
      case StatusIs(v) =>
        LookTrips(cfg, polled, now, v);
        LookKeeps(cfg, polled, now, v);
        var u := UpdateIntent(cfg, RefreshAction(cfg, RefreshStatus(polled, now, inp.reading).daemon, now, v), now);
        ServeCalm(cfg, u.daemon, now, v, inp, u.messages);
    }
  }

  lemma TickReason(cfg: AppConfig, s: Daemon, now: int, inp: TickInput)
    requires Chronicle(cfg, s, now) && Inv(cfg, s) && Parsed(cfg)
    ensures ReasonAs(s, Tick(cfg, s, now, inp).daemon)
  {
    var polled := PollButton(cfg, s, now, inp.poll);
    PollReason(cfg, s, now, inp.poll);
    if IsBlocked(polled.mode) {
      BlockedTick(cfg, s, now, inp);
    } else {
      LookReason(cfg, s, now, inp);
      ReasonTwice(s, polled, Tick(cfg, s, now, inp).daemon);
    }
  }

  lemma BlockedTick(cfg: AppConfig, s: Daemon, now: int, inp: TickInput)
    requires IsBlocked(PollButton(cfg, s, now, inp.poll).mode)
    ensures Tick(cfg, s, now, inp).daemon == PollButton(cfg, s, now, inp.poll)
  {
  }

  lemma ReasonTwice(s: Daemon, t: Daemon, u: Daemon)
    requires Trips(t.history) == Trips(s.history) && !IsBlocked(t.mode) && ReasonAs(t, u)
    ensures ReasonAs(s, u)
  {
  }

  lemma ReadyReason(cfg: AppConfig, s: Daemon, now: int, reading: StatusReading)
    requires Chronicle(cfg, s, now)
    ensures ReasonAs(s, OnReady(cfg, s, now, reading).daemon)
  {
    if !IsBlocked(s.mode) && reading.StatusUnreadable? {
      UnreadReadyReason(cfg, s, now, reading.text);
    }
  }

  lemma UnreadReadyReason(cfg: AppConfig, s: Daemon, now: int, text: string)
    requires Chronicle(cfg, s, now) && !IsBlocked(s.mode)
    ensures ReasonAs(s, OnReady(cfg, s, now, StatusUnreadable(text)).daemon)
  {
    ResetSessionChronicle(cfg, s, now, true);
    FailureFails(cfg, ResetSession(s, true), now, text);
  }

  lemma ExitReason(cfg: AppConfig, s: Daemon, now: int, code: int, signal: int, backend: Option<Backend>)
    ensures ReasonAs(s, OnExited(cfg, s, now, code, signal, backend).daemon)
  {
    OtherEvent(s.history, ReconnectScheduled(now, s.reconnect.delayMs));
  }

  lemma MessageReason(cfg: AppConfig, s: Daemon, m: SessionMessage, now: int, reading: StatusReading)
    requires Chronicle(cfg, s, now)
    ensures
      var t := HandleMessage(cfg, s, m, now, reading).daemon;
      if m.SessionError? then Trips(t.history) == Trips(s.history) else ReasonAs(s, t)
  {
    match m
    case SessionReady => ReadyReason(cfg, s, now, reading);
    case ConsoleExited(code, signal, backend) => ExitReason(cfg, s, now, code, signal, backend);
    case _ => OtherEvent(s.history, BackoffReset);
  }

  /** The session's own word is a reason of its own. */
  predicate BringsError(step: Step) {
    step.MessageStep? && step.message.SessionError?
  }

  /**
    * Over every run and for every next step: the step makes the daemon degraded for a failure to reach Proxmox exactly
    * when, at that failure, the failures of the history within the window have reached the limit, be it on a press,
    * in a tick, for a new session or for a launch.
    */
  lemma {:induction false} FailuresDegradeExactly(cfg: AppConfig, l: Launching, steps: seq<Step>, step: Step)
    requires Parsed(cfg) && InOrder(l, steps + [step])
    ensures
      var s, t := Run(cfg, l, steps), Run(cfg, l, steps + [step]);
      if BringsError(step) then Trips(t.history) == Trips(s.history) else ReasonAs(s, t)
  {
    assert (steps + [step])[..|steps|] == steps;
    match step {
      case TickStep(now, inp) =>
        DaemonProperties.Reached(cfg, l, steps, now);
        TickReason(cfg, Run(cfg, l, steps), now, inp);
      case MessageStep(now, m, reading) =>
        DaemonProperties.Reached(cfg, l, steps, now);
        MessageReason(cfg, Run(cfg, l, steps), m, now, reading);
      case DisconnectStep =>
    }
  }

  /** For a daemon that was not degraded: it is, for a failure, exactly when a failure has filled the window. */
  lemma {:induction false} FailuresDegradeIff(cfg: AppConfig, l: Launching, steps: seq<Step>, step: Step)
    requires Parsed(cfg) && InOrder(l, steps + [step]) && !BringsError(step)
    requires Run(cfg, l, steps).mode.degradedReason.None?
    ensures
      var s, t := Run(cfg, l, steps), Run(cfg, l, steps + [step]);
      t.mode.degradedReason.Some? && t.mode.degradedReason.value.Reported? <==> Trips(t.history) != Trips(s.history)
  {
    FailuresDegradeExactly(cfg, l, steps, step);
  }

  /** Over every run, a tick that reads the status never has a failure fill the window afterwards: a launch failure never degrades. */
  lemma {:induction false} LaunchFailuresNeverTrip(cfg: AppConfig, l: Launching, steps: seq<Step>, now: int, inp: TickInput)
    requires Parsed(cfg) && InOrder(l, steps) && Clock(l, steps) <= now
    requires inp.reading.StatusIs? && !IsBlocked(PollButton(cfg, Run(cfg, l, steps), now, inp.poll).mode)
    ensures
      var s := Run(cfg, l, steps);
      IsCalm(PollButton(cfg, s, now, inp.poll), Tick(cfg, s, now, inp).daemon)
  {
    var s := Run(cfg, l, steps);
    DaemonProperties.Reached(cfg, l, steps, now);
    PollButtonChronicle(cfg, s, now, inp.poll);
    PollButtonKeeps(cfg, s, now, inp.poll);
    var polled, v := PollButton(cfg, s, now, inp.poll), inp.reading.status;
    LookTrips(cfg, polled, now, v);
    LookKeeps(cfg, polled, now, v);
    var u := UpdateIntent(cfg, RefreshAction(cfg, RefreshStatus(polled, now, inp.reading).daemon, now, v), now);
    ServeCalm(cfg, u.daemon, now, v, inp, u.messages);
  }
}
