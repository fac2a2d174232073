/** When the sleeping state means a display that is meant to be off, and exactly when it stops doing so. */
module SleepingDisplay {
  import opened Config
  import opened Messages
  import opened History
  import opened DaemonSpec
  import opened DaemonInvariant
  import opened LaunchSafety
  import opened DaemonProperties
  import ScreenPower

  /** A sleeping display is meant to be off, and there is a session to put it to sleep. */
  predicate SleepInv(s: Daemon) {
    s.mode.state == DisplaySleeping ==> s.sessionReady && s.display.intent == Off
  }

  /** The session announces itself before it sends anything else. */
  predicate ReadyFirst(cfg: AppConfig, l: Launching, steps: seq<Step>) {
    steps != [] ==>
      var before, step := steps[..|steps| - 1], steps[|steps| - 1];
      && ReadyFirst(cfg, l, before)
      && (step.MessageStep? && !step.message.SessionReady? ==> Run(cfg, l, before).sessionReady)
  }

  lemma PollNeverSleeps(cfg: AppConfig, s: Daemon, now: int, poll: ButtonPoll)
    ensures
      var t := PollButton(cfg, s, now, poll);
      && t.display == s.display && t.sessionReady == s.sessionReady
      && (s.mode.state != DisplaySleeping ==> t.mode.state != DisplaySleeping)
  {
    if poll.Presses? {
      PressesLeave(cfg, s, now, poll.presses);
      PressesNeverSleep(cfg, s, now, poll.presses);
    }
  }

  lemma ServeSleeps(cfg: AppConfig, s: Daemon, now: int, v: VmStatus, inp: TickInput, display: seq<DaemonMessage>)
    requires Inv(cfg, s) && (s.mode.state == DisplaySleeping ==> s.sessionReady)
    ensures SleepInv(Serve(cfg, s, now, v, inp, display).daemon)
  {
    if s.sessionReady && IsOn(v) {
      ConsoleShown(cfg, s, now, inp);
    }
  }

  lemma TickSleeps(cfg: AppConfig, s: Daemon, now: int, inp: TickInput)
    requires Inv(cfg, s) && SleepInv(s)
    ensures SleepInv(Tick(cfg, s, now, inp).daemon)
  {
    PollNeverSleeps(cfg, s, now, inp.poll);
    var polled := PollButton(cfg, s, now, inp.poll);
    if !IsBlocked(polled.mode) && inp.reading.StatusIs? {
      BeforeServeKeeps(cfg, s, now, inp);
      var b := BeforeServe(cfg, s, now, inp);
      ServeSleeps(cfg, b.daemon, now, inp.reading.status, inp, b.messages);
    }
  }

  lemma MessageSleeps(cfg: AppConfig, s: Daemon, message: SessionMessage, now: int, reading: StatusReading)
    requires SleepInv(s) && (!message.SessionReady? ==> s.sessionReady)
    ensures SleepInv(HandleMessage(cfg, s, message, now, reading).daemon)
  {
  }

  /** Over every run with a session that announces itself first, a sleeping display is meant to be off. */
  lemma {:induction false} SleepingMeansOff(cfg: AppConfig, l: Launching, steps: seq<Step>)
    requires ReadyFirst(cfg, l, steps)
    ensures SleepInv(Run(cfg, l, steps))
  {
    if steps != [] {
      var before := steps[..|steps| - 1];
      SleepingMeansOff(cfg, l, before);
      RunKeepsInv(cfg, l, before);
      match steps[|steps| - 1] {
        case TickStep(now, inp) => TickSleeps(cfg, Run(cfg, l, before), now, inp);
        case MessageStep(now, message, reading) => MessageSleeps(cfg, Run(cfg, l, before), message, now, reading);
        case DisconnectStep =>
      }
    }
  }

  // ------------------------------------------------------------------ messages that outlive their session

  predicate SleepsOff(s: Daemon) {
    s.mode.state == DisplaySleeping ==> s.display.intent == Off
  }

  /** A tick sees the guest on or on its way while the daemon sleeps with no session to wake the display for. */
  predicate WakesUnseen(cfg: AppConfig, s: Daemon, step: Step) {
    && step.TickStep? && !s.sessionReady && s.mode.state == DisplaySleeping
    && !IsBlocked(PollButton(cfg, s, step.now, step.inp.poll).mode) && step.inp.reading.StatusIs?
    && (IsOn(step.inp.reading.status)
        || StaysStarting(cfg, PollButton(cfg, s, step.now, step.inp.poll).button, step.now, step.inp.reading.status))
  }

  /** A start is in flight, and reading the status does not resolve it. */
  predicate StaysStarting(cfg: AppConfig, b: Button, now: int, v: VmStatus) {
    IsStarting(b) && b.startedAt.Some? && !Resolves(cfg, b.startedAt.value, StartVm, now, v)
  }

  lemma {:induction false} PressesNeverSleep(cfg: AppConfig, s: Daemon, now: int, presses: seq<Press>)
    ensures s.mode.state != DisplaySleeping ==> HandlePresses(cfg, s, now, presses).mode.state != DisplaySleeping
  {
    if presses != [] {
      var before := presses[..|presses| - 1];
      PressesNeverSleep(cfg, s, now, before);
      PressNeverSleeps(cfg, HandlePresses(cfg, s, now, before), now, presses[|presses| - 1]);
    }
  }

  lemma PressNeverSleeps(cfg: AppConfig, s: Daemon, now: int, press: Press)
    ensures s.mode.state != DisplaySleeping ==> HandlePress(cfg, s, now, press).mode.state != DisplaySleeping
  {
  }

  lemma StartRemains(cfg: AppConfig, s: Daemon, now: int, v: VmStatus)
    requires ButtonInv(s.button)
    ensures IsStarting(RefreshAction(cfg, s, now, v).button) <==> StaysStarting(cfg, s.button, now, v)
  {
  }

  lemma LookedIntent(cfg: AppConfig, s: Daemon, now: int, inp: TickInput)
    requires inp.reading.StatusIs?
    ensures
      var b := BeforeServe(cfg, s, now, inp).daemon;
      s.display.intent == Off ==> (b.display.intent == On <==> IsOn(inp.reading.status) || IsStarting(b.button))
  {
    PollNeverSleeps(cfg, s, now, inp.poll);
  }

  lemma StillStarting(cfg: AppConfig, s: Daemon, now: int, inp: TickInput)
    requires Inv(cfg, s) && inp.reading.StatusIs?
    ensures IsStarting(BeforeServe(cfg, s, now, inp).daemon.button)
        <==> StaysStarting(cfg, PollButton(cfg, s, now, inp.poll).button, now, inp.reading.status)
  {
    PollButtonKeeps(cfg, s, now, inp.poll);
    var r := RefreshStatus(PollButton(cfg, s, now, inp.poll), now, inp.reading).daemon;
    StartRemains(cfg, r, now, inp.reading.status);
    IntentLeavesButton(cfg, RefreshAction(cfg, r, now, inp.reading.status), now);
  }

  lemma IntentLeavesButton(cfg: AppConfig, s: Daemon, now: int)
    ensures UpdateIntent(cfg, s, now).daemon.button == s.button
  {
  }

  /** A tick with no session, which reads the status and goes no further. */
  lemma UnseenTick(cfg: AppConfig, s: Daemon, now: int, inp: TickInput)
    requires Inv(cfg, s) && SleepsOff(s) && !s.sessionReady
    requires !IsBlocked(PollButton(cfg, s, now, inp.poll).mode) && inp.reading.StatusIs?
    ensures SleepsOff(Tick(cfg, s, now, inp).daemon) <==> !WakesUnseen(cfg, s, TickStep(now, inp))
  {
    TickServes(cfg, s, now, inp);
    BeforeServeKeeps(cfg, s, now, inp);
    LookedIntent(cfg, s, now, inp);
    StillStarting(cfg, s, now, inp);
    var b := BeforeServe(cfg, s, now, inp).daemon;
    assert Tick(cfg, s, now, inp).daemon == b;
  }

  lemma BlindTick(cfg: AppConfig, s: Daemon, now: int, inp: TickInput)
    requires SleepsOff(s)
    requires IsBlocked(PollButton(cfg, s, now, inp.poll).mode) || inp.reading.StatusUnreadable?
    ensures SleepsOff(Tick(cfg, s, now, inp).daemon)
  {
    PollNeverSleeps(cfg, s, now, inp.poll);
  }

  lemma SeenTick(cfg: AppConfig, s: Daemon, now: int, inp: TickInput)
    requires Inv(cfg, s) && SleepsOff(s) && s.sessionReady
    ensures SleepsOff(Tick(cfg, s, now, inp).daemon)
  {
    TickSleeps(cfg, s, now, inp);
  }

  /** Whatever the session sends and whenever it is taken, a step leaves the sleeping state without its meaning exactly then. */
  lemma SleepExactly(cfg: AppConfig, s: Daemon, step: Step)
    requires Inv(cfg, s) && SleepsOff(s)
    ensures SleepsOff(Take(cfg, s, step).daemon) <==> !WakesUnseen(cfg, s, step)
  {
    match step
    case TickStep(now, inp) =>
      if IsBlocked(PollButton(cfg, s, now, inp.poll).mode) || inp.reading.StatusUnreadable? {
        BlindTick(cfg, s, now, inp);
      } else if s.sessionReady {
        SeenTick(cfg, s, now, inp);
      } else {
        UnseenTick(cfg, s, now, inp);
      }
    case MessageStep(now, message, reading) => MessageSleepsOff(cfg, s, message, now, reading);
    case DisconnectStep =>
  }

  lemma MessageSleepsOff(cfg: AppConfig, s: Daemon, message: SessionMessage, now: int, reading: StatusReading)
    requires SleepsOff(s)
    ensures SleepsOff(HandleMessage(cfg, s, message, now, reading).daemon)
  {
  }

  /** From every reachable state. */
  lemma {:induction false} SleepExactlyInRuns(cfg: AppConfig, l: Launching, steps: seq<Step>, step: Step)
    requires SleepsOff(Run(cfg, l, steps))
    ensures SleepsOff(Run(cfg, l, steps + [step])) <==> !WakesUnseen(cfg, Run(cfg, l, steps), step)
  {
    RunKeepsInv(cfg, l, steps);
    assert (steps + [step])[..|steps|] == steps;
    SleepExactly(cfg, Run(cfg, l, steps), step);
  }

  // ------------------------------------------------------------------ a run in which it happens

  /** A session comes and goes with the display off, its last report is read with its end, and then the guest starts. */
  function LateReport(cfg: AppConfig): seq<Step> {
    var later := ScreenPower.SettledAt(cfg);
    [TickStep(0, ScreenPower.OffInput(Presses([]))),
     TickStep(later, ScreenPower.OffInput(Presses([]))),
     MessageStep(later, SessionReady, StatusIs(Stopped)),
     DisconnectStep,
     MessageStep(later, DisplayPowerApplied(Off), StatusIs(Stopped)),
     TickStep(later, ScreenPower.OffInput(Presses([])).(reading := StatusIs(Running)))]
  }

  lemma {:induction false} NextStep(cfg: AppConfig, l: Launching, steps: seq<Step>, n: nat)
    requires n < |steps|
    ensures Run(cfg, l, steps[..n + 1]) == Take(cfg, Run(cfg, l, steps[..n]), steps[n]).daemon
  {
    assert steps[..n + 1][..n] == steps[..n];
  }

  /** The guest is off and the display meant to be, with nothing in flight and nothing wrong. */
  predicate Dark(d: Daemon) {
    !IsBlocked(d.mode) && !d.button.inFlight && d.guest.power == Stopped && d.display.intent == Off && d.console == NO_CONSOLE
  }

  lemma {:induction false} DarkAfterTicks(cfg: AppConfig)
    requires PolicyParsed(cfg.policy)
    ensures Dark(Run(cfg, ScreenPower.LAUNCHING, LateReport(cfg)[..2]))
  {
    var l, steps := ScreenPower.LAUNCHING, LateReport(cfg);
    var d0 := Run(cfg, l, []);
    assert steps[..0] == [];
    NextStep(cfg, l, steps, 0);
    ScreenPower.UnattendedTick(cfg, d0, 0);
    var d1 := Run(cfg, l, steps[..1]);
    NextStep(cfg, l, steps, 1);
    ScreenPower.UnattendedTick(cfg, d1, ScreenPower.SettledAt(cfg));
    RunKeepsInv(cfg, l, steps[..2]);
    NoConsoleYet(cfg, d0, 0);
    NoConsoleYet(cfg, d1, ScreenPower.SettledAt(cfg));
  }

  lemma NoConsoleYet(cfg: AppConfig, d: Daemon, now: int)
    requires ScreenPower.Unattended(d) && d.console == NO_CONSOLE
    ensures Tick(cfg, d, now, ScreenPower.OffInput(Presses([]))).daemon.console == NO_CONSOLE
  {
    assert PollButton(cfg, d, now, Presses([])) == d;
  }

  /** The session is greeted and goes, and then its last report is taken. */
  lemma LateReportSleeps(cfg: AppConfig, d: Daemon, now: int)
    requires Dark(d)
    ensures
      var gone := OnDisconnect(OnReady(cfg, d, now, StatusIs(Stopped)).daemon);
      var t := OnPowerApplied(gone, Off);
      Dark(t) && !t.sessionReady && t.mode.state == DisplaySleeping
  {
  }

  lemma GuestStartsUnseen(cfg: AppConfig, d: Daemon, now: int)
    requires Dark(d) && !d.sessionReady && d.mode.state == DisplaySleeping
    ensures !SleepsOff(Tick(cfg, d, now, ScreenPower.OffInput(Presses([])).(reading := StatusIs(Running))).daemon)
  {
    assert PollButton(cfg, d, now, Presses([])) == d;
  }

  /** Dark and asleep with no session. */
  predicate Abandoned(d: Daemon) {
    Dark(d) && !d.sessionReady && d.mode.state == DisplaySleeping
  }

  lemma {:induction false} ReadyStep(cfg: AppConfig, l: Launching, steps: seq<Step>, n: nat, later: int)
    requires n < |steps| && steps[n] == MessageStep(later, SessionReady, StatusIs(Stopped))
    ensures Run(cfg, l, steps[..n + 1]) == OnReady(cfg, Run(cfg, l, steps[..n]), later, StatusIs(Stopped)).daemon
  {
    NextStep(cfg, l, steps, n);
  }

  lemma {:induction false} GoneStep(cfg: AppConfig, l: Launching, steps: seq<Step>, n: nat)
    requires n < |steps| && steps[n] == DisconnectStep
    ensures Run(cfg, l, steps[..n + 1]) == OnDisconnect(Run(cfg, l, steps[..n]))
  {
    NextStep(cfg, l, steps, n);
  }

  lemma {:induction false} AppliedStep(cfg: AppConfig, l: Launching, steps: seq<Step>, n: nat, later: int)
    requires n < |steps| && steps[n] == MessageStep(later, DisplayPowerApplied(Off), StatusIs(Stopped))
    ensures Run(cfg, l, steps[..n + 1]) == OnPowerApplied(Run(cfg, l, steps[..n]), Off)
  {
    NextStep(cfg, l, steps, n);
  }

  lemma {:induction false} AbandonedAfterSteps(cfg: AppConfig, l: Launching, steps: seq<Step>, later: int)
    requires |steps| > 4 && Dark(Run(cfg, l, steps[..2]))
    requires steps[2] == MessageStep(later, SessionReady, StatusIs(Stopped)) && steps[3] == DisconnectStep
    requires steps[4] == MessageStep(later, DisplayPowerApplied(Off), StatusIs(Stopped))
    ensures Abandoned(Run(cfg, l, steps[..5]))
  {
    LateReportSleeps(cfg, Run(cfg, l, steps[..2]), later);
    ReadyStep(cfg, l, steps, 2, later);
    GoneStep(cfg, l, steps, 3);
    AppliedStep(cfg, l, steps, 4, later);
  }

  lemma {:induction false} AbandonedAfterReport(cfg: AppConfig, steps: seq<Step>)
    requires PolicyParsed(cfg.policy) && steps == LateReport(cfg)
    ensures |steps| == 6 && Abandoned(Run(cfg, ScreenPower.LAUNCHING, steps[..5]))
  {
    DarkAfterTicks(cfg);
    AbandonedAfterSteps(cfg, ScreenPower.LAUNCHING, steps, ScreenPower.SettledAt(cfg));
  }

  /** A session that announces itself first is not enough: taken with its end, its last report leaves a sleep to outlast. */
  lemma {:induction false} SleepCanOutlastOff(cfg: AppConfig)
    requires PolicyParsed(cfg.policy)
    ensures !SleepsOff(Run(cfg, ScreenPower.LAUNCHING, LateReport(cfg)))
  {
    var l, steps := ScreenPower.LAUNCHING, LateReport(cfg);
    AbandonedAfterReport(cfg, steps);
    GuestStartsUnseen(cfg, Run(cfg, l, steps[..5]), ScreenPower.SettledAt(cfg));
    NextStep(cfg, l, steps, 5);
    assert steps[..6] == steps;
  }
}
