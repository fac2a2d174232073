/** When the daemon asks the session for a console, and when it never does. */
module LaunchSafety {
  import opened Wrappers
  import opened Config
  import opened Messages
  import opened History
  import opened DaemonSpec
  import opened DaemonInvariant

  /** The launch requests among the messages. */
  function Connects(messages: seq<DaemonMessage>): seq<DaemonMessage> {
    if messages == [] then []
    else
      var m := messages[|messages| - 1];
      Connects(messages[..|messages| - 1]) + (if m.ConnectConsole? || m.ConnectSpice? then [m] else [])
  }

  lemma {:induction false} ConnectsConcat(a: seq<DaemonMessage>, b: seq<DaemonMessage>)
    ensures Connects(a + b) == Connects(a) + Connects(b)
  {
    if b == [] {
      assert a + b == a;
    } else {
      var c := b[..|b| - 1];
      assert (a + b)[..|a + b| - 1] == a + c;
      ConnectsConcat(a, c);
    }
  }

  // ------------------------------------------------------------------ what allows a launch

  datatype Verdict = Confirmed | Unconfirmed | NoVerdict

  /** What the probes of one tick say about pairing. */
  function VerdictOf(p: PairProbe): Verdict {
    if !p.reachable then NoVerdict
    else if p.live.ProbePaired? then Confirmed
    else if !p.live.ProbeUnpaired? then NoVerdict
    else if !p.pinned then Unconfirmed
    else if p.anyHost.ProbePaired? then Confirmed
    else if p.anyHost.ProbeError? then NoVerdict
    else Unconfirmed
  }

  /** The tick gets as far as a launch: everything but the pairing checks and the preparation. */
  predicate MayLaunch(cfg: AppConfig, s: Daemon, now: int, inp: TickInput) {
    && s.sessionReady
    && !IsBlocked(PollButton(cfg, s, now, inp.poll).mode)
    && inp.reading.StatusIs? && IsOn(inp.reading.status)
    && (s.console.running ==> IsPairingConsole(s))
    && DeadlinePassed(s.reconnect, now)
  }

  predicate Shows(cfg: AppConfig, s: Daemon, now: int, inp: TickInput) {
    && MayLaunch(cfg, s, now, inp)
    && (cfg.Backend() == Moonlight ==> VerdictOf(inp.pairing) == Confirmed)
    && inp.preparation.Prepared?
  }

  predicate Pairs(cfg: AppConfig, s: Daemon, now: int, inp: TickInput) {
    && MayLaunch(cfg, s, now, inp)
    && cfg.Backend() == Moonlight && VerdictOf(inp.pairing) == Unconfirmed
    && ShouldIssuePair(s.pairing, now)
  }

  function Expected(cfg: AppConfig, s: Daemon, now: int, inp: TickInput): seq<DaemonMessage> {
    if Shows(cfg, s, now, inp) then [LaunchMessage(cfg.console)]
    else if Pairs(cfg, s, now, inp) then [PairMessage(cfg.console, inp.pairing.pin)]
    else []
  }

  // ------------------------------------------------------------------ a tick

  /** As far as launches go, the daemon is the same. */
  predicate SameSession(s: Daemon, t: Daemon) {
    && s.sessionReady == t.sessionReady && s.console == t.console && s.reconnect == t.reconnect
    && s.pairing == t.pairing && s.mode == t.mode
  }

  lemma PressLeavesSession(cfg: AppConfig, s: Daemon, now: int, press: Press)
    ensures HandlePress(cfg, s, now, press).mode.startupError == s.mode.startupError
    ensures IsBlocked(s.mode) ==> IsBlocked(HandlePress(cfg, s, now, press).mode)
    ensures !IsBlocked(HandlePress(cfg, s, now, press).mode) ==> SameSession(s, HandlePress(cfg, s, now, press))
  {
  }

  lemma {:induction false} PressesLeaveSession(cfg: AppConfig, s: Daemon, now: int, presses: seq<Press>)
    ensures HandlePresses(cfg, s, now, presses).mode.startupError == s.mode.startupError
    ensures IsBlocked(s.mode) ==> IsBlocked(HandlePresses(cfg, s, now, presses).mode)
    ensures !IsBlocked(HandlePresses(cfg, s, now, presses).mode) ==> SameSession(s, HandlePresses(cfg, s, now, presses))
  {
    if presses != [] {
      var before := presses[..|presses| - 1];
      PressesLeaveSession(cfg, s, now, before);
      PressLeavesSession(cfg, HandlePresses(cfg, s, now, before), now, presses[|presses| - 1]);
    }
  }

  lemma PollLeavesSession(cfg: AppConfig, s: Daemon, now: int, poll: ButtonPoll)
    ensures s.mode.startupError.Some? ==> PollButton(cfg, s, now, poll) == s
    ensures IsBlocked(s.mode) ==> IsBlocked(PollButton(cfg, s, now, poll).mode)
    ensures !IsBlocked(PollButton(cfg, s, now, poll).mode) ==> SameSession(s, PollButton(cfg, s, now, poll))
  {
    if poll.Presses? {
      PressesLeaveSession(cfg, s, now, poll.presses);
    }
  }

  predicate PairingAs(cfg: AppConfig, s: Daemon, now: int, probe: PairProbe, o: PairingOutcome) {
    var pairs := VerdictOf(probe) == Unconfirmed && ShouldIssuePair(s.pairing, now);
    && o.daemon.sessionReady == s.sessionReady
    && match o
       case PairingReady(t) =>
         VerdictOf(probe) == Confirmed && t.pairing.pin.None? && DeadlinePassed(t.reconnect, now)
       case PairingFailed(t, _) => VerdictOf(probe) == NoVerdict && t.pairing.pin == s.pairing.pin
       case PairingBlocked(t, messages) =>
         && VerdictOf(probe) != Confirmed
         && Connects(messages) == (if pairs then [PairMessage(cfg.console, probe.pin)] else [])
         && PinAs(t.pairing.pin, s.pairing.pin, pairs, probe.pin)
         && t.mode.state != DisplaySleeping
  }

  /** The PIN after a step is the one just sent, or the one from before if there is one. */
  predicate PinAs(pin: Option<string>, before: Option<string>, pairs: bool, sent: string) {
    if pairs then pin == Some(sent) else pin.Some? ==> pin == before
  }

  lemma PairingVerdict(cfg: AppConfig, s: Daemon, now: int, p: PairProbe)
    ensures PairingAs(cfg, s, now, p, HandlePairing(cfg, s, now, p))
  {
    if !p.reachable {
      LostVerdict(cfg, s, now, p, HostUnreachable);
    } else {
      var t := ClearDeadline(s);
      if p.live.ProbeUnreachable? {
        LostVerdict(cfg, t, now, p, PairProbeUnreachable);
      } else if VerdictOf(p) == Unconfirmed {
        AwaitVerdict(cfg, t, now, p);
      }
    }
  }

  lemma LostVerdict(cfg: AppConfig, s: Daemon, now: int, p: PairProbe, why: Error)
    requires VerdictOf(p) == NoVerdict
    ensures PairingAs(cfg, s, now, p, HostLost(cfg, s, now, why))
  {
  }

  lemma AwaitVerdict(cfg: AppConfig, s: Daemon, now: int, p: PairProbe)
    requires VerdictOf(p) == Unconfirmed
    ensures PairingAs(cfg, s, now, p, AwaitPairing(cfg, s, now, p.pin))
  {
  }

  /** The launch part of a tick gets to its checks. */
  predicate GoesOn(s: Daemon, now: int) {
    (s.console.running ==> IsPairingConsole(s)) && DeadlinePassed(s.reconnect, now)
  }

  /** What the launch part of a tick does about launches and the PIN; it never leaves the display sleeping. */
  predicate ShownAs(cfg: AppConfig, s: Daemon, now: int, inp: TickInput, o: Outcome) {
    var moonlight := cfg.Backend() == Moonlight;
    var pairs :=
      GoesOn(s, now) && moonlight && VerdictOf(inp.pairing) == Unconfirmed && ShouldIssuePair(s.pairing, now);
    var shows :=
      GoesOn(s, now) && (moonlight ==> VerdictOf(inp.pairing) == Confirmed) && inp.preparation.Prepared?;
    && Connects(o.messages) ==
         (if shows then [LaunchMessage(cfg.console)]
          else if pairs then [PairMessage(cfg.console, inp.pairing.pin)]
          else [])
    && PinAs(o.daemon.pairing.pin, s.pairing.pin, pairs, inp.pairing.pin)
    && o.daemon.mode.state != DisplaySleeping
    && o.daemon.sessionReady == s.sessionReady
  }

  lemma DegradedConnects(s: Daemon, reason: Error)
    ensures Connects(EnterDegraded(s, reason).messages) == []
  {
    ConnectsConcat([DisconnectConsole(ControlError)], [ShowWaiting(DegradedWait, None)]);
  }

  lemma FailureConnects(s: Daemon, now: int, text: string)
    ensures Connects(RecordFailure(s, now, text).messages) == []
  {
    var t := s.(failures := MoreFailures(s.failures, now),
                report := s.report.(lastError := Some(Reported(text))),
                history := After(s.history, FailureRecorded(now, text)));
    DegradedConnects(t, Reported(text));
  }

  lemma LaunchShown(cfg: AppConfig, s: Daemon, now: int, preparation: Preparation)
    ensures
      var o := Launch(cfg, s, now, preparation);
      && Connects(o.messages) == (if preparation.Prepared? then [LaunchMessage(cfg.console)] else [])
      && o.daemon.pairing == s.pairing && o.daemon.sessionReady == s.sessionReady
      && o.daemon.mode.state != DisplaySleeping
  {
    var t := Transition(s, RequestingConsole);
    match preparation
    case EndpointUnavailable(_) =>
    case PreparationInvalid(text) => DegradedConnects(t, PreparationFailed(cfg.Backend(), text));
    case PreparationCommandFailed(text) => FailureConnects(t, now, text);
    case Prepared =>
  }

  lemma WhenDueShown(cfg: AppConfig, s: Daemon, now: int, inp: TickInput)
    requires !s.console.running
    ensures ShownAs(cfg, s, now, inp, LaunchWhenDue(cfg, s, now, inp, false))
  {
    if DeadlinePassed(s.reconnect, now) {
      if cfg.Backend() != Moonlight {
        LaunchShown(cfg, s, now, inp.preparation);
      } else {
        PairingVerdict(cfg, s, now, inp.pairing);
        match HandlePairing(cfg, s, now, inp.pairing) {
          case PairingFailed(t, text) => DegradedConnects(t, PreparationFailed(Moonlight, text));
          case PairingBlocked(_, _) =>
          case PairingReady(t) => LaunchShown(cfg, t, now, inp.preparation);
        }
      }
    }
  }

  lemma PairingShown(cfg: AppConfig, s: Daemon, now: int, inp: TickInput)
    requires Inv(cfg, s) && s.console.running && IsPairingConsole(s)
    ensures ShownAs(cfg, s, now, inp, ShowConsole(cfg, s, now, inp))
  {
    PairingVerdict(cfg, s, now, inp.pairing);
    match HandlePairing(cfg, s, now, inp.pairing)
    case PairingFailed(t, text) => DegradedConnects(t, PreparationFailed(Moonlight, text));
    case PairingBlocked(_, _) =>
    case PairingReady(t) => LaunchShown(cfg, t, now, inp.preparation);
  }

  lemma ConsoleShown(cfg: AppConfig, s: Daemon, now: int, inp: TickInput)
    requires Inv(cfg, s)
    ensures ShownAs(cfg, s, now, inp, ShowConsole(cfg, s, now, inp))
  {
    if !s.console.running {
      WhenDueShown(cfg, s, now, inp);
    } else if IsPairingConsole(s) {
      PairingShown(cfg, s, now, inp);
    }
  }

  /** What a tick has found out when it starts to serve the session, and what it has to say about the display. */
  function BeforeServe(cfg: AppConfig, s: Daemon, now: int, inp: TickInput): Outcome
    requires inp.reading.StatusIs?
  {
    var polled := PollButton(cfg, s, now, inp.poll);
    var r := RefreshStatus(polled, now, inp.reading);
    UpdateIntent(cfg, RefreshAction(cfg, r.daemon, now, inp.reading.status), now)
  }

  lemma {:induction false} IntentLeavesSession(cfg: AppConfig, s: Daemon, now: int)
    ensures SameSession(s, UpdateIntent(cfg, s, now).daemon) && Connects(UpdateIntent(cfg, s, now).messages) == []
  {
  }

  lemma LookLeavesSession(cfg: AppConfig, s: Daemon, now: int, inp: TickInput)
    requires inp.reading.StatusIs? && !IsBlocked(PollButton(cfg, s, now, inp.poll).mode)
    ensures SameSession(s, BeforeServe(cfg, s, now, inp).daemon) && Connects(BeforeServe(cfg, s, now, inp).messages) == []
  {
    PollLeavesSession(cfg, s, now, inp.poll);
    var r := RefreshStatus(PollButton(cfg, s, now, inp.poll), now, inp.reading).daemon;
    IntentLeavesSession(cfg, RefreshAction(cfg, r, now, inp.reading.status), now);
  }

  lemma BeforeServeKeeps(cfg: AppConfig, s: Daemon, now: int, inp: TickInput)
    requires Inv(cfg, s) && inp.reading.StatusIs?
    requires !IsBlocked(PollButton(cfg, s, now, inp.poll).mode)
    ensures Inv(cfg, BeforeServe(cfg, s, now, inp).daemon) && SameSession(s, BeforeServe(cfg, s, now, inp).daemon)
    ensures Connects(BeforeServe(cfg, s, now, inp).messages) == []
  {
    LookLeavesSession(cfg, s, now, inp);
    var polled, v := PollButton(cfg, s, now, inp.poll), inp.reading.status;
    PollButtonKeeps(cfg, s, now, inp.poll);
    RefreshStatusKeeps(cfg, polled, now, inp.reading);
    var r := RefreshStatus(polled, now, inp.reading).daemon;
    RefreshActionKeeps(cfg, r, now, v);
    UpdateIntentKeeps(cfg, RefreshAction(cfg, r, now, v), now);
  }

  lemma StandByConnects(cfg: AppConfig, s: Daemon)
    ensures Connects(StandBy(cfg, s).messages) == []
  {
    ConnectsConcat([DisconnectConsole(VmNotRunning)], [ShowWaiting(VmStopped, None)]);
  }

  lemma {:induction false} ServeConnects(
    cfg: AppConfig, s: Daemon, now: int, v: VmStatus, inp: TickInput, display: seq<DaemonMessage>)
    requires Connects(display) == []
    ensures Connects(Serve(cfg, s, now, v, inp, display).messages)
         == if s.sessionReady && IsOn(v) then Connects(ShowConsole(cfg, s, now, inp).messages) else []
  {
    if s.sessionReady && IsOn(v) {
      ConnectsConcat(display, ShowConsole(cfg, s, now, inp).messages);
    } else if s.sessionReady && IsOff(v) {
      StandByConnects(cfg, s);
      ConnectsConcat(StandBy(cfg, s).messages, display);
    }
  }

  /** A tick that gets to look serves the session with what it has found out; another one sends no launch. */
  lemma TickServes(cfg: AppConfig, s: Daemon, now: int, inp: TickInput)
    ensures
      if !IsBlocked(PollButton(cfg, s, now, inp.poll).mode) && inp.reading.StatusIs? then
        var b := BeforeServe(cfg, s, now, inp);
        Tick(cfg, s, now, inp) == Serve(cfg, b.daemon, now, inp.reading.status, inp, b.messages)
      else Connects(Tick(cfg, s, now, inp).messages) == []
  {
    if inp.reading.StatusUnreadable? {
      FailureConnects(PollButton(cfg, s, now, inp.poll), now, inp.reading.text);
    }
  }

  /**
    * The launch requests of a tick are exactly the expected ones: at most one, only for a ready session that is not
    * blocked and a guest read as on in this tick with the deadline passed; a stream only with pairing confirmed in
    * this tick; a pairing UI only for a host found unpaired, with the PIN of this tick.
    */
  lemma LaunchesAreSafe(cfg: AppConfig, s: Daemon, now: int, inp: TickInput)
    requires Inv(cfg, s)
    ensures Connects(Tick(cfg, s, now, inp).messages) == Expected(cfg, s, now, inp)
  {
    TickServes(cfg, s, now, inp);
    if !IsBlocked(PollButton(cfg, s, now, inp.poll).mode) && inp.reading.StatusIs? {
      var b := BeforeServe(cfg, s, now, inp);
      BeforeServeKeeps(cfg, s, now, inp);
      ServeConnects(cfg, b.daemon, now, inp.reading.status, inp, b.messages);
      ConsoleShown(cfg, b.daemon, now, inp);
    }
  }

  lemma GreetNeverConnects(cfg: AppConfig, s: Daemon)
    ensures Connects(Greet(cfg, s).messages) == []
  {
  }

  lemma {:induction false} WaitNeverConnects(messages: seq<DaemonMessage>, reason: WaitReason)
    requires Connects(messages) == []
    ensures Connects(messages + [ShowWaiting(reason, None)]) == []
  {
    ConnectsConcat(messages, [ShowWaiting(reason, None)]);
  }

  lemma ReadyNeverConnects(cfg: AppConfig, s: Daemon, now: int, reading: StatusReading)
    ensures Connects(OnReady(cfg, s, now, reading).messages) == []
  {
    var t := ResetSession(s, true);
    if !IsBlocked(t.mode) {
      var power := [DisplayPower(t.display.intent, cfg.outputName)];
      var r := RefreshStatus(t, now, reading);
      match reading {
        case StatusIs(_) =>
          GreetNeverConnects(cfg, r.daemon);
          ConnectsConcat(power, Greet(cfg, r.daemon).messages);
        case StatusUnreadable(text) =>
          FailureConnects(t, now, text);
          ConnectsConcat(power, r.messages);
          WaitNeverConnects(power + r.messages, DegradedWait);
          WaitNeverConnects(power + r.messages, VmStopped);
      }
    }
  }

  lemma MessagesNeverConnect(cfg: AppConfig, s: Daemon, message: SessionMessage, now: int, reading: StatusReading)
    ensures Connects(HandleMessage(cfg, s, message, now, reading).messages) == []
  {
    match message
    case SessionReady => ReadyNeverConnects(cfg, s, now, reading);
    case SessionError(reason) =>
      DegradedConnects(s.(console := s.console.(running := false, pid := None)), Reported(reason));
    case _ =>
  }

  // ------------------------------------------------------------------ runs

  /** Everything the daemon sends in a run. */
  function Sent(cfg: AppConfig, l: Launching, steps: seq<Step>): seq<DaemonMessage> {
    if steps == [] then []
    else
      var before := steps[..|steps| - 1];
      Sent(cfg, l, before) + Take(cfg, Run(cfg, l, before), steps[|steps| - 1]).messages
  }

  /** The launch requests of one step of a run. */
  lemma StepConnects(cfg: AppConfig, l: Launching, steps: seq<Step>)
    requires steps != []
    ensures
      var before, step := steps[..|steps| - 1], steps[|steps| - 1];
      var s := Run(cfg, l, before);
      Connects(Sent(cfg, l, steps)) == Connects(Sent(cfg, l, before))
        + (if step.TickStep? then Expected(cfg, s, step.now, step.inp) else [])
  {
    var before, step := steps[..|steps| - 1], steps[|steps| - 1];
    var s := Run(cfg, l, before);
    ConnectsConcat(Sent(cfg, l, before), Take(cfg, s, step).messages);
    match step {
      case TickStep(now, inp) =>
        RunKeepsInv(cfg, l, before);
        LaunchesAreSafe(cfg, s, now, inp);
      case MessageStep(now, message, reading) => MessagesNeverConnect(cfg, s, message, now, reading);
      case DisconnectStep =>
    }
  }

  /** A startup error stays, and while it is there nothing is launched. */
  lemma StartupErrorStays(cfg: AppConfig, s: Daemon, step: Step)
    requires s.mode.startupError.Some?
    ensures Take(cfg, s, step).daemon.mode.startupError == s.mode.startupError
    ensures step.TickStep? ==> Expected(cfg, s, step.now, step.inp) == []
  {
    if step.TickStep? {
      PollLeavesSession(cfg, s, step.now, step.inp.poll);
    }
  }

  /** Once a startup error is set, no continuation of the run ever asks for a console again. */
  lemma {:induction false} StartupErrorIsFinal(cfg: AppConfig, l: Launching, steps: seq<Step>, k: nat)
    requires k <= |steps| && Run(cfg, l, steps[..k]).mode.startupError.Some?
    ensures Run(cfg, l, steps).mode.startupError == Run(cfg, l, steps[..k]).mode.startupError
    ensures Connects(Sent(cfg, l, steps)) == Connects(Sent(cfg, l, steps[..k]))
  {
    if k == |steps| {
      assert steps[..k] == steps;
    } else {
      var before := steps[..|steps| - 1];
      assert before[..k] == steps[..k];
      StartupErrorIsFinal(cfg, l, before, k);
      StartupErrorStays(cfg, Run(cfg, l, before), steps[|steps| - 1]);
      StepConnects(cfg, l, steps);
    }
  }

  // ------------------------------------------------------------------ the PIN

  /** A request to bring up the pairing UI. */
  predicate IsPairLaunch(m: DaemonMessage) {
    m.ConnectConsole? && m.backend == Moonlight && |m.argv| == 5 && m.argv[1] == "pair" && m.argv[3] == "--pin"
  }

  /** The PIN in the latest pair launch among the messages. */
  function LastPin(messages: seq<DaemonMessage>): Option<string> {
    if messages == [] then None
    else
      var m := messages[|messages| - 1];
      if IsPairLaunch(m) then Some(m.argv[4]) else LastPin(messages[..|messages| - 1])
  }

  lemma {:induction false} LastPinConnects(messages: seq<DaemonMessage>)
    ensures LastPin(Connects(messages)) == LastPin(messages)
  {
    if messages != [] {
      var before, m := messages[..|messages| - 1], messages[|messages| - 1];
      LastPinConnects(before);
      if m.ConnectConsole? || m.ConnectSpice? {
        LastPinSnoc(Connects(before), m);
      } else {
        assert Connects(before) + [] == Connects(before);
      }
    }
  }

  lemma {:induction false} LastPinSnoc(messages: seq<DaemonMessage>, m: DaemonMessage)
    ensures LastPin(messages + [m]) == if IsPairLaunch(m) then Some(m.argv[4]) else LastPin(messages)
  {
    assert (messages + [m])[..|messages|] == messages;
  }

  lemma PairLaunches(c: Console, pin: string)
    requires c.MoonlightConsole?
    ensures IsPairLaunch(PairMessage(c, pin)) && PairMessage(c, pin).argv[4] == pin
  {
  }

  lemma StreamsAreNone(c: Console)
    ensures !IsPairLaunch(LaunchMessage(c))
  {
    if c.MoonlightConsole? {
      assert LaunchMessage(c).argv[1] == "stream";
    }
  }

  lemma {:induction false} ExpectedPin(cfg: AppConfig, s: Daemon, now: int, inp: TickInput, sent: seq<DaemonMessage>)
    ensures
      LastPin(sent + Expected(cfg, s, now, inp)) ==
      if Pairs(cfg, s, now, inp) then Some(inp.pairing.pin) else LastPin(sent)
  {
    StreamsAreNone(cfg.console);
    LastPinSnoc(sent, LaunchMessage(cfg.console));
    if Pairs(cfg, s, now, inp) {
      PairLaunches(cfg.console, inp.pairing.pin);
      LastPinSnoc(sent, PairMessage(cfg.console, inp.pairing.pin));
    } else {
      assert sent + [] == sent;
    }
  }

  /** The latest PIN sent by the end of a step is the one of this step's pair launch, or the one from before. */
  lemma StepLastPin(cfg: AppConfig, l: Launching, steps: seq<Step>)
    requires steps != []
    ensures
      var before, step := steps[..|steps| - 1], steps[|steps| - 1];
      LastPin(Sent(cfg, l, steps)) ==
      if StepPairs(cfg, Run(cfg, l, before), step) then Some(step.inp.pairing.pin) else LastPin(Sent(cfg, l, before))
  {
    var before, step := steps[..|steps| - 1], steps[|steps| - 1];
    var sent := Connects(Sent(cfg, l, before));
    StepConnects(cfg, l, steps);
    LastPinConnects(Sent(cfg, l, steps));
    LastPinConnects(Sent(cfg, l, before));
    if step.TickStep? {
      ExpectedPin(cfg, Run(cfg, l, before), step.now, step.inp, sent);
    } else {
      assert sent + [] == sent;
    }
  }

  lemma ServePin(cfg: AppConfig, s: Daemon, now: int, v: VmStatus, inp: TickInput, display: seq<DaemonMessage>)
    requires !s.sessionReady || !IsOn(v)
    ensures PinAs(Serve(cfg, s, now, v, inp, display).daemon.pairing.pin, s.pairing.pin, false, "")
  {
  }

  lemma TickPin(cfg: AppConfig, s: Daemon, now: int, inp: TickInput)
    requires Inv(cfg, s)
    ensures PinAs(Tick(cfg, s, now, inp).daemon.pairing.pin, s.pairing.pin, Pairs(cfg, s, now, inp), inp.pairing.pin)
  {
    if inp.poll.Presses? {
      PressesLeave(cfg, s, now, inp.poll.presses);
    }
    TickServes(cfg, s, now, inp);
    if !IsBlocked(PollButton(cfg, s, now, inp.poll).mode) && inp.reading.StatusIs? {
      var b, v := BeforeServe(cfg, s, now, inp), inp.reading.status;
      BeforeServeKeeps(cfg, s, now, inp);
      if b.daemon.sessionReady && IsOn(v) {
        ConsoleShown(cfg, b.daemon, now, inp);
      } else {
        ServePin(cfg, b.daemon, now, v, inp, b.messages);
      }
    }
  }

  lemma ReadyPin(cfg: AppConfig, s: Daemon, now: int, reading: StatusReading)
    ensures OnReady(cfg, s, now, reading).daemon.pairing.pin == s.pairing.pin
  {
  }

  lemma MessagePin(cfg: AppConfig, s: Daemon, m: SessionMessage, now: int, reading: StatusReading)
    ensures HandleMessage(cfg, s, m, now, reading).daemon.pairing.pin == s.pairing.pin
  {
    if m.SessionReady? {
      ReadyPin(cfg, s, now, reading);
    }
  }

  predicate StepPairs(cfg: AppConfig, s: Daemon, step: Step) {
    step.TickStep? && Pairs(cfg, s, step.now, step.inp)
  }

  lemma StepPin(cfg: AppConfig, s: Daemon, step: Step)
    requires Inv(cfg, s)
    ensures PinAs(Take(cfg, s, step).daemon.pairing.pin, s.pairing.pin, StepPairs(cfg, s, step),
                  if step.TickStep? then step.inp.pairing.pin else "")
  {
    match step
    case TickStep(now, inp) => TickPin(cfg, s, now, inp);
    case MessageStep(now, m, reading) => MessagePin(cfg, s, m, now, reading);
    case DisconnectStep =>
  }

  /** In every reachable state a PIN is the one of the latest pair launch that was sent. */
  lemma {:induction false} PinWasSent(cfg: AppConfig, l: Launching, steps: seq<Step>)
    ensures
      var pin := Run(cfg, l, steps).pairing.pin;
      pin.Some? ==> pin == LastPin(Sent(cfg, l, steps))
  {
    if steps != [] {
      var before, step := steps[..|steps| - 1], steps[|steps| - 1];
      PinWasSent(cfg, l, before);
      RunKeepsInv(cfg, l, before);
      StepLastPin(cfg, l, steps);
      StepPin(cfg, Run(cfg, l, before), step);
    }
  }
}
