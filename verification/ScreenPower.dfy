/**
  * With a power helper that works, the screen of a connected session is in the state the daemon means it to be in.
  * "The screen" is the session's own record of its power state, which a new session process starts as on.
  */
module ScreenPower {
  import opened Wrappers
  import opened Config
  import opened Messages
  import opened History
  import opened DaemonSpec
  import opened DaemonInvariant
  import DaemonProperties
  import LaunchSafety
  import opened SessionSpec
  import opened Composition
  import opened AgreementTheorem

  /** The power state that the screen will be in once the messages have been taken. */
  function LastOrder(messages: seq<DaemonMessage>, power: Power): Power {
    if messages == [] then power
    else
      var m := messages[|messages| - 1];
      if m.DisplayPower? then m.state else LastOrder(messages[..|messages| - 1], power)
  }

  predicate OrdersPower(messages: seq<DaemonMessage>) {
    exists i | 0 <= i < |messages| :: messages[i].DisplayPower?
  }

  lemma {:induction false} LastOrderAppend(a: seq<DaemonMessage>, b: seq<DaemonMessage>, power: Power)
    ensures LastOrder(a + b, power) == LastOrder(b, LastOrder(a, power))
  {
    if b == [] {
      assert a + b == a;
    } else {
      assert (a + b)[..|a + b| - 1] == a + b[..|b| - 1];
      LastOrderAppend(a, b[..|b| - 1], power);
    }
  }

  lemma {:induction false} LastOrderNone(messages: seq<DaemonMessage>, power: Power)
    requires !OrdersPower(messages)
    ensures LastOrder(messages, power) == power
  {
    if messages != [] {
      assert !messages[|messages| - 1].DisplayPower?;
      var before := messages[..|messages| - 1];
      assert forall i | 0 <= i < |before| :: before[i] == messages[i];
      LastOrderNone(before, power);
    }
  }

  lemma LastOrderFirst(messages: seq<DaemonMessage>, power: Power)
    requires messages != []
    ensures LastOrder(messages, power)
         == LastOrder(messages[1..], if messages[0].DisplayPower? then messages[0].state else power)
  {
    assert messages == [messages[0]] + messages[1..];
    assert [messages[0]][..0] == [];
    LastOrderAppend([messages[0]], messages[1..], power);
  }

  // ------------------------------------------------------------------ what the daemon orders

  lemma DegradedOrdersNone(d: Daemon, reason: Error)
    ensures !OrdersPower(EnterDegraded(d, reason).messages)
  {
  }

  lemma FailureOrdersNone(d: Daemon, now: int, text: string)
    ensures !OrdersPower(RecordFailure(d, now, text).messages)
  {
    var t := d.(failures := MoreFailures(d.failures, now),
                report := d.report.(lastError := Some(Reported(text))),
                history := After(d.history, FailureRecorded(now, text)));
    DegradedOrdersNone(t, Reported(text));
  }

  lemma LaunchOrdersNone(cfg: AppConfig, d: Daemon, now: int, preparation: Preparation)
    ensures !OrdersPower(Launch(cfg, d, now, preparation).messages)
  {
    var t := Transition(d, RequestingConsole);
    match preparation
    case PreparationInvalid(text) => DegradedOrdersNone(t, PreparationFailed(cfg.Backend(), text));
    case PreparationCommandFailed(text) => FailureOrdersNone(t, now, text);
    case _ =>
  }

  lemma PairingOrdersNone(cfg: AppConfig, d: Daemon, now: int, p: PairProbe)
    ensures
      var o := HandlePairing(cfg, d, now, p);
      o.PairingBlocked? ==> !OrdersPower(o.messages)
  {
  }

  lemma WhenDueOrdersNone(cfg: AppConfig, d: Daemon, now: int, inp: TickInput, paired: bool)
    ensures !OrdersPower(LaunchWhenDue(cfg, d, now, inp, paired).messages)
  {
    if DeadlinePassed(d.reconnect, now) {
      if cfg.Backend() != Moonlight || paired {
        LaunchOrdersNone(cfg, d, now, inp.preparation);
      } else {
        PairingOrdersNone(cfg, d, now, inp.pairing);
        match HandlePairing(cfg, d, now, inp.pairing) {
          case PairingFailed(t, text) => DegradedOrdersNone(t, PreparationFailed(Moonlight, text));
          case PairingBlocked(_, _) =>
          case PairingReady(t) => LaunchOrdersNone(cfg, t, now, inp.preparation);
        }
      }
    }
  }

  lemma ShowOrdersNone(cfg: AppConfig, d: Daemon, now: int, inp: TickInput)
    ensures !OrdersPower(ShowConsole(cfg, d, now, inp).messages)
  {
    if !d.console.running {
      WhenDueOrdersNone(cfg, d, now, inp, false);
    } else if IsPairingConsole(d) {
      PairingOrdersNone(cfg, d, now, inp.pairing);
      match HandlePairing(cfg, d, now, inp.pairing) {
        case PairingFailed(t, text) => DegradedOrdersNone(t, PreparationFailed(Moonlight, text));
        case PairingBlocked(_, _) =>
        case PairingReady(t) => WhenDueOrdersNone(cfg, t, now, inp, true);
      }
    }
  }

  /** Serving the session adds no order about the display to those given. */
  lemma {:induction false} ServeOrders(
    cfg: AppConfig, d: Daemon, now: int, v: VmStatus, inp: TickInput, display: seq<DaemonMessage>, power: Power)
    requires d.sessionReady
    ensures LastOrder(Serve(cfg, d, now, v, inp, display).messages, power) == LastOrder(display, power)
  {
    if IsOff(v) {
      var o := StandBy(cfg, d);
      LastOrderNone(o.messages, power);
      LastOrderAppend(o.messages, display, power);
    } else if IsOn(v) {
      var o := ShowConsole(cfg, d, now, inp);
      ShowOrdersNone(cfg, d, now, inp);
      LastOrderAppend(display, o.messages, power);
      LastOrderNone(o.messages, LastOrder(display, power));
    }
  }

  /** A change of intent is an order to a ready session, and nothing else is. */
  lemma IntentOrders(cfg: AppConfig, d: Daemon, now: int)
    requires d.sessionReady
    ensures
      var o := UpdateIntent(cfg, d, now);
      && o.daemon.sessionReady
      && LastOrder(o.messages, d.display.intent) == o.daemon.display.intent
  {
  }

  lemma ServeKeepsReady(cfg: AppConfig, d: Daemon, now: int, v: VmStatus, inp: TickInput, display: seq<DaemonMessage>)
    requires Inv(cfg, d)
    ensures Serve(cfg, d, now, v, inp, display).daemon.sessionReady == d.sessionReady
  {
    if IsOn(v) {
      LaunchSafety.ConsoleShown(cfg, d, now, inp);
    }
  }

  lemma PollKeepsScreen(cfg: AppConfig, d: Daemon, now: int, poll: ButtonPoll)
    ensures PollButton(cfg, d, now, poll).sessionReady == d.sessionReady
    ensures PollButton(cfg, d, now, poll).display == d.display
  {
    if poll.Presses? {
      PressesLeave(cfg, d, now, poll.presses);
    }
  }

  lemma LookKeepsScreen(cfg: AppConfig, d: Daemon, now: int, v: VmStatus)
    ensures
      var o := RefreshAction(cfg, RefreshStatus(d, now, StatusIs(v)).daemon, now, v);
      o.sessionReady == d.sessionReady && o.display == d.display
  {
  }

  /** After a tick for a ready session, the orders sent leave the screen in the state that is meant. */
  lemma TickOrders(cfg: AppConfig, d: Daemon, now: int, inp: TickInput)
    requires Inv(cfg, d) && d.sessionReady
    ensures
      var o := Tick(cfg, d, now, inp);
      o.daemon.sessionReady && LastOrder(o.messages, d.display.intent) == o.daemon.display.intent
  {
    var polled := PollButton(cfg, d, now, inp.poll);
    PollKeepsScreen(cfg, d, now, inp.poll);
    if !IsBlocked(polled.mode) {
      match inp.reading {
        case StatusUnreadable(text) =>
          FailureOrdersNone(polled, now, text);
          LastOrderNone(RecordFailure(polled, now, text).messages, d.display.intent);
        case StatusIs(v) =>
          LaunchSafety.TickServes(cfg, d, now, inp);
          LaunchSafety.BeforeServeKeeps(cfg, d, now, inp);
          LookKeepsScreen(cfg, polled, now, v);
          var r := RefreshAction(cfg, RefreshStatus(polled, now, inp.reading).daemon, now, v);
          var b := LaunchSafety.BeforeServe(cfg, d, now, inp);
          IntentOrders(cfg, r, now);
          ServeOrders(cfg, b.daemon, now, v, inp, b.messages, d.display.intent);
          ServeKeepsReady(cfg, b.daemon, now, v, inp, b.messages);
          DaemonProperties.ServeLeavesControls(cfg, b.daemon, now, v, inp, b.messages);
      }
    }
  }

  // ------------------------------------------------------------------ what a greeting orders

  lemma {:induction false} OrderThenNone(order: DaemonMessage, messages: seq<DaemonMessage>, power: Power)
    requires order.DisplayPower? && !OrdersPower(messages)
    ensures LastOrder([order] + messages, power) == order.state
  {
    LastOrderAppend([order], messages, power);
    LastOrderNone(messages, order.state);
  }

  lemma {:induction false} ReadGreetingOrders(cfg: AppConfig, d: Daemon, now: int, v: VmStatus, power: Power)
    requires !IsBlocked(d.mode)
    ensures LastOrder(OnReady(cfg, d, now, StatusIs(v)).messages, power) == d.display.intent
  {
    var r := RefreshStatus(ResetSession(d, true), now, StatusIs(v)).daemon;
    OrderThenNone(DisplayPower(d.display.intent, cfg.outputName), Greet(cfg, r).messages, power);
  }

  lemma {:induction false} UnreadGreetingOrders(cfg: AppConfig, d: Daemon, now: int, text: string, power: Power)
    requires !IsBlocked(d.mode)
    ensures LastOrder(OnReady(cfg, d, now, StatusUnreadable(text)).messages, power) == d.display.intent
  {
    var t := ResetSession(d, true);
    var order, failed := DisplayPower(d.display.intent, cfg.outputName), RecordFailure(t, now, text).messages;
    FailureOrdersNone(t, now, text);
    OrderThenNone(order, failed, power);
    FinalWait([order] + failed, DegradedWait, power);
    FinalWait([order] + failed, VmStopped, power);
  }

  lemma {:induction false} GreetingOrders(cfg: AppConfig, d: Daemon, now: int, reading: StatusReading, power: Power)
    ensures
      var o := OnReady(cfg, d, now, reading);
      && o.daemon.sessionReady && o.daemon.display == d.display
      && LastOrder(o.messages, power) == if IsBlocked(d.mode) then power else d.display.intent
  {
    if IsBlocked(d.mode) {
      LastOrderNone([ShowWaiting(DegradedWait, None)], power);
    } else {
      match reading {
        case StatusIs(v) => ReadGreetingOrders(cfg, d, now, v, power);
        case StatusUnreadable(text) => UnreadGreetingOrders(cfg, d, now, text, power);
      }
    }
  }

  lemma {:induction false} FinalWait(messages: seq<DaemonMessage>, reason: WaitReason, power: Power)
    ensures LastOrder(messages + [ShowWaiting(reason, None)], power) == LastOrder(messages, power)
  {
    LastOrderAppend(messages, [ShowWaiting(reason, None)], power);
    LastOrderNone([ShowWaiting(reason, None)], LastOrder(messages, power));
  }

  /** No other message changes what is meant, or orders anything about the display. */
  lemma {:induction false} OtherMessagesOrderNone(
    cfg: AppConfig, d: Daemon, m: SessionMessage, now: int, reading: StatusReading, power: Power)
    requires !m.SessionReady?
    ensures
      var o := HandleMessage(cfg, d, m, now, reading);
      && o.daemon.sessionReady == d.sessionReady && o.daemon.display.intent == d.display.intent
      && LastOrder(o.messages, power) == power
  {
    if m.SessionError? {
      var t := d.(console := d.console.(running := false, pid := None));
      DegradedOrdersNone(t, Reported(m.reason));
      LastOrderNone(EnterDegraded(t, Reported(m.reason)).messages, power);
    } else {
      LastOrderNone(HandleMessage(cfg, d, m, now, reading).messages, power);
    }
  }

  // ------------------------------------------------------------------ on the way

  predicate NoReady(messages: seq<SessionMessage>) {
    forall i | 0 <= i < |messages| :: !messages[i].SessionReady?
  }

  /** The session has been greeted. */
  predicate Greeted(y: System) {
    y.connected && y.d.sessionReady && NoReady(y.toDaemon)
  }

  /** Where the screen of a greeted session is going. */
  function Bound(y: System): Power {
    LastOrder(y.toSession, y.s.view.power)
  }

  /** The helper does its work in every turn. */
  predicate Helped(turns: seq<Turn>) {
    forall i | 0 <= i < |turns| :: turns[i].SessionTurn? ==> turns[i].effects.helped
  }

  lemma SessionScreen(cfg: AppConfig, s: Session, m: DaemonMessage, e: Effects)
    requires e.helped
    ensures
      var o := HandleDaemonMessage(cfg, s, m, e);
      && o.session.view.power == (if m.DisplayPower? then m.state else s.view.power)
      && NoReady(o.messages)
  {
    match m
    case ConnectConsole(b, launcher, argv, _) =>
      if argv != [] {
        LaunchScreen(cfg, s, b, launcher, argv, false, e.launch);
      }
    case ConnectSpice(vvPath) =>
      LaunchScreen(cfg, s, Spice, REMOTE_VIEWER, [REMOTE_VIEWER, "--full-screen", vvPath], true, e.launch);
    case _ =>
  }

  lemma LaunchScreen(
    cfg: AppConfig, s: Session, b: Backend, launcher: string, argv: seq<string>, legacy: bool, launch: LaunchResult)
    requires argv != []
    ensures
      var o := LaunchConsole(cfg, s, b, launcher, argv, legacy, launch);
      o.session.view.power == s.view.power && NoReady(o.messages)
  {
  }

  lemma SessionTurnBound(cfg: AppConfig, y: System, e: Effects)
    requires Greeted(y) && e.helped && y.toSession != []
    ensures
      var z := TakeTurn(cfg, y, SessionTurn(e));
      Greeted(z) && Bound(z) == Bound(y) && z.d.display.intent == y.d.display.intent
  {
    SessionScreen(cfg, y.s, y.toSession[0], e);
    LastOrderFirst(y.toSession, y.s.view.power);
  }

  lemma DaemonTurnBound(cfg: AppConfig, y: System, now: int, reading: StatusReading)
    requires Greeted(y) && y.toDaemon != []
    ensures
      var z := TakeTurn(cfg, y, DaemonTurn(now, reading));
      Greeted(z) && Bound(z) == Bound(y) && z.d.display.intent == y.d.display.intent
  {
    var m := y.toDaemon[0];
    OtherMessagesOrderNone(cfg, y.d, m, now, reading, Bound(y));
    LastOrderAppend(y.toSession, HandleMessage(cfg, y.d, m, now, reading).messages, y.s.view.power);
  }

  /** Turns change neither what is meant nor where the screen is going. */
  lemma {:induction false} TurnsBound(cfg: AppConfig, y: System, turns: seq<Turn>)
    requires Greeted(y) && Helped(turns)
    ensures
      var z := TakeTurns(cfg, y, turns);
      Greeted(z) && Bound(z) == Bound(y) && z.d.display.intent == y.d.display.intent
  {
    if turns != [] {
      var before, turn := turns[..|turns| - 1], turns[|turns| - 1];
      TurnsBound(cfg, y, before);
      var z := TakeTurns(cfg, y, before);
      match turn {
        case SessionTurn(e) =>
          if z.toSession != [] {
            SessionTurnBound(cfg, z, e);
          }
        case DaemonTurn(now, reading) =>
          if z.toDaemon != [] {
            DaemonTurnBound(cfg, z, now, reading);
          }
      }
    }
  }

  // ------------------------------------------------------------------ the greeting

  /** A session has just connected and its announcement is all there is. */
  predicate Announcing(y: System) {
    y.connected && y.toSession == [] && y.toDaemon == [SessionReady]
  }

  /** Until the daemon takes the announcement nothing changes; then the screen is bound for the intent unless blocked. */
  lemma {:induction false} AnnouncementBound(cfg: AppConfig, y: System, turns: seq<Turn>)
    requires Announcing(y) && Helped(turns)
    ensures
      var z := TakeTurns(cfg, y, turns);
      || z == y
      || (&& Greeted(z) && z.d.display.intent == y.d.display.intent
          && Bound(z) == if IsBlocked(y.d.mode) then y.s.view.power else y.d.display.intent)
  {
    if turns != [] {
      var before, turn := turns[..|turns| - 1], turns[|turns| - 1];
      AnnouncementBound(cfg, y, before);
      var z := TakeTurns(cfg, y, before);
      if z == y {
        if turn.DaemonTurn? {
          GreetingOrders(cfg, y.d, turn.now, turn.reading, y.s.view.power);
          assert [] + OnReady(cfg, y.d, turn.now, turn.reading).messages == OnReady(cfg, y.d, turn.now, turn.reading).messages;
        }
      } else {
        TurnsBound(cfg, z, [turn]);
        assert [turn][..0] == [];
        assert TakeTurns(cfg, z, [turn]) == TakeTurn(cfg, z, turn);
      }
    }
  }

  // ------------------------------------------------------------------ exchanges and runs

  /** The screen of a connected session is in the state that is meant. */
  predicate Follows(y: System) {
    y.connected ==> y.d.sessionReady && y.s.view.power == y.d.display.intent
  }

  /** A session connects to a blocked daemon with its screen in the other state: it is not told. */
  predicate Untold(y: System, cause: Cause) {
    cause.Connects? && !y.connected && IsBlocked(y.d.mode) && y.s.view.power != y.d.display.intent
  }

  lemma {:induction false} ConnectFollows(cfg: AppConfig, y: System, turns: seq<Turn>)
    requires Quiescent(y) && !y.connected && Helped(turns)
    requires Quiescent(TakeTurns(cfg, Open(cfg, y, Connects), turns))
    ensures Follows(TakeTurns(cfg, Open(cfg, y, Connects), turns)) <==> !Untold(y, Connects)
  {
    AnnouncementBound(cfg, Open(cfg, y, Connects), turns);
  }

  /** The screen is bound for what is meant, or there is no session. */
  predicate OnCourse(y: System) {
    if y.connected then Greeted(y) && Bound(y) == y.d.display.intent else Quiescent(y)
  }

  lemma TickFollows(cfg: AppConfig, y: System, now: int, inp: TickInput)
    requires Quiescent(y) && Follows(y) && y.connected && Inv(cfg, y.d)
    ensures OnCourse(OpenTick(cfg, y, now, inp))
  {
    TickOrders(cfg, y.d, now, inp);
    var o := Tick(cfg, y.d, now, inp);
    assert y.toSession + o.messages == o.messages;
  }

  lemma UnsentFollows(cfg: AppConfig, y: System, now: int, inp: TickInput)
    requires Quiescent(y) && Follows(y) && Inv(cfg, y.d)
    ensures OnCourse(Open(cfg, y, TickUnsent(now, inp)))
  {
    UnsentOpens(cfg, y, now, inp);
    if y.connected {
      TickFollows(cfg, y, now, inp);
    }
  }

  /** Any other beginning leaves the screen bound for what is meant, or no session. */
  lemma OthersFollow(cfg: AppConfig, y: System, cause: Cause)
    requires SystemInv(cfg, y) && Quiescent(y) && Follows(y)
    requires !(cause.Connects? && !y.connected)
    ensures OnCourse(Open(cfg, y, cause))
  {
    match cause
    case Ticks(now, inp) =>
      if y.connected {
        TickFollows(cfg, y, now, inp);
      }
    case TickUnsent(now, inp) => UnsentFollows(cfg, y, now, inp);
    case _ =>
  }

  /** From there, an exchange that runs to the end leaves the screen as meant exactly when no session goes untold. */
  lemma ScreenExactly(cfg: AppConfig, y: System, x: Exchange)
    requires SystemInv(cfg, y) && Quiescent(y) && Follows(y) && Helped(x.turns)
    requires Quiescent(Perform(cfg, y, x))
    ensures Follows(Perform(cfg, y, x)) <==> !Untold(y, x.cause)
  {
    if x.cause.Connects? && !y.connected {
      ConnectFollows(cfg, y, x.turns);
    } else {
      var z := Open(cfg, y, x.cause);
      OthersFollow(cfg, y, x.cause);
      if z.connected {
        TurnsBound(cfg, z, x.turns);
      } else {
        NothingToTake(cfg, z, x.turns);
      }
    }
  }

  /** In every exchange of the run the helper works and no session goes untold. */
  predicate AllTold(cfg: AppConfig, l: Launching, exchanges: seq<Exchange>) {
    exchanges != [] ==>
      var before, x := exchanges[..|exchanges| - 1], exchanges[|exchanges| - 1];
      AllTold(cfg, l, before) && Helped(x.turns) && !Untold(RunSystem(cfg, l, before), x.cause)
  }

  /** Over every such run of atomic exchanges, the screen of a connected session is in the state the daemon means. */
  lemma {:induction false} ScreenFollowsIntent(cfg: AppConfig, l: Launching, exchanges: seq<Exchange>)
    requires Atomic(cfg, l, exchanges) && AllTold(cfg, l, exchanges)
    ensures Follows(RunSystem(cfg, l, exchanges))
  {
    if exchanges != [] {
      var before := exchanges[..|exchanges| - 1];
      ScreenFollowsIntent(cfg, l, before);
      SystemKeepsInv(cfg, l, before);
      AtomicRunsRest(cfg, l, before);
      ScreenExactly(cfg, RunSystem(cfg, l, before), exchanges[|exchanges| - 1]);
    }
  }

  // ------------------------------------------------------------------ a session that goes untold

  /** No session, nothing in flight and nothing wrong; the guest has been off from the start, or has not been looked at. */
  predicate Unattended(d: Daemon) {
    && !d.sessionReady && !IsBlocked(d.mode) && !d.button.inFlight && d.startedAt == Some(0)
    && (d.guest.sinceAt.Some? ==> d.guest == Guest(Stopped, Some(0)))
  }

  function OffInput(poll: ButtonPoll): TickInput {
    TickInput(poll, StatusIs(Stopped), PairProbe(false, ProbeUnpaired, false, ProbeUnpaired, "1234"), Prepared)
  }

  /** When the display may go off for the first time. */
  function SettledAt(cfg: AppConfig): int {
    (cfg.policy.powerStateStabilizeMs + cfg.policy.dpmsOffDelayMs) * 1000
  }

  lemma UnattendedTick(cfg: AppConfig, d: Daemon, now: int)
    requires PolicyParsed(cfg.policy) && Unattended(d)
    requires if d.guest.sinceAt.Some? then now >= SettledAt(cfg) else now == 0
    ensures
      var o := Tick(cfg, d, now, OffInput(Presses([])));
      && o.messages == [] && Unattended(o.daemon) && o.daemon.guest.sinceAt.Some?
      && (d.guest.sinceAt.Some? ==> o.daemon.display.intent == Off)
  {
    assert PollButton(cfg, d, now, Presses([])) == d;
  }

  lemma FailedPoll(cfg: AppConfig, d: Daemon, now: int)
    requires Unattended(d) && cfg.forwardPowerButton
    ensures
      var o := Tick(cfg, d, now, OffInput(PollFailed("")));
      o.messages == [] && IsBlocked(o.daemon.mode) && o.daemon.display == d.display
  {
  }

  const LAUNCHING := Launching(None, 0, None)
  const EFFECTS := Effects(Started(7), true)

  function LateSession(cfg: AppConfig): Exchange {
    Exchange(Connects, [DaemonTurn(SettledAt(cfg), StatusIs(Stopped)), SessionTurn(EFFECTS)])
  }

  function UntoldRun(cfg: AppConfig): seq<Exchange> {
    [Exchange(Ticks(0, OffInput(Presses([]))), []),
     Exchange(Ticks(SettledAt(cfg), OffInput(Presses([]))), []),
     Exchange(Ticks(SettledAt(cfg), OffInput(PollFailed(""))), []),
     LateSession(cfg)]
  }

  lemma {:induction false} NextExchange(cfg: AppConfig, exchanges: seq<Exchange>, n: nat)
    requires n < |exchanges|
    ensures RunSystem(cfg, LAUNCHING, exchanges[..n + 1])
         == Perform(cfg, RunSystem(cfg, LAUNCHING, exchanges[..n]), exchanges[n])
  {
    assert exchanges[..n + 1][..n] == exchanges[..n];
  }

  /** Waiting, with the screen as it was at the start. */
  predicate Lit(y: System) {
    Quiescent(y) && !y.connected && y.s.view.power == On
  }

  /** A tick that says nothing to no session. */
  lemma QuietTick(cfg: AppConfig, y: System, now: int, inp: TickInput)
    requires Lit(y) && Tick(cfg, y.d, now, inp).messages == []
    ensures Perform(cfg, y, Exchange(Ticks(now, inp), [])) == y.(d := Tick(cfg, y.d, now, inp).daemon)
  {
  }

  lemma {:induction false} UntoldFirst(cfg: AppConfig)
    requires PolicyParsed(cfg.policy)
    ensures
      var y := RunSystem(cfg, LAUNCHING, UntoldRun(cfg)[..1]);
      Lit(y) && Unattended(y.d) && y.d.guest.sinceAt.Some?
  {
    var y := RunSystem(cfg, LAUNCHING, []);
    assert UntoldRun(cfg)[..0] == [];
    assert Lit(y) && Unattended(y.d) && y.d.guest.sinceAt.None?;
    NextExchange(cfg, UntoldRun(cfg), 0);
    UnattendedTick(cfg, y.d, 0);
    QuietTick(cfg, y, 0, OffInput(Presses([])));
  }

  lemma {:induction false} UntoldSecond(cfg: AppConfig)
    requires PolicyParsed(cfg.policy)
    ensures
      var y := RunSystem(cfg, LAUNCHING, UntoldRun(cfg)[..2]);
      Lit(y) && Unattended(y.d) && y.d.display.intent == Off
  {
    var y := RunSystem(cfg, LAUNCHING, UntoldRun(cfg)[..1]);
    UntoldFirst(cfg);
    NextExchange(cfg, UntoldRun(cfg), 1);
    UnattendedTick(cfg, y.d, SettledAt(cfg));
    QuietTick(cfg, y, SettledAt(cfg), OffInput(Presses([])));
  }

  lemma {:induction false} UntoldUpToConnect(cfg: AppConfig)
    requires PolicyParsed(cfg.policy) && cfg.forwardPowerButton
    ensures
      var y := RunSystem(cfg, LAUNCHING, UntoldRun(cfg)[..3]);
      Lit(y) && IsBlocked(y.d.mode) && y.d.display.intent == Off
  {
    var y := RunSystem(cfg, LAUNCHING, UntoldRun(cfg)[..2]);
    UntoldSecond(cfg);
    NextExchange(cfg, UntoldRun(cfg), 2);
    FailedPoll(cfg, y.d, SettledAt(cfg));
    QuietTick(cfg, y, SettledAt(cfg), OffInput(PollFailed("")));
  }

  lemma {:induction false} BlockedGreeting(cfg: AppConfig, y: System, turns: seq<Turn>)
    requires Lit(y) && IsBlocked(y.d.mode)
    requires turns == [DaemonTurn(SettledAt(cfg), StatusIs(Stopped)), SessionTurn(EFFECTS)]
    ensures Quiescent(TakeTurns(cfg, Open(cfg, y, Connects), turns))
  {
    var z := Open(cfg, y, Connects);
    var u := TakeTurn(cfg, z, turns[0]);
    assert u.toSession == [ShowWaiting(DegradedWait, None)] && u.toDaemon == [];
    assert turns[..1] == [turns[0]] && [turns[0]][..0] == [];
    assert TakeTurns(cfg, z, [turns[0]]) == u;
  }

  lemma {:induction false} AtomicNext(cfg: AppConfig, exchanges: seq<Exchange>, n: nat)
    requires n < |exchanges| && Atomic(cfg, LAUNCHING, exchanges[..n])
    requires PossibleCause(cfg, exchanges[n].cause) && Quiescent(RunSystem(cfg, LAUNCHING, exchanges[..n + 1]))
    ensures Atomic(cfg, LAUNCHING, exchanges[..n + 1])
  {
    assert exchanges[..n + 1][..n] == exchanges[..n];
  }

  /** Every exchange of the run has a helper that works and begins as one can. */
  lemma UntoldExchanges(cfg: AppConfig)
    ensures
      var run := UntoldRun(cfg);
      && |run| == 4 && run[3] == LateSession(cfg) && AllHelped(run)
      && forall i | 0 <= i < |run| :: PossibleCause(cfg, run[i].cause)
  {
  }

  lemma {:induction false} UntoldBegins(cfg: AppConfig, run: seq<Exchange>)
    requires PolicyParsed(cfg.policy) && cfg.forwardPowerButton && run == UntoldRun(cfg)
    ensures |run| == 4 && Atomic(cfg, LAUNCHING, run[..3])
  {
    UntoldExchanges(cfg);
    assert run[..0] == [];
    UntoldFirst(cfg);
    AtomicNext(cfg, run, 0);
    UntoldSecond(cfg);
    AtomicNext(cfg, run, 1);
    UntoldUpToConnect(cfg);
    AtomicNext(cfg, run, 2);
  }

  /** At rest with a session, its screen on and meant to be off. */
  predicate IsWronglyLit(y: System) {
    Quiescent(y) && y.connected && y.s.view.power == On && y.d.display.intent == Off
  }

  /** The last exchange of the run, from the state before it. */
  lemma UntoldLast(cfg: AppConfig, y: System)
    requires Lit(y) && IsBlocked(y.d.mode) && y.d.display.intent == Off
    ensures IsWronglyLit(Perform(cfg, y, LateSession(cfg)))
  {
    BlockedGreeting(cfg, y, LateSession(cfg).turns);
    AnnouncementBound(cfg, Open(cfg, y, Connects), LateSession(cfg).turns);
  }

  predicate AllHelped(exchanges: seq<Exchange>) {
    forall i | 0 <= i < |exchanges| :: Helped(exchanges[i].turns)
  }

  lemma {:induction false} UntoldWhole(cfg: AppConfig, run: seq<Exchange>)
    requires PolicyParsed(cfg.policy) && cfg.forwardPowerButton && run == UntoldRun(cfg)
    ensures |run| == 4 && Atomic(cfg, LAUNCHING, run[..4]) && IsWronglyLit(RunSystem(cfg, LAUNCHING, run[..4]))
  {
    UntoldEnd(cfg, run);
    UntoldBegins(cfg, run);
    UntoldExchanges(cfg);
    AtomicToTheEnd(cfg, run);
  }

  lemma {:induction false} AtomicToTheEnd(cfg: AppConfig, run: seq<Exchange>)
    requires |run| == 4 && Atomic(cfg, LAUNCHING, run[..3]) && PossibleCause(cfg, run[3].cause)
    requires IsWronglyLit(RunSystem(cfg, LAUNCHING, run[..4]))
    ensures Atomic(cfg, LAUNCHING, run[..4])
  {
    AtomicNext(cfg, run, 3);
  }

  /**
    * With the power button forwarded there is a run of atomic exchanges in which every helper works, and at rest the
    * screen of a connected session is on while it is meant to be off: the guest is off for long enough, the button
    * cannot be read, and then a session connects.
    */
  lemma {:induction false} SessionsCanGoUntold(cfg: AppConfig)
    requires PolicyParsed(cfg.policy) && cfg.forwardPowerButton
    ensures
      var run := UntoldRun(cfg);
      Atomic(cfg, LAUNCHING, run) && AllHelped(run) && IsWronglyLit(RunSystem(cfg, LAUNCHING, run))
  {
    var run := UntoldRun(cfg);
    UntoldExchanges(cfg);
    UntoldWhole(cfg, run);
    assert run[..4] == run;
  }

  lemma {:induction false} UntoldEnd(cfg: AppConfig, run: seq<Exchange>)
    requires PolicyParsed(cfg.policy) && cfg.forwardPowerButton && run == UntoldRun(cfg)
    ensures |run| == 4 && IsWronglyLit(RunSystem(cfg, LAUNCHING, run[..4]))
  {
    UntoldExchanges(cfg);
    UntoldUpToConnect(cfg);
    LastExchange(cfg, run, RunSystem(cfg, LAUNCHING, run[..3]));
  }

  lemma {:induction false} LastExchange(cfg: AppConfig, run: seq<Exchange>, y: System)
    requires |run| == 4 && run[3] == LateSession(cfg) && y == RunSystem(cfg, LAUNCHING, run[..3])
    requires Lit(y) && IsBlocked(y.d.mode) && y.d.display.intent == Off
    ensures IsWronglyLit(RunSystem(cfg, LAUNCHING, run[..4]))
  {
    UntoldLast(cfg, y);
    NextExchange(cfg, run, 3);
  }
}
