/** Blind ticks do happen: runs after which the two records of the console differ. */
module BlindTicks {
  import opened Wrappers
  import opened Config
  import opened Messages
  import opened History
  import opened DaemonSpec
  import opened DaemonInvariant
  import opened SessionSpec
  import opened Composition
  import opened AgreementTheorem
  import opened ExchangeEnds

  const LAUNCHING := Launching(None, 0, None)
  const VIEWER_PID := 7
  const EFFECTS := Effects(Started(VIEWER_PID), false)
  const RUNNING := StatusIs(Running)
  const UNREACHABLE := PairProbe(false, ProbeUnpaired, false, ProbeUnpaired, "1234")
  const UNPAIRED := PairProbe(true, ProbeUnpaired, false, ProbeUnpaired, "1234")
  const NO_PRESSES := Presses([])
  const UNREADABLE := Press(StatusUnreadable(""), None)

  /** The session connects, takes what the daemon has to say, and is ready to show a console. */
  const CONNECTING := Exchange(Connects, [DaemonTurn(0, RUNNING), SessionTurn(EFFECTS), SessionTurn(EFFECTS)])

  /** A tick that leads to a launch, which succeeds. */
  const LAUNCHED :=
    Exchange(Ticks(0, TickInput(NO_PRESSES, RUNNING, UNPAIRED, Prepared)), [SessionTurn(EFFECTS), DaemonTurn(0, RUNNING)])

  /** A tick that finds the power button pressed five times and no status to be had. */
  const PRESSED :=
    Exchange(Ticks(0, TickInput(Presses([UNREADABLE, UNREADABLE, UNREADABLE, UNREADABLE, UNREADABLE]),
                                RUNNING, UNPAIRED, Prepared)), [])

  /** A tick that finds the host gone. */
  const LOST := Exchange(Ticks(0, TickInput(NO_PRESSES, RUNNING, UNREACHABLE, Prepared)), [SessionTurn(EFFECTS)])

  lemma {:induction false} TwoTurns(cfg: AppConfig, y: System, a: Turn, b: Turn)
    ensures TakeTurns(cfg, y, [a, b]) == TakeTurn(cfg, TakeTurn(cfg, y, a), b)
  {
    OneTurn(cfg, y, a);
    LastTurn(cfg, y, [a], b);
    assert [a] + [b] == [a, b];
  }

  lemma {:induction false} ThreeTurns(cfg: AppConfig, y: System, a: Turn, b: Turn, c: Turn)
    ensures TakeTurns(cfg, y, [a, b, c]) == TakeTurn(cfg, TakeTurn(cfg, TakeTurn(cfg, y, a), b), c)
  {
    TwoTurns(cfg, y, a, b);
    LastTurn(cfg, y, [a, b], c);
    assert [a, b] + [c] == [a, b, c];
  }

  /** A session is there and nothing else has happened. */
  predicate Idling(y: System) {
    && Quiescent(y) && y.connected && RecordOf(y.s) == NO_CONSOLE
    && y.d.sessionReady && y.d.console == NO_CONSOLE && y.d.failures == [] && !IsBlocked(y.d.mode)
    && y.d.reconnect.nextAt.None? && y.d.pairing == Pairing(Unknown, None, None, false)
    && !y.d.button.inFlight && y.d.display.intent == On
  }

  lemma AfterConnecting(cfg: AppConfig)
    ensures Idling(Perform(cfg, PowerUp(cfg, LAUNCHING), CONNECTING))
  {
    var y := Open(cfg, PowerUp(cfg, LAUNCHING), Connects);
    var z := TakeTurn(cfg, y, DaemonTurn(0, RUNNING));
    assert z.toSession == [DisplayPower(On, cfg.outputName), ShowWaiting(Connecting, None)] && z.toDaemon == [];
    var u := TakeTurn(cfg, z, SessionTurn(EFFECTS));
    assert u.toSession == [ShowWaiting(Connecting, None)] && u.toDaemon == [];
    ThreeTurns(cfg, y, DaemonTurn(0, RUNNING), SessionTurn(EFFECTS), SessionTurn(EFFECTS));
  }

  /** The console is up and both ends know it. */
  predicate Showing(y: System) {
    && Quiescent(y) && y.connected && y.d.sessionReady
    && y.d.console.running && y.d.failures == [] && !IsBlocked(y.d.mode) && y.d.display.intent == On
  }

  lemma TickLaunches(cfg: AppConfig, y: System)
    requires Idling(y) && (cfg.Backend() == Spice || cfg.Backend() == Moonlight)
    ensures
      var o := Tick(cfg, y.d, 0, LAUNCHED.cause.inp);
      && o.messages == [if cfg.Backend() == Moonlight then PairMessage(cfg.console, "1234") else LaunchMessage(cfg.console)]
      && o.daemon.sessionReady && o.daemon.failures == [] && !IsBlocked(o.daemon.mode) && o.daemon.display.intent == On
      && (cfg.Backend() == Moonlight ==> o.daemon.pairing.state == PendingPinApproval)
  {
    var d := y.d;
    assert PollButton(cfg, d, 0, NO_PRESSES) == d;
    var r := RefreshStatus(d, 0, RUNNING).daemon;
    var u := UpdateIntent(cfg, r, 0);
    assert u.messages == [];
  }

  lemma ViewerPermitted(cfg: AppConfig, argv: seq<string>)
    requires cfg.Backend() == Spice && argv != [] && argv[0] == REMOTE_VIEWER
    ensures Permitted(cfg, Spice, REMOTE_VIEWER, argv)
  {
    assert LastSlash(REMOTE_VIEWER).None?;
  }

  lemma ViewerStarts(cfg: AppConfig, s: Session, m: DaemonMessage)
    requires cfg.Backend() == Spice || cfg.Backend() == Moonlight
    requires m == if cfg.Backend() == Moonlight then PairMessage(cfg.console, "1234") else LaunchMessage(cfg.console)
    ensures HandleDaemonMessage(cfg, s, m, EFFECTS).messages == [ConsoleStarted(VIEWER_PID, Some(cfg.Backend()))]
  {
    if cfg.Backend() == Spice {
      ViewerPermitted(cfg, m.argv);
    }
  }

  /** The viewer is up and the daemon has yet to hear of it. */
  predicate Starting(cfg: AppConfig, y: System) {
    && y.connected && y.toSession == [] && y.toDaemon == [ConsoleStarted(VIEWER_PID, Some(cfg.Backend()))]
    && y.d.sessionReady && y.d.failures == [] && !IsBlocked(y.d.mode) && y.d.display.intent == On
    && (cfg.Backend() == Moonlight ==> y.d.pairing.state == PendingPinApproval)
  }

  lemma ViewerUp(cfg: AppConfig, y: System)
    requires Idling(y) && (cfg.Backend() == Spice || cfg.Backend() == Moonlight)
    ensures Starting(cfg, TakeTurn(cfg, Open(cfg, y, LAUNCHED.cause), SessionTurn(EFFECTS)))
  {
    TickLaunches(cfg, y);
    var z := Open(cfg, y, LAUNCHED.cause);
    var m := if cfg.Backend() == Moonlight then PairMessage(cfg.console, "1234") else LaunchMessage(cfg.console);
    assert z.toSession == [m];
    ViewerStarts(cfg, z.s, m);
  }

  lemma StartHeard(cfg: AppConfig, y: System)
    requires Starting(cfg, y)
    ensures Showing(TakeTurn(cfg, y, DaemonTurn(0, RUNNING)))
    ensures cfg.Backend() == Moonlight ==> IsPairingConsole(TakeTurn(cfg, y, DaemonTurn(0, RUNNING)).d)
  {
  }

  lemma AfterLaunch(cfg: AppConfig, y: System)
    requires Idling(y) && (cfg.Backend() == Spice || cfg.Backend() == Moonlight)
    ensures Showing(Perform(cfg, y, LAUNCHED))
    ensures cfg.Backend() == Moonlight ==> IsPairingConsole(Perform(cfg, y, LAUNCHED).d)
  {
    var z := Open(cfg, y, LAUNCHED.cause);
    ViewerUp(cfg, y);
    StartHeard(cfg, TakeTurn(cfg, z, SessionTurn(EFFECTS)));
    TwoTurns(cfg, z, SessionTurn(EFFECTS), DaemonTurn(0, RUNNING));
  }

  lemma {:induction false} EveryPressCounts(failures: seq<int>, presses: seq<Press>)
    requires forall i | 0 <= i < |failures| :: failures[i] == 0
    requires forall i | 0 <= i < |presses| :: presses[i].reading.StatusUnreadable?
    ensures |WindowAfter(failures, 0, presses)| == |failures| + |presses|
    ensures forall i | 0 <= i < |WindowAfter(failures, 0, presses)| :: WindowAfter(failures, 0, presses)[i] == 0
  {
    if presses != [] {
      EveryPressCounts(failures, presses[..|presses| - 1]);
      AllRecent(WindowAfter(failures, 0, presses[..|presses| - 1]));
    }
  }

  lemma {:induction false} AllRecent(times: seq<int>)
    requires forall i | 0 <= i < |times| :: times[i] == 0
    ensures Recent(times, 0) == times
  {
    if times != [] {
      AllRecent(times[..|times| - 1]);
    }
  }

  /** Five presses with no status to be had degrade a daemon that shows a console; the session never hears of it. */
  lemma PressedIsBlind(cfg: AppConfig, y: System)
    requires Showing(y) && cfg.forwardPowerButton
    ensures IsBlind(cfg, y, PRESSED.cause) && Quiescent(Perform(cfg, y, PRESSED))
  {
    var presses := PRESSED.cause.inp.poll.presses;
    EveryPressCounts([], presses);
    assert PressesTrip([], 0, presses);
    PollAs(cfg, y.d, 0, PRESSED.cause.inp);
  }

  lemma LostIsBlind(cfg: AppConfig, y: System)
    requires Showing(y) && IsPairingConsole(y.d)
    ensures IsBlind(cfg, y, LOST.cause)
  {
    assert PollButton(cfg, y.d, 0, NO_PRESSES) == y.d;
  }

  lemma LostTells(cfg: AppConfig, d: Daemon)
    requires d.sessionReady && d.console.running && !IsBlocked(d.mode) && d.display.intent == On && IsPairingConsole(d)
    ensures Tick(cfg, d, 0, LOST.cause.inp).messages == [ShowWaiting(Reconnecting, None)]
  {
    assert PollButton(cfg, d, 0, NO_PRESSES) == d;
    var r := RefreshAction(cfg, RefreshStatus(d, 0, RUNNING).daemon, 0, Running);
    var u := UpdateIntent(cfg, r, 0);
    assert u.messages == [];
    assert ShowConsole(cfg, u.daemon, 0, LOST.cause.inp).messages == [ShowWaiting(Reconnecting, None)];
  }

  /** Neither end has anything left to say after the tick that lost the host. */
  lemma LostSettles(cfg: AppConfig, y: System)
    requires Showing(y) && IsPairingConsole(y.d)
    ensures Quiescent(Perform(cfg, y, LOST))
  {
    LostTells(cfg, y.d);
    var z := Open(cfg, y, LOST.cause);
    assert z.toSession == [ShowWaiting(Reconnecting, None)] && z.toDaemon == [];
    OneTurn(cfg, z, SessionTurn(EFFECTS));
  }

  /** The run has come to where the console is up, and the two records agree. */
  lemma {:induction false} UpToLaunch(cfg: AppConfig)
    requires cfg.Backend() == Spice || cfg.Backend() == Moonlight
    ensures
      var run := [CONNECTING, LAUNCHED];
      var y := RunSystem(cfg, LAUNCHING, run);
      && Atomic(cfg, LAUNCHING, run) && Showing(y) && Agree(y)
      && (cfg.Backend() == Moonlight ==> IsPairingConsole(y.d))
  {
    var one, two := [CONNECTING], [CONNECTING, LAUNCHED];
    assert one[..0] == [] && two[..1] == one;
    var y1 := RunSystem(cfg, LAUNCHING, one);
    assert y1 == Perform(cfg, RunSystem(cfg, LAUNCHING, []), CONNECTING);
    AfterConnecting(cfg);
    assert Atomic(cfg, LAUNCHING, []) && Atomic(cfg, LAUNCHING, one);
    AfterLaunch(cfg, y1);
    assert Sighted(cfg, LAUNCHING, []) && Sighted(cfg, LAUNCHING, one);
    assert !y1.d.console.running;
    RecordsAgree(cfg, LAUNCHING, two);
  }

  /** A run of atomic exchanges that ends with a blind tick ends in disagreement. */
  lemma {:induction false} BlindRun(cfg: AppConfig, x: Exchange)
    requires cfg.Backend() == Spice || cfg.Backend() == Moonlight
    requires
      var y := RunSystem(cfg, LAUNCHING, [CONNECTING, LAUNCHED]);
      IsBlind(cfg, y, x.cause) && PossibleCause(cfg, x.cause) && Quiescent(Perform(cfg, y, x))
    ensures
      var run := [CONNECTING, LAUNCHED, x];
      Atomic(cfg, LAUNCHING, run) && !Agree(RunSystem(cfg, LAUNCHING, run))
  {
    var two, three := [CONNECTING, LAUNCHED], [CONNECTING, LAUNCHED, x];
    assert three[..2] == two;
    UpToLaunch(cfg);
    SystemKeepsInv(cfg, LAUNCHING, two);
    AgreementExactly(cfg, RunSystem(cfg, LAUNCHING, two), x);
  }

  /** With the power button forwarded, the records can come apart. */
  lemma {:induction false} PressesBreakAgreement(cfg: AppConfig)
    requires cfg.Backend() == Spice && cfg.forwardPowerButton
    ensures
      var run := [CONNECTING, LAUNCHED, PRESSED];
      Atomic(cfg, LAUNCHING, run) && !Agree(RunSystem(cfg, LAUNCHING, run))
  {
    UpToLaunch(cfg);
    PressedIsBlind(cfg, RunSystem(cfg, LAUNCHING, [CONNECTING, LAUNCHED]));
    BlindRun(cfg, PRESSED);
  }

  /** With a backend that is paired, the records can come apart. */
  lemma {:induction false} LostHostBreaksAgreement(cfg: AppConfig)
    requires cfg.Backend() == Moonlight
    ensures
      var run := [CONNECTING, LAUNCHED, LOST];
      Atomic(cfg, LAUNCHING, run) && !Agree(RunSystem(cfg, LAUNCHING, run))
  {
    UpToLaunch(cfg);
    var y := RunSystem(cfg, LAUNCHING, [CONNECTING, LAUNCHED]);
    LostIsBlind(cfg, y);
    LostSettles(cfg, y);
    BlindRun(cfg, LOST);
  }

  // ------------------------------------------------------------------ a viewer that starts too late to be heard

  /** The tick that leads to a launch, and the session starts the viewer; its report is still on its way. */
  const STARTED := Exchange(LAUNCHED.cause, [SessionTurn(EFFECTS)])

  const DROPPED := Exchange(Drops(0, RUNNING), [])

  lemma AfterStart(cfg: AppConfig, y: System)
    requires Idling(y) && (cfg.Backend() == Spice || cfg.Backend() == Moonlight)
    ensures Starting(cfg, Perform(cfg, y, STARTED))
  {
    ViewerUp(cfg, y);
    OneTurn(cfg, Open(cfg, y, STARTED.cause), SessionTurn(EFFECTS));
  }

  lemma AfterDrop(cfg: AppConfig, y: System)
    requires y.connected && y.toDaemon == [ConsoleStarted(VIEWER_PID, Some(cfg.Backend()))]
    ensures
      var z := Perform(cfg, y, DROPPED);
      && !z.connected && Quiescent(z) && RecordOf(z.s) == NO_CONSOLE
      && !z.d.sessionReady && z.d.console == ConsoleRecord(true, Some(VIEWER_PID), Some(cfg.Backend()))
  {
    var d := OnDisconnect(y.d);
    assert y.toDaemon[1..] == [];
    var o := HandleMessage(cfg, d, y.toDaemon[0], 0, RUNNING);
    assert o.messages == [];
    assert TakeUnanswered(cfg, d, y.toDaemon, 0, RUNNING) == o.daemon;
  }

  /**
    * A viewer starts, and the connection is lost before the daemon reads of it: the daemon then records a running
    * console with no session, and the session has no viewer.
    */
  lemma {:induction false} LateStartsBreakAgreement(cfg: AppConfig)
    requires cfg.Backend() == Spice || cfg.Backend() == Moonlight
    ensures
      var y := RunSystem(cfg, LAUNCHING, [CONNECTING, STARTED, DROPPED]);
      && !Agree(y) && Quiescent(y) && !y.connected && !y.d.sessionReady
      && y.d.console == ConsoleRecord(true, Some(VIEWER_PID), Some(cfg.Backend())) && y.s.child.None?
  {
    var one, two, three := [CONNECTING], [CONNECTING, STARTED], [CONNECTING, STARTED, DROPPED];
    assert one[..0] == [] && two[..1] == one && three[..2] == two;
    AfterConnecting(cfg);
    assert RunSystem(cfg, LAUNCHING, one) == Perform(cfg, RunSystem(cfg, LAUNCHING, []), CONNECTING);
    AfterStart(cfg, RunSystem(cfg, LAUNCHING, one));
    AfterDrop(cfg, RunSystem(cfg, LAUNCHING, two));
  }
}
