/** Over every run of the two processes: the records agree, exactly until a blind tick. */
module AgreementTheorem {
  import opened Wrappers
  import opened Config
  import opened Messages
  import opened History
  import opened DaemonSpec
  import opened DaemonInvariant
  import DaemonProperties
  import LaunchSafety
  import opened SessionSpec
  import opened SessionAccount
  import opened Composition
  import opened Agreement

  // ------------------------------------------------------------------ the presses of a tick

  /** The presses clear the daemon's record exactly when they fill the failure window. */
  predicate PressedAs(d: Daemon, now: int, presses: seq<Press>, t: Daemon) {
    && t.failures == WindowAfter(d.failures, now, presses)
    && t.console == (if PressesTrip(d.failures, now, presses) then NO_CONSOLE else d.console)
    && (if PressesTrip(d.failures, now, presses) then IsBlocked(t.mode) else t.mode == d.mode)
  }

  lemma PressAs(cfg: AppConfig, s: Daemon, now: int, press: Press)
    ensures
      var t := HandlePress(cfg, s, now, press);
      var failures := if press.reading.StatusIs? then [] else MoreFailures(s.failures, now);
      && t.failures == failures
      && (if press.reading.StatusUnreadable? && |failures| >= FAILURE_LIMIT
          then t.console == NO_CONSOLE && IsBlocked(t.mode)
          else t.console == s.console && t.mode == s.mode)
  {
  }

  lemma {:induction false} PressesAs(cfg: AppConfig, d: Daemon, now: int, presses: seq<Press>)
    ensures PressedAs(d, now, presses, HandlePresses(cfg, d, now, presses))
  {
    if presses != [] {
      var before := presses[..|presses| - 1];
      PressesAs(cfg, d, now, before);
      PressAs(cfg, HandlePresses(cfg, d, now, before), now, presses[|presses| - 1]);
    }
  }

  lemma PollAs(cfg: AppConfig, d: Daemon, now: int, inp: TickInput)
    ensures
      var t := PollButton(cfg, d, now, inp.poll);
      && t.console == (if PressDegrades(cfg, d, now, inp) then NO_CONSOLE else d.console)
      && (PollBlocks(cfg, d, now, inp) <==> IsBlocked(t.mode))
  {
    if inp.poll.Presses? {
      PressesAs(cfg, d, now, inp.poll.presses);
    }
  }

  // ------------------------------------------------------------------ the orders of a tick

  /** The orders bring the session to the record that the daemon has or will have. */
  predicate Told(before: ConsoleRecord, o: Outcome) {
    || (Orders(o.messages) == [] && o.daemon.console == before)
    || (Stops(Orders(o.messages)) && o.daemon.console == NO_CONSOLE)
    || (|Orders(o.messages)| == 1 && IsLaunch(Orders(o.messages)[0]))
  }

  /** The session is told to stop and the daemon keeps its record. */
  predicate Misled(before: ConsoleRecord, o: Outcome) {
    Stops(Orders(o.messages)) && o.daemon.console == before
  }

  predicate Unreachable(p: PairProbe) {
    !p.reachable || p.live.ProbeUnreachable?
  }

  lemma LaunchTold(cfg: AppConfig, s: Daemon, now: int, preparation: Preparation)
    requires s.console.running ==> !preparation.EndpointUnavailable?
    requires !s.console.running ==> s.console == NO_CONSOLE
    ensures Told(s.console, Launch(cfg, s, now, preparation))
  {
    var t := Transition(s, RequestingConsole);
    match preparation
    case EndpointUnavailable(_) => StopsAre([ShowWaiting(Reconnecting, None)]);
    case PreparationInvalid(text) => DegradedStops(t, PreparationFailed(cfg.Backend(), text));
    case PreparationCommandFailed(text) => FailureStops(t, now, text);
    case Prepared =>
  }

  /** Pairing leaves the daemon's record alone. */
  predicate PairingTold(s: Daemon, p: PairProbe, o: PairingOutcome) {
    && o.daemon.console == s.console
    && match o
       case PairingReady(t) => t.reconnect.nextAt.None? && !Unreachable(p)
       case PairingFailed(_, _) => !Unreachable(p)
       case PairingBlocked(_, messages) =>
         if Unreachable(p) then Stops(Orders(messages))
         else
           || Orders(messages) == []
           || (|Orders(messages)| == 1 && IsLaunch(Orders(messages)[0]))
           || (Stops(Orders(messages)) && s.mode.state != WaitingForPairing)
  }

  lemma PairingTells(cfg: AppConfig, s: Daemon, now: int, p: PairProbe)
    requires cfg.Backend() == Moonlight
    ensures PairingTold(s, p, HandlePairing(cfg, s, now, p))
  {
  }

  lemma WhenDueTold(cfg: AppConfig, s: Daemon, now: int, inp: TickInput)
    requires s.console == NO_CONSOLE
    ensures Told(s.console, LaunchWhenDue(cfg, s, now, inp, false))
  {
    if DeadlinePassed(s.reconnect, now) {
      if cfg.Backend() != Moonlight {
        LaunchTold(cfg, s, now, inp.preparation);
      } else {
        PairingTells(cfg, s, now, inp.pairing);
        match HandlePairing(cfg, s, now, inp.pairing) {
          case PairingFailed(t, text) => DegradedStops(t, PreparationFailed(Moonlight, text));
          case PairingBlocked(t, messages) =>
          case PairingReady(t) => LaunchTold(cfg, t, now, inp.preparation);
        }
      }
    }
  }

  lemma PairingConsoleTold(cfg: AppConfig, s: Daemon, now: int, inp: TickInput)
    requires Inv(cfg, s) && s.console.running && IsPairingConsole(s) && Possible(cfg, inp.preparation)
    ensures
      var o := ShowConsole(cfg, s, now, inp);
      if Unreachable(inp.pairing) then Misled(s.console, o) else Told(s.console, o)
  {
    PairingTells(cfg, s, now, inp.pairing);
    match HandlePairing(cfg, s, now, inp.pairing)
    case PairingFailed(t, text) => DegradedStops(t, PreparationFailed(Moonlight, text));
    case PairingBlocked(_, _) =>
    case PairingReady(t) => LaunchTold(cfg, t, now, inp.preparation);
  }

  /** What the tick tells about the console. */
  predicate TickTold(cfg: AppConfig, d: Daemon, now: int, inp: TickInput, o: Outcome) {
    if d.console.running && PressDegrades(cfg, d, now, inp) then o.messages == [] && o.daemon.console == NO_CONSOLE
    else if d.console.running && PairingHostLost(cfg, d, now, inp) then Misled(d.console, o)
    else Told(d.console, o)
  }

  lemma {:induction false} StandByTold(cfg: AppConfig, s: Daemon, display: seq<DaemonMessage>)
    requires Inv(cfg, s) && Orders(display) == []
    ensures Told(s.console, Outcome(StandBy(cfg, s).daemon, StandBy(cfg, s).messages + display))
  {
    var messages := StandBy(cfg, s).messages;
    OrdersConcat(messages, display);
    if messages != [] {
      StopsAre(messages);
    }
  }

  lemma {:induction false} ServeTold(
    cfg: AppConfig, s: Daemon, now: int, v: VmStatus, inp: TickInput, display: seq<DaemonMessage>)
    requires Inv(cfg, s) && Orders(display) == [] && Possible(cfg, inp.preparation)
    ensures
      var o := Serve(cfg, s, now, v, inp, display);
      if s.sessionReady && s.console.running && IsPairingConsole(s) && IsOn(v) && Unreachable(inp.pairing)
      then Misled(s.console, o) else Told(s.console, o)
  {
    if s.sessionReady && IsOff(v) {
      StandByTold(cfg, s, display);
    } else if s.sessionReady && IsOn(v) {
      OrdersConcat(display, ShowConsole(cfg, s, now, inp).messages);
      if !s.console.running {
        WhenDueTold(cfg, s, now, inp);
      } else if IsPairingConsole(s) {
        PairingConsoleTold(cfg, s, now, inp);
      }
    }
  }

  lemma LookTells(cfg: AppConfig, d: Daemon, now: int, inp: TickInput)
    requires Inv(cfg, d) && Possible(cfg, inp.preparation)
    requires inp.reading.StatusIs? && !IsBlocked(PollButton(cfg, d, now, inp.poll).mode)
    ensures TickTold(cfg, d, now, inp, Tick(cfg, d, now, inp))
  {
    PollAs(cfg, d, now, inp);
    LaunchSafety.TickServes(cfg, d, now, inp);
    LaunchSafety.BeforeServeKeeps(cfg, d, now, inp);
    var b := LaunchSafety.BeforeServe(cfg, d, now, inp);
    assert Orders(b.messages) == [];
    ServeTold(cfg, b.daemon, now, inp.reading.status, inp, b.messages);
  }

  lemma TickTells(cfg: AppConfig, d: Daemon, now: int, inp: TickInput)
    requires Inv(cfg, d) && Possible(cfg, inp.preparation)
    ensures TickTold(cfg, d, now, inp, Tick(cfg, d, now, inp))
  {
    PollAs(cfg, d, now, inp);
    var polled := PollButton(cfg, d, now, inp.poll);
    if !IsBlocked(polled.mode) {
      match inp.reading {
        case StatusUnreadable(text) => FailureStops(polled, now, text);
        case StatusIs(_) => LookTells(cfg, d, now, inp);
      }
    }
  }

  // ------------------------------------------------------------------ the system's invariant

  predicate SystemInv(cfg: AppConfig, y: System) {
    && Inv(cfg, y.d) && SessionInv(y.s)
    && (!y.connected ==> Quiescent(y) && RecordOf(y.s) == NO_CONSOLE)
  }

  lemma TurnKeepsInv(cfg: AppConfig, y: System, turn: Turn)
    requires SystemInv(cfg, y)
    ensures SystemInv(cfg, TakeTurn(cfg, y, turn))
  {
    match turn
    case SessionTurn(effects) =>
      if y.toSession != [] {
        StepKeepsAccount(cfg, y.s, Deliver(y.toSession[0], effects));
      }
    case DaemonTurn(now, reading) =>
      if y.toDaemon != [] {
        HandleMessageKeeps(cfg, y.d, y.toDaemon[0], now, reading);
      }
  }

  lemma {:induction false} TurnsKeepInv(cfg: AppConfig, y: System, turns: seq<Turn>)
    requires SystemInv(cfg, y)
    ensures SystemInv(cfg, TakeTurns(cfg, y, turns))
  {
    if turns != [] {
      TurnsKeepInv(cfg, y, turns[..|turns| - 1]);
      TurnKeepsInv(cfg, TakeTurns(cfg, y, turns[..|turns| - 1]), turns[|turns| - 1]);
    }
  }

  lemma UnconnectedKeepsInv(cfg: AppConfig, y: System, d: Daemon)
    requires SystemInv(cfg, y) && Inv(cfg, d)
    ensures SystemInv(cfg, Unconnected(y, d))
  {
    StepKeepsAccount(cfg, y.s, LoseConnection);
  }

  lemma {:induction false} UnansweredKeepsInv(
    cfg: AppConfig, d: Daemon, messages: seq<SessionMessage>, now: int, reading: StatusReading)
    requires Inv(cfg, d)
    ensures Inv(cfg, TakeUnanswered(cfg, d, messages, now, reading))
    decreases |messages|
  {
    if messages != [] {
      HandleMessageKeeps(cfg, d, messages[0], now, reading);
      var o := HandleMessage(cfg, d, messages[0], now, reading);
      if o.messages == [] {
        UnansweredKeepsInv(cfg, o.daemon, messages[1..], now, reading);
      }
    }
  }

  lemma TickKeepsSystem(cfg: AppConfig, y: System, now: int, inp: TickInput)
    requires SystemInv(cfg, y)
    ensures SystemInv(cfg, OpenTick(cfg, y, now, inp))
  {
    TickKeeps(cfg, y.d, now, inp);
  }

  lemma DropKeepsInv(cfg: AppConfig, y: System, now: int, reading: StatusReading)
    requires SystemInv(cfg, y)
    ensures SystemInv(cfg, Drop(cfg, y, now, reading)) && !Drop(cfg, y, now, reading).connected
  {
    if y.connected {
      var d := TakeUnanswered(cfg, OnDisconnect(y.d), y.toDaemon, now, reading);
      OnDisconnectKeeps(cfg, y.d);
      UnansweredKeepsInv(cfg, OnDisconnect(y.d), y.toDaemon, now, reading);
      UnconnectedKeepsInv(cfg, y, d);
    }
  }

  lemma UnsentOpens(cfg: AppConfig, y: System, now: int, inp: TickInput)
    ensures
      var z := Open(cfg, y, TickUnsent(now, inp));
      z == OpenTick(cfg, y, now, inp) || z == Unconnected(y, OnDisconnect(Tick(cfg, y.d, now, inp).daemon))
  {
  }

  lemma UnsentKeepsInv(cfg: AppConfig, y: System, now: int, inp: TickInput)
    requires SystemInv(cfg, y)
    ensures SystemInv(cfg, Open(cfg, y, TickUnsent(now, inp)))
  {
    UnsentOpens(cfg, y, now, inp);
    TickKeepsSystem(cfg, y, now, inp);
    TickKeeps(cfg, y.d, now, inp);
    LostKeepsInv(cfg, y, Tick(cfg, y.d, now, inp).daemon);
  }

  lemma LostKeepsInv(cfg: AppConfig, y: System, d: Daemon)
    requires SystemInv(cfg, y) && Inv(cfg, d)
    ensures SystemInv(cfg, Unconnected(y, OnDisconnect(d)))
  {
    OnDisconnectKeeps(cfg, d);
    UnconnectedKeepsInv(cfg, y, OnDisconnect(d));
  }

  lemma ExitKeepsInv(cfg: AppConfig, y: System, status: int)
    requires SystemInv(cfg, y)
    ensures SystemInv(cfg, Open(cfg, y, ChildExits(status)))
  {
    StepKeepsAccount(cfg, y.s, Poll(Some(status)));
  }

  lemma {:induction false} ReplyOpens(cfg: AppConfig, y: System, now: int, reading: StatusReading)
    ensures
      var z := Open(cfg, y, ReplyUnsent(now, reading));
      z == y || z == Unconnected(y, TakeUnanswered(cfg, y.d, y.toDaemon, now, reading))
  {
  }

  lemma ReplyKeepsInv(cfg: AppConfig, y: System, now: int, reading: StatusReading)
    requires SystemInv(cfg, y)
    ensures SystemInv(cfg, Open(cfg, y, ReplyUnsent(now, reading)))
  {
    ReplyOpens(cfg, y, now, reading);
    UnansweredKeepsInv(cfg, y.d, y.toDaemon, now, reading);
    UnconnectedKeepsInv(cfg, y, TakeUnanswered(cfg, y.d, y.toDaemon, now, reading));
  }

  lemma FreshKeepsInv(cfg: AppConfig, y: System)
    requires SystemInv(cfg, y) && !y.connected
    ensures SystemInv(cfg, y.(s := InitialSession()))
  {
  }

  lemma RestartOpens(cfg: AppConfig, y: System, now: int, reading: StatusReading)
    ensures Open(cfg, y, Restarts(now, reading)) == Drop(cfg, y, now, reading).(s := InitialSession())
  {
  }

  lemma RestartKeepsInv(cfg: AppConfig, y: System, now: int, reading: StatusReading)
    requires SystemInv(cfg, y)
    ensures SystemInv(cfg, Open(cfg, y, Restarts(now, reading)))
  {
    DropKeepsInv(cfg, y, now, reading);
    RestartOpens(cfg, y, now, reading);
    FreshKeepsInv(cfg, Drop(cfg, y, now, reading));
  }

  lemma OpenKeepsInv(cfg: AppConfig, y: System, cause: Cause)
    requires SystemInv(cfg, y)
    ensures SystemInv(cfg, Open(cfg, y, cause))
  {
    match cause
    case Ticks(now, inp) => TickKeepsSystem(cfg, y, now, inp);
    case TickUnsent(now, inp) => UnsentKeepsInv(cfg, y, now, inp);
    case ChildExits(status) => ExitKeepsInv(cfg, y, status);
    case Connects =>
    case Drops(now, reading) => DropKeepsInv(cfg, y, now, reading);
    case ReplyUnsent(now, reading) => ReplyKeepsInv(cfg, y, now, reading);
    case Restarts(now, reading) => RestartKeepsInv(cfg, y, now, reading);
  }

  // ------------------------------------------------------------------ an exchange

  predicate IsBlind(cfg: AppConfig, y: System, cause: Cause) {
    match cause
    case Ticks(now, inp) => Blind(cfg, y.d, now, inp)
    case TickUnsent(now, inp) => y.d.console.running && PressDegrades(cfg, y.d, now, inp)
    case _ => false
  }

  /** The daemon has given up a viewer that the session goes on running, and nothing is on its way. */
  predicate Orphaned(y: System) {
    Quiescent(y) && y.d.console == NO_CONSOLE && y.s.child.Some?
  }

  lemma TickOpens(cfg: AppConfig, y: System, now: int, inp: TickInput)
    requires SystemInv(cfg, y) && Quiescent(y) && Agree(y) && Possible(cfg, inp.preparation)
    ensures
      var z := Open(cfg, y, Ticks(now, inp));
      if Blind(cfg, y.d, now, inp) then SystemComingApart(z) || Orphaned(z) else SystemSettling(z)
  {
    TickTells(cfg, y.d, now, inp);
    var o := Tick(cfg, y.d, now, inp);
    assert y.toSession + o.messages == o.messages;
  }

  /** Without a connection both ends have no console, unless the daemon took a late start for one. */
  lemma UnconnectedSettles(y: System, d: Daemon)
    requires d.console == NO_CONSOLE
    ensures SystemSettling(Unconnected(y, d))
  {
  }

  lemma UnsentSettles(cfg: AppConfig, y: System, now: int, inp: TickInput)
    requires SystemInv(cfg, y) && Quiescent(y) && Agree(y) && Possible(cfg, inp.preparation)
    ensures
      var z := Open(cfg, y, TickUnsent(now, inp));
      if IsBlind(cfg, y, TickUnsent(now, inp)) then Orphaned(z) else SystemSettling(z)
  {
    var o := Tick(cfg, y.d, now, inp);
    if y.connected && o.messages != [] {
      SpeakingIsSighted(cfg, y.d, now, inp);
      UnconnectedSettles(y, OnDisconnect(o.daemon));
    } else {
      SilentTickSettles(cfg, y, now, inp);
    }
  }

  lemma SpeakingIsSighted(cfg: AppConfig, d: Daemon, now: int, inp: TickInput)
    requires Tick(cfg, d, now, inp).messages != []
    ensures !PressDegrades(cfg, d, now, inp)
  {
    PollAs(cfg, d, now, inp);
  }

  /** Without a connection, or with nothing to say, a tick is like any other; it is not the host that is lost then. */
  lemma SilentTickSettles(cfg: AppConfig, y: System, now: int, inp: TickInput)
    requires SystemInv(cfg, y) && Quiescent(y) && Agree(y) && Possible(cfg, inp.preparation)
    requires !y.connected || Tick(cfg, y.d, now, inp).messages == []
    ensures
      var z := OpenTick(cfg, y, now, inp);
      if y.d.console.running && PressDegrades(cfg, y.d, now, inp) then Orphaned(z) else SystemSettling(z)
  {
    TickTells(cfg, y.d, now, inp);
    TickOpens(cfg, y, now, inp);
    assert y.toSession + Tick(cfg, y.d, now, inp).messages == Tick(cfg, y.d, now, inp).messages;
  }

  lemma ExitSettles(cfg: AppConfig, y: System, status: int)
    requires SystemInv(cfg, y) && Quiescent(y) && Agree(y)
    ensures SystemSettling(Open(cfg, y, ChildExits(status)))
  {
    var o := PollConsole(cfg, y.s, Some(status));
    assert y.toDaemon + o.messages == o.messages;
  }

  lemma OpenSettles(cfg: AppConfig, y: System, cause: Cause)
    requires SystemInv(cfg, y) && Quiescent(y) && Agree(y) && PossibleCause(cfg, cause)
    ensures
      var z := Open(cfg, y, cause);
      if IsBlind(cfg, y, cause) then SystemComingApart(z) || Orphaned(z) else SystemSettling(z)
  {
    match cause
    case Ticks(now, inp) => TickOpens(cfg, y, now, inp);
    case TickUnsent(now, inp) => UnsentSettles(cfg, y, now, inp);
    case ChildExits(status) => ExitSettles(cfg, y, status);
    case Connects =>
    case Drops(_, _) =>
    case ReplyUnsent(_, _) =>
    case Restarts(_, _) =>
  }

  lemma {:induction false} NothingToTake(cfg: AppConfig, y: System, turns: seq<Turn>)
    requires Quiescent(y)
    ensures TakeTurns(cfg, y, turns) == y
  {
    if turns != [] {
      NothingToTake(cfg, y, turns[..|turns| - 1]);
    }
  }

  /** From agreement, an exchange that runs to the end restores it exactly when the tick it starts with is not blind. */
  lemma AgreementExactly(cfg: AppConfig, y: System, x: Exchange)
    requires SystemInv(cfg, y) && Quiescent(y) && Agree(y) && PossibleCause(cfg, x.cause)
    requires Quiescent(Perform(cfg, y, x))
    ensures Agree(Perform(cfg, y, x)) <==> !IsBlind(cfg, y, x.cause)
  {
    var z := Open(cfg, y, x.cause);
    OpenSettles(cfg, y, x.cause);
    TurnsSettle(cfg, z, x.turns);
    if Orphaned(z) {
      NothingToTake(cfg, z, x.turns);
    }
  }

  // ------------------------------------------------------------------ runs

  /** Every exchange of the run runs to the end. */
  predicate Atomic(cfg: AppConfig, l: Launching, exchanges: seq<Exchange>) {
    exchanges != [] ==>
      && Atomic(cfg, l, exchanges[..|exchanges| - 1])
      && PossibleCause(cfg, exchanges[|exchanges| - 1].cause)
      && Quiescent(RunSystem(cfg, l, exchanges))
  }

  /** No tick of the run is blind. */
  predicate Sighted(cfg: AppConfig, l: Launching, exchanges: seq<Exchange>) {
    exchanges != [] ==>
      var before := exchanges[..|exchanges| - 1];
      Sighted(cfg, l, before) && !IsBlind(cfg, RunSystem(cfg, l, before), exchanges[|exchanges| - 1].cause)
  }

  lemma {:induction false} SystemKeepsInv(cfg: AppConfig, l: Launching, exchanges: seq<Exchange>)
    ensures SystemInv(cfg, RunSystem(cfg, l, exchanges))
  {
    if exchanges == [] {
      RunKeepsInv(cfg, l, []);
    } else {
      var y, x := RunSystem(cfg, l, exchanges[..|exchanges| - 1]), exchanges[|exchanges| - 1];
      SystemKeepsInv(cfg, l, exchanges[..|exchanges| - 1]);
      OpenKeepsInv(cfg, y, x.cause);
      TurnsKeepInv(cfg, Open(cfg, y, x.cause), x.turns);
    }
  }

  lemma {:induction false} AtomicRunsRest(cfg: AppConfig, l: Launching, exchanges: seq<Exchange>)
    requires Atomic(cfg, l, exchanges)
    ensures Quiescent(RunSystem(cfg, l, exchanges))
  {
  }

  /** Over every run of atomic exchanges without a blind tick, both ends have the same record of the console. */
  lemma {:induction false} RecordsAgree(cfg: AppConfig, l: Launching, exchanges: seq<Exchange>)
    requires Atomic(cfg, l, exchanges) && Sighted(cfg, l, exchanges)
    ensures Agree(RunSystem(cfg, l, exchanges))
  {
    if exchanges != [] {
      var before := exchanges[..|exchanges| - 1];
      RecordsAgree(cfg, l, before);
      SystemKeepsInv(cfg, l, before);
      AtomicRunsRest(cfg, l, before);
      AgreementExactly(cfg, RunSystem(cfg, l, before), exchanges[|exchanges| - 1]);
    }
  }

  /** Without forwarding of the power button and with a backend that is not paired, no tick is blind. */
  lemma {:induction false} PlainRunsAreSighted(cfg: AppConfig, l: Launching, exchanges: seq<Exchange>)
    requires !cfg.forwardPowerButton && cfg.Backend() != Moonlight
    ensures Sighted(cfg, l, exchanges)
  {
    if exchanges != [] {
      var before := exchanges[..|exchanges| - 1];
      PlainRunsAreSighted(cfg, l, before);
      SystemKeepsInv(cfg, l, before);
    }
  }

  /** With such a configuration the two records agree over every run. */
  lemma {:induction false} PlainRecordsAgree(cfg: AppConfig, l: Launching, exchanges: seq<Exchange>)
    requires !cfg.forwardPowerButton && cfg.Backend() != Moonlight
    requires Atomic(cfg, l, exchanges)
    ensures Agree(RunSystem(cfg, l, exchanges))
  {
    PlainRunsAreSighted(cfg, l, exchanges);
    RecordsAgree(cfg, l, exchanges);
  }

  // ------------------------------------------------------------------ when the connection is lost

  predicate AnyStart(messages: seq<SessionMessage>) {
    exists i | 0 <= i < |messages| :: messages[i].ConsoleStarted?
  }

  lemma RepliesMean(cfg: AppConfig, d: Daemon, m: SessionMessage, now: int, reading: StatusReading)
    ensures HandleMessage(cfg, d, m, now, reading).messages != [] <==> HasReply(m)
  {
    DaemonBelieves(cfg, d, m, now, reading);
  }

  lemma AnyFirst(messages: seq<SessionMessage>)
    requires messages != []
    ensures AnyReply(messages) <==> HasReply(messages[0]) || AnyReply(messages[1..])
    ensures AnyStart(messages) <==> messages[0].ConsoleStarted? || AnyStart(messages[1..])
  {
    assert forall i | 0 < i < |messages| :: messages[i] == messages[1..][i - 1];
    assert forall i | 0 <= i < |messages[1..]| :: messages[1..][i] == messages[i + 1];
  }

  /** The console in the record once the messages are taken with no one to answer to. */
  lemma {:induction false} UnansweredConsole(
    cfg: AppConfig, d: Daemon, messages: seq<SessionMessage>, now: int, reading: StatusReading)
    ensures
      var c := TakeUnanswered(cfg, d, messages, now, reading).console;
      if AnyReply(messages) then c == NO_CONSOLE else if AnyStart(messages) then c.running else c == d.console
    decreases |messages|
  {
    if messages != [] {
      var o := HandleMessage(cfg, d, messages[0], now, reading);
      RepliesMean(cfg, d, messages[0], now, reading);
      AnyFirst(messages);
      if o.messages == [] {
        UnansweredConsole(cfg, o.daemon, messages[1..], now, reading);
      }
    }
  }

  /**
    * When the daemon reads that the connection is lost, whatever was on its way, the two records agree afterwards
    * exactly unless it reads the start of a viewer with it and nothing that it would answer.
    */
  lemma LossExactly(cfg: AppConfig, y: System, now: int, reading: StatusReading)
    requires y.connected
    ensures Agree(Open(cfg, y, Drops(now, reading))) <==> AnyReply(y.toDaemon) || !AnyStart(y.toDaemon)
  {
    UnansweredConsole(cfg, OnDisconnect(y.d), y.toDaemon, now, reading);
  }

  /** When it cannot send an answer, or what a tick has to say, the records always agree afterwards. */
  lemma UnsentReplyAgrees(cfg: AppConfig, y: System, now: int, reading: StatusReading)
    requires y.connected && AnyReply(y.toDaemon)
    ensures Agree(Open(cfg, y, ReplyUnsent(now, reading)))
  {
    UnansweredConsole(cfg, y.d, y.toDaemon, now, reading);
  }

  lemma UnsentTickAgrees(cfg: AppConfig, y: System, now: int, inp: TickInput)
    requires y.connected && Tick(cfg, y.d, now, inp).messages != []
    ensures Agree(Open(cfg, y, TickUnsent(now, inp)))
  {
    assert OnDisconnect(Tick(cfg, y.d, now, inp).daemon).console == NO_CONSOLE;
  }

  /** Whatever has gone wrong before, in every reachable state the greeting of a new session restores agreement. */
  lemma {:induction false} GreetingRestores(cfg: AppConfig, l: Launching, exchanges: seq<Exchange>, turns: seq<Turn>)
    requires !RunSystem(cfg, l, exchanges).connected
    requires Quiescent(Perform(cfg, RunSystem(cfg, l, exchanges), Exchange(Connects, turns)))
    ensures Agree(Perform(cfg, RunSystem(cfg, l, exchanges), Exchange(Connects, turns)))
  {
    var y := RunSystem(cfg, l, exchanges);
    SystemKeepsInv(cfg, l, exchanges);
    assert SystemSettling(Open(cfg, y, Connects));
    TurnsSettle(cfg, Open(cfg, y, Connects), turns);
  }

  // ------------------------------------------------------------------ the display

  /** The power state that the daemon will believe in once it has taken its messages. */
  function LastApplied(messages: seq<SessionMessage>, power: Power): Power {
    if messages == [] then power
    else
      var m := messages[|messages| - 1];
      if m.DisplayPowerApplied? then m.state else LastApplied(messages[..|messages| - 1], power)
  }

  predicate PowersAgree(y: System) {
    LastApplied(y.toDaemon, y.d.display.applied) == y.s.view.power
  }

  lemma {:induction false} AppliedFirst(m: SessionMessage, messages: seq<SessionMessage>, power: Power)
    ensures LastApplied([m] + messages, power)
         == LastApplied(messages, if m.DisplayPowerApplied? then m.state else power)
  {
    if messages == [] {
      assert [m] + messages == [m];
    } else {
      assert ([m] + messages)[..|messages|] == [m] + messages[..|messages| - 1];
      AppliedFirst(m, messages[..|messages| - 1], power);
    }
  }

  lemma SessionPower(cfg: AppConfig, s: Session, m: DaemonMessage, e: Effects)
    ensures
      var o := HandleDaemonMessage(cfg, s, m, e);
      |o.messages| <= 1 &&
      o.session.view.power ==
        if o.messages != [] && o.messages[0].DisplayPowerApplied? then o.messages[0].state else s.view.power
  {
  }

  lemma DaemonPower(cfg: AppConfig, d: Daemon, m: SessionMessage, now: int, reading: StatusReading)
    ensures HandleMessage(cfg, d, m, now, reading).daemon.display.applied
         == if m.DisplayPowerApplied? then m.state else d.display.applied
  {
  }

  lemma {:induction false} AppliedLast(messages: seq<SessionMessage>, more: seq<SessionMessage>, power: Power)
    requires |more| <= 1
    ensures LastApplied(messages + more, power)
         == if more != [] && more[0].DisplayPowerApplied? then more[0].state else LastApplied(messages, power)
  {
    if more == [] {
      assert messages + more == messages;
    } else {
      assert (messages + more)[..|messages|] == messages;
    }
  }

  lemma SessionTurnPower(cfg: AppConfig, y: System, e: Effects)
    requires PowersAgree(y) && y.toSession != []
    ensures PowersAgree(TakeTurn(cfg, y, SessionTurn(e)))
  {
    var o := HandleDaemonMessage(cfg, y.s, y.toSession[0], e);
    SessionPower(cfg, y.s, y.toSession[0], e);
    AppliedLast(y.toDaemon, o.messages, y.d.display.applied);
  }

  lemma DaemonTurnPower(cfg: AppConfig, y: System, now: int, reading: StatusReading)
    requires PowersAgree(y) && y.toDaemon != []
    ensures PowersAgree(TakeTurn(cfg, y, DaemonTurn(now, reading)))
  {
    assert y.toDaemon == [y.toDaemon[0]] + y.toDaemon[1..];
    AppliedFirst(y.toDaemon[0], y.toDaemon[1..], y.d.display.applied);
    DaemonPower(cfg, y.d, y.toDaemon[0], now, reading);
  }

  lemma TurnPower(cfg: AppConfig, y: System, turn: Turn)
    requires PowersAgree(y)
    ensures PowersAgree(TakeTurn(cfg, y, turn))
  {
    match turn
    case SessionTurn(e) =>
      if y.toSession != [] {
        SessionTurnPower(cfg, y, e);
      }
    case DaemonTurn(now, reading) =>
      if y.toDaemon != [] {
        DaemonTurnPower(cfg, y, now, reading);
      }
  }

  lemma {:induction false} TurnsPower(cfg: AppConfig, y: System, turns: seq<Turn>)
    requires PowersAgree(y)
    ensures PowersAgree(TakeTurns(cfg, y, turns))
  {
    if turns != [] {
      TurnsPower(cfg, y, turns[..|turns| - 1]);
      TurnPower(cfg, TakeTurns(cfg, y, turns[..|turns| - 1]), turns[|turns| - 1]);
    }
  }

  lemma IntentLeavesApplied(cfg: AppConfig, d: Daemon, now: int)
    ensures UpdateIntent(cfg, d, now).daemon.display.applied == d.display.applied
  {
  }

  lemma LookLeavesApplied(cfg: AppConfig, d: Daemon, now: int, inp: TickInput)
    requires inp.reading.StatusIs?
    ensures LaunchSafety.BeforeServe(cfg, d, now, inp).daemon.display.applied == d.display.applied
  {
    if inp.poll.Presses? {
      PressesLeave(cfg, d, now, inp.poll.presses);
    }
    var r := RefreshStatus(PollButton(cfg, d, now, inp.poll), now, inp.reading);
    IntentLeavesApplied(cfg, RefreshAction(cfg, r.daemon, now, inp.reading.status), now);
  }

  lemma TickLeavesApplied(cfg: AppConfig, d: Daemon, now: int, inp: TickInput)
    ensures Tick(cfg, d, now, inp).daemon.display.applied == d.display.applied
  {
    if !IsBlocked(PollButton(cfg, d, now, inp.poll).mode) && inp.reading.StatusIs? {
      LaunchSafety.TickServes(cfg, d, now, inp);
      LookLeavesApplied(cfg, d, now, inp);
      var b := LaunchSafety.BeforeServe(cfg, d, now, inp);
      DaemonProperties.ServeLeavesControls(cfg, b.daemon, now, inp.reading.status, inp, b.messages);
    } else if inp.poll.Presses? {
      PressesLeave(cfg, d, now, inp.poll.presses);
    }
  }

  /** The session's process is replaced while its record of the screen is off. */
  predicate ForgetsDark(y: System, cause: Cause) {
    cause.Restarts? && y.s.view.power == Off
  }

  lemma OpenPower(cfg: AppConfig, y: System, cause: Cause)
    requires PowersAgree(y) && Quiescent(y)
    ensures PowersAgree(Open(cfg, y, cause)) <==> !ForgetsDark(y, cause)
  {
    match cause
    case Ticks(now, inp) => TickLeavesApplied(cfg, y.d, now, inp);
    case TickUnsent(now, inp) => TickLeavesApplied(cfg, y.d, now, inp);
    case _ =>
  }

  lemma RestartRests(cfg: AppConfig, y: System, now: int, reading: StatusReading)
    requires !y.connected ==> Quiescent(y)
    ensures Quiescent(Open(cfg, y, Restarts(now, reading)))
  {
  }

  lemma {:induction false} RestartIsQuiet(cfg: AppConfig, y: System, now: int, reading: StatusReading, turns: seq<Turn>)
    requires SystemInv(cfg, y)
    ensures TakeTurns(cfg, Open(cfg, y, Restarts(now, reading)), turns) == Open(cfg, y, Restarts(now, reading))
  {
    RestartRests(cfg, y, now, reading);
    NothingToTake(cfg, Open(cfg, y, Restarts(now, reading)), turns);
  }

  /**
    * At rest, an exchange keeps the daemon's applied power equal to the session's record of its screen exactly unless
    * the session's process is replaced while that record is off: the new one takes the screen to be on.
    */
  lemma DisplayRecordsExactly(cfg: AppConfig, y: System, x: Exchange)
    requires SystemInv(cfg, y) && Quiescent(y) && y.d.display.applied == y.s.view.power
    requires Quiescent(Perform(cfg, y, x))
    ensures
      var z := Perform(cfg, y, x);
      z.d.display.applied == z.s.view.power <==> !ForgetsDark(y, x.cause)
  {
    OpenPower(cfg, y, x.cause);
    if ForgetsDark(y, x.cause) {
      RestartIsQuiet(cfg, y, x.cause.now, x.cause.reading, x.turns);
    } else {
      TurnsPower(cfg, Open(cfg, y, x.cause), x.turns);
    }
  }

  /** In no exchange of the run is the session's process replaced while its record of the screen is off. */
  predicate Remembers(cfg: AppConfig, l: Launching, exchanges: seq<Exchange>) {
    exchanges != [] ==>
      var before := exchanges[..|exchanges| - 1];
      Remembers(cfg, l, before) && !ForgetsDark(RunSystem(cfg, l, before), exchanges[|exchanges| - 1].cause)
  }

  /** Over every such run of atomic exchanges, the daemon believes in the power state that the session last applied. */
  lemma {:induction false} DisplayRecordsAgree(cfg: AppConfig, l: Launching, exchanges: seq<Exchange>)
    requires Atomic(cfg, l, exchanges) && Remembers(cfg, l, exchanges)
    ensures RunSystem(cfg, l, exchanges).d.display.applied == RunSystem(cfg, l, exchanges).s.view.power
  {
    if exchanges != [] {
      var before := exchanges[..|exchanges| - 1];
      DisplayRecordsAgree(cfg, l, before);
      SystemKeepsInv(cfg, l, before);
      AtomicRunsRest(cfg, l, before);
      DisplayRecordsExactly(cfg, RunSystem(cfg, l, before), exchanges[|exchanges| - 1]);
    }
  }
}
