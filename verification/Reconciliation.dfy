/**
  * Once the two records of the console have come apart: exactly what brings them together again, and that no viewer is
  * asked for before.
  */
module Reconciliation {
  import opened Wrappers
  import opened Config
  import opened Messages
  import opened History
  import opened DaemonSpec
  import opened DaemonInvariant
  import opened SessionSpec
  import SessionAccount
  import opened Composition
  import opened Agreement
  import opened AgreementTheorem
  import opened LaunchSafety

  // ------------------------------------------------------------------ apart

  /** The daemon believes in a viewer that the session does not have, and nothing is on its way that would tell it. */
  predicate Adrift(y: System) {
    y.connected && SystemComingApart(y) && y.d.sessionReady && !IsPairingConsole(y.d)
  }

  predicate Bereft(y: System) {
    && y.connected && Quiescent(y) && y.s.child.None?
    && y.d.console.running && y.d.sessionReady && !IsPairingConsole(y.d)
  }

  /** At rest with a session: the daemon believes in a viewer that is gone, or the session keeps one that was given up. */
  predicate Apart(y: System) {
    Bereft(y) || (y.connected && Orphaned(y) && IsBlocked(y.d.mode))
  }

  lemma AdriftAtRest(y: System)
    requires Adrift(y) && Quiescent(y)
    ensures Bereft(y)
  {
  }

  lemma ApartDisagrees(y: System)
    requires Apart(y)
    ensures !Agree(y)
  {
  }

  // ------------------------------------------------------------------ what mends

  /** The failures that count once the daemon has polled the button. */
  function PolledFailures(cfg: AppConfig, d: Daemon, now: int, inp: TickInput): seq<int> {
    if cfg.forwardPowerButton && d.mode.startupError.None? && inp.poll.Presses?
    then WindowAfter(d.failures, now, inp.poll.presses)
    else d.failures
  }

  /** The guest is read as off, or the failure window is filled, by a press or by the tick's own read. */
  predicate TickMends(cfg: AppConfig, d: Daemon, now: int, inp: TickInput) {
    || PressDegrades(cfg, d, now, inp)
    || (!PollBlocks(cfg, d, now, inp) &&
        match inp.reading
        case StatusIs(v) => IsOff(v)
        case StatusUnreadable(_) => |MoreFailures(PolledFailures(cfg, d, now, inp), now)| >= FAILURE_LIMIT)
  }

  /**
    * What brings the records together again. A daemon that believes in a viewer gives it up in such a tick; a session
    * that kept one reports its end; and the loss of the connection, noticed in whatever way, ends the belief of both.
    */
  predicate Mends(cfg: AppConfig, y: System, cause: Cause) {
    match cause
    case Ticks(now, inp) => y.d.console.running && TickMends(cfg, y.d, now, inp)
    case TickUnsent(now, inp) =>
      (y.d.console.running && TickMends(cfg, y.d, now, inp)) || Tick(cfg, y.d, now, inp).messages != []
    case ChildExits(_) => y.s.child.Some?
    case Drops(_, _) => true
    case Restarts(_, _) => true
    case Connects => false
    case ReplyUnsent(_, _) => false
  }

  // ------------------------------------------------------------------ a tick of a daemon that believes in a viewer

  /** The tick leaves the daemon without a viewer and the session told to stop, or leaves its belief alone. */
  predicate BelievesOn(d: Daemon, mends: bool, o: Outcome) {
    if mends then o.daemon.console == NO_CONSOLE && (o.messages == [] || Stops(Orders(o.messages)))
    else
      && o.daemon.console == d.console && o.daemon.sessionReady
      && !IsPairingConsole(o.daemon) && Orders(o.messages) == []
  }

  /** The daemon that the lemmas here are about. */
  predicate Believing(cfg: AppConfig, d: Daemon) {
    Inv(cfg, d) && d.console.running && d.sessionReady && !IsPairingConsole(d)
  }

  lemma PolledAs(cfg: AppConfig, d: Daemon, now: int, inp: TickInput)
    requires Believing(cfg, d)
    ensures
      var t := PollButton(cfg, d, now, inp.poll);
      t.failures == PolledFailures(cfg, d, now, inp) && t.sessionReady && !IsPairingConsole(t)
  {
    if inp.poll.Presses? {
      PressesAs(cfg, d, now, inp.poll.presses);
      PressesLeave(cfg, d, now, inp.poll.presses);
    }
  }

  lemma BlockedTickBelieves(cfg: AppConfig, d: Daemon, now: int, inp: TickInput)
    requires Believing(cfg, d) && PollBlocks(cfg, d, now, inp)
    ensures BelievesOn(d, TickMends(cfg, d, now, inp), Tick(cfg, d, now, inp))
  {
    PollAs(cfg, d, now, inp);
    PolledAs(cfg, d, now, inp);
  }

  lemma UnreadableTickBelieves(cfg: AppConfig, d: Daemon, now: int, inp: TickInput)
    requires Believing(cfg, d) && !PollBlocks(cfg, d, now, inp) && inp.reading.StatusUnreadable?
    ensures BelievesOn(d, TickMends(cfg, d, now, inp), Tick(cfg, d, now, inp))
  {
    PollAs(cfg, d, now, inp);
    PolledAs(cfg, d, now, inp);
    FailureBelieves(PollButton(cfg, d, now, inp.poll), now, inp.reading.text);
  }

  lemma FailureBelieves(d: Daemon, now: int, text: string)
    requires d.sessionReady && !IsPairingConsole(d)
    ensures BelievesOn(d, |MoreFailures(d.failures, now)| >= FAILURE_LIMIT, RecordFailure(d, now, text))
  {
    var t := d.(failures := MoreFailures(d.failures, now),
                report := d.report.(lastError := Some(Reported(text))),
                history := After(d.history, FailureRecorded(now, text)));
    DegradedStops(t, Reported(text));
  }

  lemma {:induction false} StandByGivesUp(cfg: AppConfig, s: Daemon, display: seq<DaemonMessage>)
    requires s.console.running && Orders(display) == []
    ensures StandBy(cfg, s).daemon.console == NO_CONSOLE && Stops(Orders(StandBy(cfg, s).messages + display))
  {
    StopsAre(StandBy(cfg, s).messages);
    OrdersConcat(StandBy(cfg, s).messages, display);
    assert Orders(StandBy(cfg, s).messages) + [] == Orders(StandBy(cfg, s).messages);
  }

  lemma {:induction false} ServeBelieves(
    cfg: AppConfig, s: Daemon, now: int, v: VmStatus, inp: TickInput, display: seq<DaemonMessage>)
    requires s.console.running && s.sessionReady && !IsPairingConsole(s) && Orders(display) == []
    ensures BelievesOn(s, IsOff(v), Serve(cfg, s, now, v, inp, display))
  {
    if IsOff(v) {
      StandByGivesUp(cfg, s, display);
    } else if IsOn(v) {
      assert display + [] == display;
    }
  }

  lemma LookingTickBelieves(cfg: AppConfig, d: Daemon, now: int, inp: TickInput)
    requires Believing(cfg, d) && !PollBlocks(cfg, d, now, inp) && inp.reading.StatusIs?
    ensures BelievesOn(d, TickMends(cfg, d, now, inp), Tick(cfg, d, now, inp))
  {
    PollAs(cfg, d, now, inp);
    TickServes(cfg, d, now, inp);
    BeforeServeKeeps(cfg, d, now, inp);
    var b := BeforeServe(cfg, d, now, inp);
    assert Orders(b.messages) == [];
    ServeBelieves(cfg, b.daemon, now, inp.reading.status, inp, b.messages);
  }

  lemma TickBelieves(cfg: AppConfig, d: Daemon, now: int, inp: TickInput)
    requires Believing(cfg, d)
    ensures BelievesOn(d, TickMends(cfg, d, now, inp), Tick(cfg, d, now, inp))
  {
    if PollBlocks(cfg, d, now, inp) {
      BlockedTickBelieves(cfg, d, now, inp);
    } else if inp.reading.StatusUnreadable? {
      UnreadableTickBelieves(cfg, d, now, inp);
    } else {
      LookingTickBelieves(cfg, d, now, inp);
    }
  }

  // ------------------------------------------------------------------ an exchange that starts apart

  /** What follows from the way an exchange opens. */
  predicate OpensAs(mends: bool, z: System) {
    if mends then SystemSettling(z) else Adrift(z) || (Quiescent(z) && Apart(z))
  }

  lemma BereftTickOpens(cfg: AppConfig, y: System, now: int, inp: TickInput)
    requires SystemInv(cfg, y) && Bereft(y)
    ensures OpensAs(TickMends(cfg, y.d, now, inp), OpenTick(cfg, y, now, inp))
  {
    TickBelieves(cfg, y.d, now, inp);
    var o := Tick(cfg, y.d, now, inp);
    assert y.toSession + o.messages == o.messages;
  }

  /** A blocked daemon says nothing, and presses do not unblock it. */
  lemma BlockedTickIsSilent(cfg: AppConfig, d: Daemon, now: int, inp: TickInput)
    requires IsBlocked(d.mode) && d.console == NO_CONSOLE
    ensures
      var o := Tick(cfg, d, now, inp);
      o.messages == [] && o.daemon.console == NO_CONSOLE && IsBlocked(o.daemon.mode)
  {
    PollAs(cfg, d, now, inp);
  }

  lemma OrphanTickOpens(cfg: AppConfig, y: System, now: int, inp: TickInput)
    requires y.connected && Orphaned(y) && IsBlocked(y.d.mode)
    ensures Apart(OpenTick(cfg, y, now, inp)) && Tick(cfg, y.d, now, inp).messages == []
  {
    BlockedTickIsSilent(cfg, y.d, now, inp);
  }

  lemma UnsentTickOpens(cfg: AppConfig, y: System, now: int, inp: TickInput)
    requires SystemInv(cfg, y) && Apart(y)
    ensures OpensAs(Mends(cfg, y, TickUnsent(now, inp)), Open(cfg, y, TickUnsent(now, inp)))
  {
    var o := Tick(cfg, y.d, now, inp);
    if o.messages != [] {
      UnconnectedSettles(y, OnDisconnect(o.daemon));
    } else if Bereft(y) {
      BereftTickOpens(cfg, y, now, inp);
    } else {
      OrphanTickOpens(cfg, y, now, inp);
    }
  }

  lemma ExitIsNews(cfg: AppConfig, s: Session, status: int)
    requires SessionAccount.SessionInv(s) && s.child.Some?
    ensures
      var o := PollConsole(cfg, s, Some(status));
      && |o.messages| == 1 && o.messages[0].ConsoleExited?
      && RecordOf(o.session) == NO_CONSOLE && News(o.messages) == o.messages
  {
  }

  lemma ExitOpens(cfg: AppConfig, y: System, status: int)
    requires SystemInv(cfg, y) && Apart(y)
    ensures OpensAs(y.s.child.Some?, Open(cfg, y, ChildExits(status)))
  {
    var o := PollConsole(cfg, y.s, Some(status));
    assert y.toDaemon + o.messages == o.messages;
    if y.s.child.Some? {
      ExitIsNews(cfg, y.s, status);
    }
  }

  lemma ApartOpens(cfg: AppConfig, y: System, cause: Cause)
    requires SystemInv(cfg, y) && Apart(y)
    ensures OpensAs(Mends(cfg, y, cause), Open(cfg, y, cause))
  {
    match cause
    case Ticks(now, inp) =>
      if Bereft(y) {
        BereftTickOpens(cfg, y, now, inp);
      } else {
        OrphanTickOpens(cfg, y, now, inp);
      }
    case TickUnsent(now, inp) => UnsentTickOpens(cfg, y, now, inp);
    case ChildExits(status) => ExitOpens(cfg, y, status);
    case Drops(_, _) => UnconnectedSettles(y, OnDisconnect(y.d));
    case Restarts(_, _) =>
    case Connects =>
    case ReplyUnsent(_, _) =>
  }

  lemma TurnKeepsAdrift(cfg: AppConfig, y: System, turn: Turn)
    requires Adrift(y)
    ensures Adrift(TakeTurn(cfg, y, turn))
  {
    match turn
    case SessionTurn(e) =>
      if y.toSession != [] {
        SessionTurnSettles(cfg, y, e);
      }
    case DaemonTurn(now, reading) =>
      if y.toDaemon != [] {
        DaemonTurnSettles(cfg, y, now, reading);
        assert y.toDaemon[0].DisplayPowerApplied?;
      }
  }

  lemma {:induction false} TurnsKeepAdrift(cfg: AppConfig, y: System, turns: seq<Turn>)
    requires Adrift(y)
    ensures Adrift(TakeTurns(cfg, y, turns))
  {
    if turns != [] {
      TurnsKeepAdrift(cfg, y, turns[..|turns| - 1]);
      TurnKeepsAdrift(cfg, TakeTurns(cfg, y, turns[..|turns| - 1]), turns[|turns| - 1]);
    }
  }

  /** However an exchange has opened, running to the end brings the records together or leaves them apart. */
  lemma {:induction false} OpenedEnds(cfg: AppConfig, z: System, mends: bool, turns: seq<Turn>)
    requires OpensAs(mends, z) && Quiescent(TakeTurns(cfg, z, turns))
    ensures if mends then Agree(TakeTurns(cfg, z, turns)) else Apart(TakeTurns(cfg, z, turns))
  {
    if mends {
      TurnsSettle(cfg, z, turns);
    } else if Adrift(z) {
      TurnsKeepAdrift(cfg, z, turns);
      AdriftAtRest(TakeTurns(cfg, z, turns));
    } else {
      NothingToTake(cfg, z, turns);
    }
  }

  /** From where the records are apart, an exchange that runs to the end brings them together exactly with such a cause. */
  lemma MendsExactly(cfg: AppConfig, y: System, x: Exchange)
    requires SystemInv(cfg, y) && Apart(y) && Quiescent(Perform(cfg, y, x))
    ensures Agree(Perform(cfg, y, x)) <==> Mends(cfg, y, x.cause)
    ensures !Mends(cfg, y, x.cause) ==> Apart(Perform(cfg, y, x))
  {
    ApartOpens(cfg, y, x.cause);
    OpenedEnds(cfg, Open(cfg, y, x.cause), Mends(cfg, y, x.cause), x.turns);
    if !Mends(cfg, y, x.cause) {
      ApartDisagrees(Perform(cfg, y, x));
    }
  }

  // ------------------------------------------------------------------ how they come apart

  lemma LostHostForgetsPairing(cfg: AppConfig, d: Daemon, now: int, inp: TickInput)
    requires Inv(cfg, d) && d.console.running && PairingHostLost(cfg, d, now, inp)
    ensures
      var t := Tick(cfg, d, now, inp).daemon;
      t.sessionReady && !IsPairingConsole(t)
  {
    PollAs(cfg, d, now, inp);
    TickServes(cfg, d, now, inp);
    BeforeServeKeeps(cfg, d, now, inp);
  }

  lemma LostHostOpens(cfg: AppConfig, y: System, now: int, inp: TickInput)
    requires SystemInv(cfg, y) && Quiescent(y) && Agree(y) && Possible(cfg, inp.preparation)
    requires y.d.console.running && PairingHostLost(cfg, y.d, now, inp)
    ensures Adrift(Open(cfg, y, Ticks(now, inp)))
  {
    TickTells(cfg, y.d, now, inp);
    PollAs(cfg, y.d, now, inp);
    LostHostForgetsPairing(cfg, y.d, now, inp);
    var o := Tick(cfg, y.d, now, inp);
    assert y.toSession + o.messages == o.messages;
  }

  lemma PressedOpens(cfg: AppConfig, y: System, now: int, inp: TickInput)
    requires SystemInv(cfg, y) && Quiescent(y) && Agree(y)
    requires y.d.console.running && PressDegrades(cfg, y.d, now, inp)
    ensures Tick(cfg, y.d, now, inp).messages == [] && Apart(OpenTick(cfg, y, now, inp))
  {
    PollAs(cfg, y.d, now, inp);
  }

  /** A blind tick leads from agreement to one of the two ways of being apart. */
  lemma BlindOpens(cfg: AppConfig, y: System, cause: Cause)
    requires SystemInv(cfg, y) && Quiescent(y) && Agree(y) && PossibleCause(cfg, cause) && IsBlind(cfg, y, cause)
    ensures OpensAs(false, Open(cfg, y, cause))
  {
    if PressDegrades(cfg, y.d, cause.now, cause.inp) {
      PressedOpens(cfg, y, cause.now, cause.inp);
    } else {
      LostHostOpens(cfg, y, cause.now, cause.inp);
    }
  }

  // ------------------------------------------------------------------ runs

  /** The records have not come apart in the run, or have come together again. */
  predicate InStep(cfg: AppConfig, l: Launching, exchanges: seq<Exchange>) {
    exchanges == [] ||
      var before, cause := exchanges[..|exchanges| - 1], exchanges[|exchanges| - 1].cause;
      var y := RunSystem(cfg, l, before);
      if InStep(cfg, l, before) then !IsBlind(cfg, y, cause) else Mends(cfg, y, cause)
  }

  lemma NextAgrees(cfg: AppConfig, y: System, x: Exchange)
    requires SystemInv(cfg, y) && Quiescent(y) && Agree(y) && PossibleCause(cfg, x.cause)
    requires Quiescent(Perform(cfg, y, x))
    ensures if IsBlind(cfg, y, x.cause) then Apart(Perform(cfg, y, x)) else Agree(Perform(cfg, y, x))
  {
    AgreementExactly(cfg, y, x);
    if IsBlind(cfg, y, x.cause) {
      BlindOpens(cfg, y, x.cause);
      OpenedEnds(cfg, Open(cfg, y, x.cause), false, x.turns);
    }
  }

  /** After every run of atomic exchanges the records agree or are apart in one of the two ways, and which is known. */
  lemma {:induction false} RecordsExactly(cfg: AppConfig, l: Launching, exchanges: seq<Exchange>)
    requires Atomic(cfg, l, exchanges)
    ensures Agree(RunSystem(cfg, l, exchanges)) <==> InStep(cfg, l, exchanges)
    ensures !InStep(cfg, l, exchanges) ==> Apart(RunSystem(cfg, l, exchanges))
  {
    if exchanges != [] {
      var before, x := exchanges[..|exchanges| - 1], exchanges[|exchanges| - 1];
      RecordsExactly(cfg, l, before);
      SystemKeepsInv(cfg, l, before);
      AtomicRunsRest(cfg, l, before);
      var y := RunSystem(cfg, l, before);
      if InStep(cfg, l, before) {
        NextAgrees(cfg, y, x);
        if IsBlind(cfg, y, x.cause) {
          ApartDisagrees(Perform(cfg, y, x));
        }
      } else {
        MendsExactly(cfg, y, x);
      }
    }
  }

  // ------------------------------------------------------------------ no launch

  lemma {:induction false} NothingLeft(messages: seq<DaemonMessage>)
    requires messages != [] && LaunchSafety.Connects(messages) == []
    ensures LaunchSafety.Connects(messages[1..]) == []
  {
    assert messages == [messages[0]] + messages[1..];
    ConnectsConcat([messages[0]], messages[1..]);
  }

  lemma TurnNeverConnects(cfg: AppConfig, y: System, turn: Turn)
    requires LaunchSafety.Connects(y.toSession) == []
    ensures LaunchSafety.Connects(TakeTurn(cfg, y, turn).toSession) == []
  {
    match turn
    case SessionTurn(e) =>
      if y.toSession != [] {
        NothingLeft(y.toSession);
      }
    case DaemonTurn(now, reading) =>
      if y.toDaemon != [] {
        MessagesNeverConnect(cfg, y.d, y.toDaemon[0], now, reading);
        ConnectsConcat(y.toSession, HandleMessage(cfg, y.d, y.toDaemon[0], now, reading).messages);
      }
  }

  lemma {:induction false} TurnsNeverConnect(cfg: AppConfig, y: System, turns: seq<Turn>)
    requires LaunchSafety.Connects(y.toSession) == []
    ensures LaunchSafety.Connects(TakeTurns(cfg, y, turns).toSession) == []
  {
    if turns != [] {
      TurnsNeverConnect(cfg, y, turns[..|turns| - 1]);
      TurnNeverConnects(cfg, TakeTurns(cfg, y, turns[..|turns| - 1]), turns[|turns| - 1]);
    }
  }

  lemma ApartTickNeverConnects(cfg: AppConfig, y: System, now: int, inp: TickInput)
    requires SystemInv(cfg, y) && Apart(y)
    ensures LaunchSafety.Connects(Tick(cfg, y.d, now, inp).messages) == []
  {
    LaunchesAreSafe(cfg, y.d, now, inp);
    PollLeavesSession(cfg, y.d, now, inp.poll);
  }

  lemma OpenNeverConnects(cfg: AppConfig, y: System, cause: Cause)
    requires SystemInv(cfg, y) && Apart(y)
    ensures LaunchSafety.Connects(Open(cfg, y, cause).toSession) == []
  {
    if cause.Ticks? || cause.TickUnsent? {
      var o := Tick(cfg, y.d, cause.now, cause.inp);
      ApartTickNeverConnects(cfg, y, cause.now, cause.inp);
      assert y.toSession + o.messages == o.messages;
    }
  }

  /** While the records are apart, no exchange puts a launch request on its way, at no point of its turns. */
  lemma NoLaunchWhileApart(cfg: AppConfig, y: System, x: Exchange)
    requires SystemInv(cfg, y) && Apart(y)
    ensures LaunchSafety.Connects(Perform(cfg, y, x).toSession) == []
  {
    OpenNeverConnects(cfg, y, x.cause);
    TurnsNeverConnect(cfg, Open(cfg, y, x.cause), x.turns);
  }

  /** Over every run: from where the records have come apart until they agree again, the session is asked for no viewer. */
  lemma {:induction false} NoLaunchOutOfStep(cfg: AppConfig, l: Launching, exchanges: seq<Exchange>, x: Exchange)
    requires Atomic(cfg, l, exchanges) && !InStep(cfg, l, exchanges)
    ensures LaunchSafety.Connects(RunSystem(cfg, l, exchanges + [x]).toSession) == []
  {
    assert (exchanges + [x])[..|exchanges|] == exchanges;
    RecordsExactly(cfg, l, exchanges);
    SystemKeepsInv(cfg, l, exchanges);
    NoLaunchWhileApart(cfg, RunSystem(cfg, l, exchanges), x);
  }
}
