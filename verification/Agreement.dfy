/** Where the two records of the console agree, and exactly where they come apart. */
module Agreement {
  import opened Wrappers
  import opened Config
  import opened Messages
  import opened History
  import opened DaemonSpec
  import opened SessionSpec
  import opened Composition

  // ------------------------------------------------------------------ the messages that matter

  /** The messages that bear on the console. */
  function Orders(messages: seq<DaemonMessage>): seq<DaemonMessage> {
    if messages == [] then []
    else (if messages[0].DisplayPower? || messages[0].HealthPing? then [] else [messages[0]]) + Orders(messages[1..])
  }

  function News(messages: seq<SessionMessage>): seq<SessionMessage> {
    if messages == [] then []
    else (if messages[0].DisplayPowerApplied? then [] else [messages[0]]) + News(messages[1..])
  }

  lemma {:induction false} OrdersConcat(a: seq<DaemonMessage>, b: seq<DaemonMessage>)
    ensures Orders(a + b) == Orders(a) + Orders(b)
  {
    if a == [] {
      assert a + b == b;
    } else {
      assert (a + b)[1..] == a[1..] + b;
      OrdersConcat(a[1..], b);
    }
  }

  lemma {:induction false} NewsConcat(a: seq<SessionMessage>, b: seq<SessionMessage>)
    ensures News(a + b) == News(a) + News(b)
  {
    if a == [] {
      assert a + b == b;
    } else {
      assert (a + b)[1..] == a[1..] + b;
      NewsConcat(a[1..], b);
    }
  }

  predicate IsStop(m: DaemonMessage) {
    m.ShowWaiting? || m.DisconnectConsole?
  }

  /** At least one order to show the waiting screen, and no other orders. */
  predicate Stops(orders: seq<DaemonMessage>) {
    orders != [] && forall i | 0 <= i < |orders| :: IsStop(orders[i])
  }

  predicate IsLaunch(m: DaemonMessage) {
    m.ConnectConsole? && m.argv != []
  }

  // ------------------------------------------------------------------ on the way to agreement

  /** What is on its way will make the two records agree. */
  predicate Settling(orders: seq<DaemonMessage>, news: seq<SessionMessage>, record: ConsoleRecord, s: Session) {
    if news == [] then
      || (orders == [] && record == RecordOf(s))
      || (Stops(orders) && record == NO_CONSOLE)
      || (|orders| == 1 && IsLaunch(orders[0]))
    else
      orders == [] && |news| == 1 &&
      match news[0]
      case ConsoleStarted(pid, backend) => backend.Some? && s.child == Some(pid) && s.backend == backend
      case SessionError(_) => true
      case ConsoleExited(_, _, _) => RecordOf(s) == NO_CONSOLE
      case SessionReady => RecordOf(s) == NO_CONSOLE
      case DisplayPowerApplied(_) => false
  }

  /** What is on its way stops the viewer while the daemon goes on believing in it. */
  predicate ComingApart(orders: seq<DaemonMessage>, news: seq<SessionMessage>, record: ConsoleRecord, s: Session) {
    && news == [] && record.running
    && (Stops(orders) || (orders == [] && s.child.None?))
  }

  predicate SystemSettling(y: System) {
    Settling(Orders(y.toSession), News(y.toDaemon), y.d.console, y.s)
  }

  predicate SystemComingApart(y: System) {
    ComingApart(Orders(y.toSession), News(y.toDaemon), y.d.console, y.s)
  }

  // ------------------------------------------------------------------ one message

  /** What the session does with a message, as far as the console goes. */
  predicate Obeys(m: DaemonMessage, s: Session, o: SessionOutcome) {
    if IsStop(m) then RecordOf(o.session) == NO_CONSOLE && o.messages == []
    else if IsLaunch(m) then
      |o.messages| == 1 &&
      match o.messages[0]
      case ConsoleStarted(pid, backend) => backend.Some? && o.session.child == Some(pid) && o.session.backend == backend
      case SessionError(_) => true
      case _ => false
    else m.DisplayPower? || m.HealthPing? ==> RecordOf(o.session) == RecordOf(s) && News(o.messages) == []
  }

  lemma SessionObeys(cfg: AppConfig, s: Session, m: DaemonMessage, e: Effects)
    ensures Obeys(m, s, HandleDaemonMessage(cfg, s, m, e))
  {
  }

  /** What the daemon does with a message, as far as the console goes. */
  predicate Believes(m: SessionMessage, d: Daemon, o: Outcome) {
    match m
    case ConsoleStarted(pid, backend) =>
      o.messages == [] && (backend.Some? ==> o.daemon.console == ConsoleRecord(true, Some(pid), backend))
    case DisplayPowerApplied(_) => o.messages == [] && o.daemon.console == d.console
    case _ => Stops(Orders(o.messages)) && o.daemon.console == NO_CONSOLE
  }

  lemma {:induction false} StopsAre(messages: seq<DaemonMessage>)
    requires Stops(messages)
    ensures Orders(messages) == messages
  {
    if |messages| > 1 {
      assert forall i | 0 <= i < |messages[1..]| :: IsStop(messages[1..][i]);
      StopsAre(messages[1..]);
    }
  }

  lemma DegradedStops(d: Daemon, reason: Error)
    ensures Stops(Orders(EnterDegraded(d, reason).messages)) && EnterDegraded(d, reason).daemon.console == NO_CONSOLE
  {
    StopsAre(EnterDegraded(d, reason).messages);
  }

  lemma {:induction false} StopsConcat(a: seq<DaemonMessage>, b: seq<DaemonMessage>)
    requires Orders(a) == [] || Stops(Orders(a))
    requires Stops(Orders(b))
    ensures Stops(Orders(a + b))
  {
    OrdersConcat(a, b);
  }

  lemma FailureStops(d: Daemon, now: int, text: string)
    ensures
      var o := RecordFailure(d, now, text);
      || (o.messages == [] && o.daemon.console == d.console)
      || (Stops(Orders(o.messages)) && o.daemon.console == NO_CONSOLE)
  {
    var failures := MoreFailures(d.failures, now);
    var t := d.(failures := failures,
                report := d.report.(lastError := Some(Reported(text))),
                history := After(d.history, FailureRecorded(now, text)));
    DegradedStops(t, Reported(text));
  }

  /** After the power, what stops a viewer is still all there is. */
  lemma {:induction false} PowerAside(power: Power, output: string, messages: seq<DaemonMessage>)
    requires Stops(Orders(messages))
    ensures Stops(Orders([DisplayPower(power, output)] + messages))
  {
    var first := [DisplayPower(power, output)];
    assert Orders(first) == [];
    StopsConcat(first, messages);
  }

  lemma GreetStops(cfg: AppConfig, d: Daemon)
    ensures Stops(Orders(Greet(cfg, d).messages)) && Greet(cfg, d).daemon.console == d.console
  {
    StopsAre(Greet(cfg, d).messages);
  }

  /** A failure to read the status, and then the screen that says so. */
  lemma UnreadableStops(d: Daemon, now: int, text: string, reason: WaitReason)
    requires d.console == NO_CONSOLE
    ensures
      var o := RecordFailure(d, now, text);
      Stops(Orders(o.messages + [ShowWaiting(reason, None)])) && o.daemon.console == NO_CONSOLE
  {
    FailureStops(d, now, text);
    StopsAre([ShowWaiting(reason, None)]);
    StopsConcat(RecordFailure(d, now, text).messages, [ShowWaiting(reason, None)]);
  }

  lemma ReadyUnreadableStops(cfg: AppConfig, d: Daemon, now: int, text: string)
    requires !IsBlocked(d.mode)
    ensures Believes(SessionReady, d, OnReady(cfg, d, now, StatusUnreadable(text)))
  {
    var t := ResetSession(d, true);
    var o := RecordFailure(t, now, text);
    var reason := if o.daemon.mode.state == Degraded then DegradedWait else VmStopped;
    UnreadableStops(t, now, text, reason);
    PowerAside(t.display.intent, cfg.outputName, o.messages + [ShowWaiting(reason, None)]);
    assert [DisplayPower(t.display.intent, cfg.outputName)] + o.messages + [ShowWaiting(reason, None)]
        == [DisplayPower(t.display.intent, cfg.outputName)] + (o.messages + [ShowWaiting(reason, None)]);
  }

  lemma ReadyStops(cfg: AppConfig, d: Daemon, now: int, reading: StatusReading)
    ensures Believes(SessionReady, d, OnReady(cfg, d, now, reading))
  {
    var t := ResetSession(d, true);
    if IsBlocked(t.mode) {
      StopsAre([ShowWaiting(DegradedWait, None)]);
    } else {
      match reading {
        case StatusIs(_) =>
          var r := RefreshStatus(t, now, reading);
          GreetStops(cfg, r.daemon);
          PowerAside(t.display.intent, cfg.outputName, Greet(cfg, r.daemon).messages);
        case StatusUnreadable(text) => ReadyUnreadableStops(cfg, d, now, text);
      }
    }
  }

  lemma DaemonBelieves(cfg: AppConfig, d: Daemon, m: SessionMessage, now: int, reading: StatusReading)
    ensures Believes(m, d, HandleMessage(cfg, d, m, now, reading))
  {
    match m
    case SessionReady => ReadyStops(cfg, d, now, reading);
    case SessionError(reason) =>
      DegradedStops(d.(console := d.console.(running := false, pid := None)), Reported(reason));
    case _ =>
  }

  // ------------------------------------------------------------------ turns

  lemma OrderSettles(
    orders: seq<DaemonMessage>, news: seq<SessionMessage>, record: ConsoleRecord, s: Session, o: SessionOutcome)
    requires orders != [] && Obeys(orders[0], s, o)
    ensures Settling(orders, news, record, s) ==> Settling(orders[1..], news + News(o.messages), record, o.session)
    ensures ComingApart(orders, news, record, s) ==> ComingApart(orders[1..], news + News(o.messages), record, o.session)
  {
    if Stops(orders) {
      assert IsStop(orders[0]);
      assert forall i | 0 <= i < |orders[1..]| :: IsStop(orders[1..][i]);
    } else if |orders| == 1 && IsLaunch(orders[0]) {
      assert News(o.messages) == o.messages;
    }
  }

  lemma SessionTurnSettles(cfg: AppConfig, y: System, e: Effects)
    requires y.toSession != []
    ensures SystemSettling(y) ==> SystemSettling(TakeTurn(cfg, y, SessionTurn(e)))
    ensures SystemComingApart(y) ==> SystemComingApart(TakeTurn(cfg, y, SessionTurn(e)))
  {
    var m := y.toSession[0];
    var o := HandleDaemonMessage(cfg, y.s, m, e);
    SessionObeys(cfg, y.s, m, e);
    NewsConcat(y.toDaemon, o.messages);
    if m.DisplayPower? || m.HealthPing? {
      assert Orders(y.toSession) == Orders(y.toSession[1..]);
      assert News(y.toDaemon + o.messages) == News(y.toDaemon);
    } else {
      assert Orders(y.toSession) == [m] + Orders(y.toSession[1..]);
      OrderSettles(Orders(y.toSession), News(y.toDaemon), y.d.console, y.s, o);
    }
  }

  lemma DaemonTurnSettles(cfg: AppConfig, y: System, now: int, reading: StatusReading)
    requires y.toDaemon != []
    ensures SystemSettling(y) ==> SystemSettling(TakeTurn(cfg, y, DaemonTurn(now, reading)))
    ensures SystemComingApart(y) ==> SystemComingApart(TakeTurn(cfg, y, DaemonTurn(now, reading)))
  {
    var m := y.toDaemon[0];
    var o := HandleMessage(cfg, y.d, m, now, reading);
    DaemonBelieves(cfg, y.d, m, now, reading);
    OrdersConcat(y.toSession, o.messages);
    assert News(y.toDaemon) == (if m.DisplayPowerApplied? then [] else [m]) + News(y.toDaemon[1..]);
    if !m.DisplayPowerApplied? {
      assert News(y.toDaemon)[0] == m && News(y.toDaemon)[1..] == News(y.toDaemon[1..]);
    }
  }

  lemma {:induction false} TurnsSettle(cfg: AppConfig, y: System, turns: seq<Turn>)
    ensures SystemSettling(y) ==> SystemSettling(TakeTurns(cfg, y, turns))
    ensures SystemComingApart(y) ==> SystemComingApart(TakeTurns(cfg, y, turns))
  {
    if turns != [] {
      var z := TakeTurns(cfg, y, turns[..|turns| - 1]);
      TurnsSettle(cfg, y, turns[..|turns| - 1]);
      match turns[|turns| - 1] {
        case SessionTurn(e) =>
          if z.toSession != [] {
            SessionTurnSettles(cfg, z, e);
          }
        case DaemonTurn(now, reading) =>
          if z.toDaemon != [] {
            DaemonTurnSettles(cfg, z, now, reading);
          }
      }
    }
  }
}
