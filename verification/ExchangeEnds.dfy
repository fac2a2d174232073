/** Every exchange comes to an end, in whatever order the two sides take their messages. */
module ExchangeEnds {
  import opened Wrappers
  import opened Config
  import opened Messages
  import opened DaemonSpec
  import opened SessionSpec
  import opened Composition

  /** A bound on the messages that a message can still give rise to, itself included. */
  function OrderWeight(m: DaemonMessage): nat {
    match m
    case DisplayPower(_, _) => 2
    case ConnectConsole(_, _, _, _) => 3
    case ConnectSpice(_) => 3
    case _ => 1
  }

  function NewsWeight(m: SessionMessage): nat {
    match m
    case SessionReady => 6
    case ConsoleExited(_, _, _) => 2
    case SessionError(_) => 2
    case _ => 1
  }

  function OrdersWeight(messages: seq<DaemonMessage>): nat {
    if messages == [] then 0 else OrderWeight(messages[0]) + OrdersWeight(messages[1..])
  }

  function AllNewsWeight(messages: seq<SessionMessage>): nat {
    if messages == [] then 0 else NewsWeight(messages[0]) + AllNewsWeight(messages[1..])
  }

  function Weight(y: System): nat {
    OrdersWeight(y.toSession) + AllNewsWeight(y.toDaemon)
  }

  lemma {:induction false} OrdersWeightConcat(a: seq<DaemonMessage>, b: seq<DaemonMessage>)
    ensures OrdersWeight(a + b) == OrdersWeight(a) + OrdersWeight(b)
  {
    if a == [] {
      assert a + b == b;
    } else {
      assert (a + b)[1..] == a[1..] + b;
      OrdersWeightConcat(a[1..], b);
    }
  }

  lemma {:induction false} NewsWeightConcat(a: seq<SessionMessage>, b: seq<SessionMessage>)
    ensures AllNewsWeight(a + b) == AllNewsWeight(a) + AllNewsWeight(b)
  {
    if a == [] {
      assert a + b == b;
    } else {
      assert (a + b)[1..] == a[1..] + b;
      NewsWeightConcat(a[1..], b);
    }
  }

  lemma SessionAnswersLess(cfg: AppConfig, s: Session, m: DaemonMessage, e: Effects)
    ensures AllNewsWeight(HandleDaemonMessage(cfg, s, m, e).messages) < OrderWeight(m)
  {
  }

  /** Without a console to give up, degrading says one thing only. */
  lemma QuietFailure(d: Daemon, now: int, text: string)
    requires d.console == NO_CONSOLE
    ensures RecordFailure(d, now, text).messages == [] || RecordFailure(d, now, text).messages == [ShowWaiting(DegradedWait, None)]
  {
  }

  lemma ReadyAnswersLess(cfg: AppConfig, d: Daemon, now: int, reading: StatusReading)
    ensures OrdersWeight(OnReady(cfg, d, now, reading).messages) < NewsWeight(SessionReady)
  {
    var t := ResetSession(d, true);
    if !IsBlocked(t.mode) {
      var power := [DisplayPower(t.display.intent, cfg.outputName)];
      var r := RefreshStatus(t, now, reading);
      if reading.StatusUnreadable? {
        QuietFailure(t, now, reading.text);
      } else {
        OrdersWeightConcat(power, Greet(cfg, r.daemon).messages);
      }
      OrdersWeightConcat(power, r.messages);
      OrdersWeightConcat(power + r.messages, [ShowWaiting(DegradedWait, None)]);
      OrdersWeightConcat(power + r.messages, [ShowWaiting(VmStopped, None)]);
    }
  }

  lemma DaemonAnswersLess(cfg: AppConfig, d: Daemon, m: SessionMessage, now: int, reading: StatusReading)
    ensures OrdersWeight(HandleMessage(cfg, d, m, now, reading).messages) < NewsWeight(m)
  {
    if m.SessionReady? {
      ReadyAnswersLess(cfg, d, now, reading);
    }
  }

  /** The side whose turn it is has something to take. */
  predicate Effective(y: System, turn: Turn) {
    match turn
    case SessionTurn(_) => y.toSession != []
    case DaemonTurn(_, _) => y.toDaemon != []
  }

  lemma TurnLowers(cfg: AppConfig, y: System, turn: Turn)
    requires Effective(y, turn)
    ensures Weight(TakeTurn(cfg, y, turn)) < Weight(y)
  {
    match turn
    case SessionTurn(e) =>
      var o := HandleDaemonMessage(cfg, y.s, y.toSession[0], e);
      SessionAnswersLess(cfg, y.s, y.toSession[0], e);
      NewsWeightConcat(y.toDaemon, o.messages);
    case DaemonTurn(now, reading) =>
      var o := HandleMessage(cfg, y.d, y.toDaemon[0], now, reading);
      DaemonAnswersLess(cfg, y.d, y.toDaemon[0], now, reading);
      OrdersWeightConcat(y.toSession, o.messages);
  }

  predicate AllEffective(cfg: AppConfig, y: System, turns: seq<Turn>) {
    turns != [] ==>
      var before := turns[..|turns| - 1];
      AllEffective(cfg, y, before) && Effective(TakeTurns(cfg, y, before), turns[|turns| - 1])
  }

  /** No order of turns goes on for longer than the weight of what was on its way. */
  lemma {:induction false} ExchangesAreBounded(cfg: AppConfig, y: System, turns: seq<Turn>)
    requires AllEffective(cfg, y, turns)
    ensures |turns| + Weight(TakeTurns(cfg, y, turns)) <= Weight(y)
  {
    if turns != [] {
      var before := turns[..|turns| - 1];
      ExchangesAreBounded(cfg, y, before);
      TurnLowers(cfg, TakeTurns(cfg, y, before), turns[|turns| - 1]);
    }
  }

  lemma {:induction false} LastTurn(cfg: AppConfig, y: System, turns: seq<Turn>, last: Turn)
    ensures TakeTurns(cfg, y, turns + [last]) == TakeTurn(cfg, TakeTurns(cfg, y, turns), last)
  {
    assert (turns + [last])[..|turns|] == turns;
  }

  lemma {:induction false} OneTurn(cfg: AppConfig, y: System, a: Turn)
    ensures TakeTurns(cfg, y, [a]) == TakeTurn(cfg, y, a)
  {
    LastTurn(cfg, y, [], a);
    assert [] + [a] == [a];
  }

  lemma LastApart(first: Turn, rest: seq<Turn>, before: seq<Turn>, last: Turn)
    requires rest != [] && before == rest[..|rest| - 1] && last == rest[|rest| - 1]
    ensures rest == before + [last] && [first] + rest == [first] + before + [last]
  {
  }

  lemma {:induction false} TurnsGoOn(cfg: AppConfig, y: System, first: Turn, z: System, rest: seq<Turn>)
    requires TakeTurns(cfg, y, [first]) == z
    ensures TakeTurns(cfg, y, [first] + rest) == TakeTurns(cfg, z, rest)
  {
    if rest == [] {
      assert [first] + rest == [first];
    } else {
      var before, last := rest[..|rest| - 1], rest[|rest| - 1];
      TurnsGoOn(cfg, y, first, z, before);
      LastApart(first, rest, before, last);
      LastTurn(cfg, y, [first] + before, last);
      LastTurn(cfg, z, before, last);
    }
  }

  /** Whatever is on its way, both sides can take it all. */
  lemma {:induction false} ExchangesCanEnd(
    cfg: AppConfig, y: System, e: Effects, now: int, reading: StatusReading)
    returns (turns: seq<Turn>)
    ensures Quiescent(TakeTurns(cfg, y, turns)) && |turns| <= Weight(y)
    decreases Weight(y)
  {
    if Quiescent(y) {
      turns := [];
    } else {
      var turn := if y.toSession != [] then SessionTurn(e) else DaemonTurn(now, reading);
      TurnLowers(cfg, y, turn);
      var rest := ExchangesCanEnd(cfg, TakeTurn(cfg, y, turn), e, now, reading);
      OneTurn(cfg, y, turn);
      TurnsGoOn(cfg, y, turn, TakeTurn(cfg, y, turn), rest);
      turns := [turn] + rest;
    }
  }
}
