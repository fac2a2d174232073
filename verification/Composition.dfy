/** The daemon and the session together: two queues between them, and exchanges that run until both are empty. */
module Composition {
  import opened Wrappers
  import opened Config
  import opened Messages
  import opened History
  import opened DaemonSpec
  import opened DaemonInvariant
  import opened SessionSpec

  datatype System = System(
    d: Daemon, s: Session, connected: bool, toSession: seq<DaemonMessage>, toDaemon: seq<SessionMessage>)

  predicate Quiescent(y: System) {
    y.toSession == [] && y.toDaemon == []
  }

  /** One side takes the next message meant for it; the rest is what the outside does meanwhile. */
  datatype Turn = SessionTurn(effects: Effects) | DaemonTurn(now: int, reading: StatusReading)

  function TakeTurn(cfg: AppConfig, y: System, turn: Turn): System {
    match turn
    case SessionTurn(effects) =>
      if y.toSession == [] then y
      else
        var o := HandleDaemonMessage(cfg, y.s, y.toSession[0], effects);
        y.(s := o.session, toSession := y.toSession[1..], toDaemon := y.toDaemon + o.messages)
    case DaemonTurn(now, reading) =>
      if y.toDaemon == [] then y
      else
        var o := HandleMessage(cfg, y.d, y.toDaemon[0], now, reading);
        y.(d := o.daemon, toDaemon := y.toDaemon[1..], toSession := y.toSession + o.messages)
  }

  function TakeTurns(cfg: AppConfig, y: System, turns: seq<Turn>): System {
    if turns == [] then y
    else TakeTurn(cfg, TakeTurns(cfg, y, turns[..|turns| - 1]), turns[|turns| - 1])
  }

  /** The daemon answers the message, if it is one of these. */
  predicate HasReply(m: SessionMessage) {
    m.SessionReady? || m.ConsoleExited? || m.SessionError?
  }

  predicate AnyReply(messages: seq<SessionMessage>) {
    exists i | 0 <= i < |messages| :: HasReply(messages[i])
  }

  /** The daemon takes messages that no one waits for an answer to: the first answer that cannot be sent ends it. */
  function TakeUnanswered(cfg: AppConfig, d: Daemon, messages: seq<SessionMessage>, now: int, reading: StatusReading): Daemon
    decreases |messages|
  {
    if messages == [] then d
    else
      var o := HandleMessage(cfg, d, messages[0], now, reading);
      if o.messages == [] then TakeUnanswered(cfg, o.daemon, messages[1..], now, reading) else OnDisconnect(o.daemon)
  }

  /** The connection is gone: the session stops its viewer, and what was on its way is no longer. */
  function Unconnected(y: System, d: Daemon): System {
    System(d, StopConsole(y.s), false, [], [])
  }

  /**
    * What starts an exchange. The daemon notices the loss of the connection when it reads (`Drops`), and then still
    * takes what it has read with it; or when an answer (`ReplyUnsent`) or the messages of a tick (`TickUnsent`) cannot
    * be sent. `Restarts` is the session's process ending and another one taking its place.
    */
  datatype Cause =
    | Ticks(now: int, inp: TickInput)
    | ChildExits(status: int)
    | Connects
    | Drops(now: int, reading: StatusReading)
    | ReplyUnsent(now: int, reading: StatusReading)
    | TickUnsent(now: int, inp: TickInput)
    | Restarts(now: int, reading: StatusReading)

  function OpenTick(cfg: AppConfig, y: System, now: int, inp: TickInput): System {
    var o := Tick(cfg, y.d, now, inp);
    if y.connected then y.(d := o.daemon, toSession := y.toSession + o.messages)
    else y.(d := if o.messages == [] then o.daemon else OnDisconnect(o.daemon))
  }

  function Drop(cfg: AppConfig, y: System, now: int, reading: StatusReading): System {
    if !y.connected then y
    else Unconnected(y, TakeUnanswered(cfg, OnDisconnect(y.d), y.toDaemon, now, reading))
  }

  function Open(cfg: AppConfig, y: System, cause: Cause): System {
    match cause
    case Ticks(now, inp) => OpenTick(cfg, y, now, inp)
    case TickUnsent(now, inp) =>
      if y.connected && Tick(cfg, y.d, now, inp).messages != [] then
        Unconnected(y, OnDisconnect(Tick(cfg, y.d, now, inp).daemon))
      else OpenTick(cfg, y, now, inp)
    case ChildExits(status) =>
      if !y.connected then y
      else
        var o := PollConsole(cfg, y.s, Some(status));
        y.(s := o.session, toDaemon := y.toDaemon + o.messages)
    case Connects =>
      if y.connected then y else y.(connected := true, toDaemon := [SessionReady])
    case Drops(now, reading) => Drop(cfg, y, now, reading)
    case ReplyUnsent(now, reading) =>
      if y.connected && AnyReply(y.toDaemon) then
        Unconnected(y, TakeUnanswered(cfg, y.d, y.toDaemon, now, reading))
      else y
    case Restarts(now, reading) => Drop(cfg, y, now, reading).(s := InitialSession())
  }

  /** A cause, and the turns that follow in some order. */
  datatype Exchange = Exchange(cause: Cause, turns: seq<Turn>)

  function Perform(cfg: AppConfig, y: System, x: Exchange): System {
    TakeTurns(cfg, Open(cfg, y, x.cause), x.turns)
  }

  function PowerUp(cfg: AppConfig, l: Launching): System {
    System(Run(cfg, l, []), InitialSession(), false, [], [])
  }

  function RunSystem(cfg: AppConfig, l: Launching, exchanges: seq<Exchange>): System {
    if exchanges == [] then PowerUp(cfg, l)
    else Perform(cfg, RunSystem(cfg, l, exchanges[..|exchanges| - 1]), exchanges[|exchanges| - 1])
  }

  // ------------------------------------------------------------------ agreement

  /** The daemon's record of the console, as the session would keep it. */
  function RecordOf(s: Session): ConsoleRecord {
    ConsoleRecord(s.child.Some?, s.child, s.backend)
  }

  /** Both ends have the same record: whether a console is up, its process and its backend. */
  predicate Agree(y: System) {
    y.d.console == RecordOf(y.s)
  }

  // ------------------------------------------------------------------ what goes wrong

  /** The failures that count after the presses. */
  function WindowAfter(failures: seq<int>, now: int, presses: seq<Press>): seq<int> {
    if presses == [] then failures
    else if presses[|presses| - 1].reading.StatusIs? then []
    else MoreFailures(WindowAfter(failures, now, presses[..|presses| - 1]), now)
  }

  /** One of the presses fills the failure window. */
  predicate PressesTrip(failures: seq<int>, now: int, presses: seq<Press>) {
    if presses == [] then false
    else
      || PressesTrip(failures, now, presses[..|presses| - 1])
      || (presses[|presses| - 1].reading.StatusUnreadable? && |WindowAfter(failures, now, presses)| >= FAILURE_LIMIT)
  }

  /** A press of the power button degrades the daemon, and nobody is told. */
  predicate PressDegrades(cfg: AppConfig, d: Daemon, now: int, inp: TickInput) {
    && cfg.forwardPowerButton && d.mode.startupError.None?
    && inp.poll.Presses? && PressesTrip(d.failures, now, inp.poll.presses)
  }

  /** The daemon is blocked once it has polled the button. */
  predicate PollBlocks(cfg: AppConfig, d: Daemon, now: int, inp: TickInput) {
    || IsBlocked(d.mode)
    || (cfg.forwardPowerButton && (inp.poll.PollFailed? || PressesTrip(d.failures, now, inp.poll.presses)))
  }

  /** The pairing UI is up and the host cannot be reached. */
  predicate PairingHostLost(cfg: AppConfig, d: Daemon, now: int, inp: TickInput) {
    && d.sessionReady && IsPairingConsole(d)
    && !PollBlocks(cfg, d, now, inp)
    && inp.reading.StatusIs? && IsOn(inp.reading.status)
    && (!inp.pairing.reachable || inp.pairing.live.ProbeUnreachable?)
  }

  /** The ticks after which the two ends disagree. */
  predicate Blind(cfg: AppConfig, d: Daemon, now: int, inp: TickInput) {
    d.console.running && (PressDegrades(cfg, d, now, inp) || PairingHostLost(cfg, d, now, inp))
  }

  /** The ways a preparation can fail depend on the backend. */
  predicate Possible(cfg: AppConfig, preparation: Preparation) {
    match cfg.Backend()
    case Spice => preparation.Prepared? || preparation.PreparationCommandFailed?
    case LookingGlass => preparation.Prepared? || preparation.PreparationInvalid?
    case Moonlight => preparation.Prepared? || preparation.PreparationInvalid?
    case _ => true
  }

  predicate PossibleCause(cfg: AppConfig, cause: Cause) {
    cause.Ticks? || cause.TickUnsent? ==> Possible(cfg, cause.inp.preparation)
  }
}
