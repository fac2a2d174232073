/** Every viewer process the session starts is accounted for. */
module SessionAccount {
  import opened Wrappers
  import opened Config
  import opened Messages
  import opened SessionSpec

  /** There is at most one process outstanding, the child; while there is one, nothing suppresses its exit report. */
  predicate SessionInv(s: Session) {
    && Outstanding(s.history) == (if s.child.Some? then multiset{s.child.value} else multiset{})
    && Accounted(s.history)
    && (s.child.Some? <==> s.backend.Some?)
    && (s.child.Some? ==> !s.suppress)
    && (s.child.None? ==> !s.legacy)
    && s.view == Refresh(s.view, s.child.Some?)
  }

  lemma StopConsoleKeeps(s: Session)
    requires SessionInv(s)
    ensures SessionInv(StopConsole(s)) && StopConsole(s).child.None?
    ensures Announced(StopConsole(s).history) == Announced(s.history)
  {
  }

  /** The announcements of starts and exits among the messages. */
  function Announcements(messages: seq<SessionMessage>): seq<SessionMessage> {
    if messages == [] then []
    else
      var m := messages[|messages| - 1];
      Announcements(messages[..|messages| - 1]) + (if m.ConsoleStarted? || m.ConsoleExited? then [m] else [])
  }

  lemma {:induction false} AnnouncementsConcat(a: seq<SessionMessage>, b: seq<SessionMessage>)
    ensures Announcements(a + b) == Announcements(a) + Announcements(b)
  {
    if b == [] {
      assert a + b == a;
    } else {
      var c := b[..|b| - 1];
      assert (a + b)[..|a + b| - 1] == a + c;
      AnnouncementsConcat(a, c);
    }
  }

  /** A step keeps the invariant and announces exactly what has become of the processes. */
  predicate KeepsAccount(s: Session, o: SessionOutcome) {
    SessionInv(o.session) && Announced(o.session.history) == Announced(s.history) + Announcements(o.messages)
  }

  lemma NoNews(s: Session, t: Session, messages: seq<SessionMessage>)
    requires SessionInv(t) && Announced(t.history) == Announced(s.history)
    requires messages == [] || (|messages| == 1 && !messages[0].ConsoleStarted? && !messages[0].ConsoleExited?)
    ensures KeepsAccount(s, SessionOutcome(t, messages))
  {
    assert Announcements(messages) == [];
  }

  lemma News(s: Session, t: Session, m: SessionMessage)
    requires SessionInv(t) && Announced(t.history) == Announced(s.history) + [m]
    requires m.ConsoleStarted? || m.ConsoleExited?
    ensures KeepsAccount(s, SessionOutcome(t, [m]))
  {
    assert Announcements([m]) == [m];
  }

  lemma SpawnKeepsAccount(s: Session, b: Backend, legacy: bool, pid: int)
    requires SessionInv(s) && s.child.None?
    ensures SessionInv(Spawn(s, b, legacy, pid))
    ensures Announced(Spawn(s, b, legacy, pid).history)
         == Announced(s.history) + [ConsoleStarted(pid, if legacy then None else Some(b))]
  {
  }

  /** The waiting reason and the details are for show. */
  lemma RefreshedKeeps(s: Session, reason: WaitReason, details: Option<Details>)
    requires SessionInv(s)
    ensures SessionInv(Refreshed(s.(view := s.view.(waiting := reason, details := details))))
  {
  }

  lemma StartKeepsAccount(s: Session, b: Backend, legacy: bool, pid: int)
    requires SessionInv(s) && s.child.None?
    ensures
      var t := Spawn(s.(view := s.view.(waiting := Connecting, details := None)), b, legacy, pid);
      && SessionInv(t)
      && Announced(t.history) == Announced(s.history) + [ConsoleStarted(pid, if legacy then None else Some(b))]
  {
    RefreshedKeeps(s, Connecting, None);
    var u := Refreshed(s.(view := s.view.(waiting := Connecting, details := None)));
    SpawnKeepsAccount(u, b, legacy, pid);
    assert Spawn(s.(view := s.view.(waiting := Connecting, details := None)), b, legacy, pid) == Spawn(u, b, legacy, pid);
  }

  lemma LaunchKeepsAccount(
    cfg: AppConfig, s: Session, b: Backend, launcher: string, argv: seq<string>, legacy: bool, launch: LaunchResult)
    requires SessionInv(s) && argv != []
    ensures KeepsAccount(s, LaunchConsole(cfg, s, b, launcher, argv, legacy, launch))
  {
    var o := LaunchConsole(cfg, s, b, launcher, argv, legacy, launch);
    if !Permitted(cfg, b, launcher, argv) {
      RefreshedKeeps(s, DegradedWait, s.view.details);
      NoNews(s, o.session, o.messages);
    } else {
      var t := StopConsole(s);
      StopConsoleKeeps(s);
      match launch {
        case LaunchError(text) =>
          RefreshedKeeps(t, DegradedWait, None);
          NoNews(s, o.session, o.messages);
        case Started(pid) =>
          StartKeepsAccount(t, b, legacy, pid);
          News(s, o.session, ConsoleStarted(pid, if legacy then None else Some(b)));
      }
    }
  }

  lemma WaitingKeepsAccount(s: Session, reason: WaitReason, details: Option<Details>)
    requires SessionInv(s)
    ensures KeepsAccount(s, SessionOutcome(ShowWaitingState(s, reason, details), []))
  {
    NoNews(s, ShowWaitingState(s, reason, details), []);
  }

  lemma PollKeepsAccount(cfg: AppConfig, s: Session, exit: Option<int>)
    requires SessionInv(s)
    ensures KeepsAccount(s, PollConsole(cfg, s, exit))
  {
    var o := PollConsole(cfg, s, exit);
    if s.child.None? || exit.None? {
      NoNews(s, o.session, o.messages);
    } else {
      News(s, o.session, ExitMessage(exit.value, s.backend.value, s.legacy));
    }
  }

  lemma PowerKeepsAccount(s: Session, power: Power, helped: bool)
    requires SessionInv(s)
    ensures KeepsAccount(s, ApplyPower(s, power, helped))
  {
    NoNews(s, ApplyPower(s, power, helped).session, ApplyPower(s, power, helped).messages);
  }

  lemma DeliveryKeepsAccount(cfg: AppConfig, s: Session, m: DaemonMessage, e: Effects)
    requires SessionInv(s)
    ensures KeepsAccount(s, HandleDaemonMessage(cfg, s, m, e))
  {
    match m
    case ShowWaiting(reason, details) => WaitingKeepsAccount(s, reason, details);
    case DisconnectConsole(reason) => WaitingKeepsAccount(s, reason, None);
    case ConnectConsole(_, _, _, _) => RequestKeepsAccount(cfg, s, m, e);
    case ConnectSpice(_) => RequestKeepsAccount(cfg, s, m, e);
    case DisplayPower(power, _) => PowerKeepsAccount(s, power, e.helped);
    case HealthPing => NoNews(s, s, []);
  }

  lemma RequestKeepsAccount(cfg: AppConfig, s: Session, m: DaemonMessage, e: Effects)
    requires SessionInv(s) && (m.ConnectConsole? || m.ConnectSpice?)
    ensures KeepsAccount(s, HandleDaemonMessage(cfg, s, m, e))
  {
    match m
    case ConnectConsole(b, launcher, argv, _) =>
      if argv == [] {
        NoNews(s, s, []);
      } else {
        LaunchKeepsAccount(cfg, s, b, launcher, argv, false, e.launch);
      }
    case ConnectSpice(vvPath) =>
      LaunchKeepsAccount(cfg, s, Spice, REMOTE_VIEWER, [REMOTE_VIEWER, "--full-screen", vvPath], true, e.launch);
  }

  lemma StepKeepsAccount(cfg: AppConfig, s: Session, step: SessionStep)
    requires SessionInv(s)
    ensures KeepsAccount(s, TakeSession(cfg, s, step))
  {
    match step
    case Deliver(m, e) => DeliveryKeepsAccount(cfg, s, m, e);
    case Poll(exit) => PollKeepsAccount(cfg, s, exit);
    case LoseConnection =>
      StopConsoleKeeps(s);
      NoNews(s, StopConsole(s), []);
  }

  /**
    * Over every run of the session: apart from the child it holds, every process it started was seen to exit or sent
    * the signal; it tells the daemon of each start once and of each exit it saw once, in order, and of no process it
    * stopped itself; and while it holds a child the report of its exit is not suppressed.
    */
  lemma {:induction false} EveryChildIsAccountedFor(cfg: AppConfig, steps: seq<SessionStep>)
    ensures
      var o := RunSession(cfg, steps);
      SessionInv(o.session) && Announcements(o.messages) == Announced(o.session.history)
  {
    if steps != [] {
      var o := RunSession(cfg, steps[..|steps| - 1]);
      EveryChildIsAccountedFor(cfg, steps[..|steps| - 1]);
      var p := TakeSession(cfg, o.session, steps[|steps| - 1]);
      StepKeepsAccount(cfg, o.session, steps[|steps| - 1]);
      AnnouncementsConcat(o.messages, p.messages);
    }
  }

  /** In every reachable state, the end of a child that the session has not stopped is reported. */
  lemma {:induction false} ExitsAreReported(cfg: AppConfig, steps: seq<SessionStep>, status: int)
    requires RunSession(cfg, steps).session.child.Some?
    ensures
      var s := RunSession(cfg, steps).session;
      PollConsole(cfg, s, Some(status)).messages == [ExitMessage(status, s.backend.GetOr(cfg.Backend()), s.legacy)]
  {
    EveryChildIsAccountedFor(cfg, steps);
  }
}
