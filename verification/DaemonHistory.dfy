/** The daemon's state is what its history says, and every event of the history was lawful when it happened. */
module DaemonHistory {
  import opened Wrappers
  import opened Config
  import opened Messages
  import opened History
  import opened DaemonSpec

  // ------------------------------------------------------------------ the state as a summary of the history

  predicate Hist(cfg: AppConfig, s: Daemon) {
    && FailureHist(s.failures, s.history)
    && BackoffHist(cfg, s.reconnect, s.history)
    && ButtonHist(s.button, s.history)
    && PairHist(s.pairing, s.history)
    && GuestHist(s.guest, s.history)
    && DisplayHist(s.display, s.startedAt, s.history)
  }

  predicate FailureHist(failures: seq<int>, h: History) {
    failures == FailureWindow(h)
  }

  predicate BackoffHist(cfg: AppConfig, r: Reconnect, h: History) {
    && r.delayMs == BackoffMs(cfg.policy, WaitsSinceReset(h))
    && (r.nextAt.Some? ==> r.nextAt == LatestDeadline(h))
  }

  predicate ButtonHist(b: Button, h: History) {
    && b.lastAcceptedAt == LastCommandAt(h)
    && (b.inFlight ==> b.startedAt.Some? && b.lastAction.Some?)
    && InFlight(h) == (if b.inFlight && b.startedAt.Some? && b.lastAction.Some?
                       then Some((b.startedAt.value, b.lastAction.value)) else None)
  }

  predicate PairHist(p: Pairing, h: History) {
    && (p.pin.Some? ==> p.requestedAt.Some?)
    && OpenPair(h) == (if p.pin.Some? && p.requestedAt.Some? then Some((p.requestedAt.value, p.pin.value)) else None)
    && PairUninterrupted(h) == p.launchPending
  }

  predicate GuestHist(g: Guest, h: History) {
    && g.sinceAt == SteadySince(h)
    && LastStatus(h) == (if g.sinceAt.Some? then Some(g.power) else None)
    && (g.sinceAt.None? ==> g.power == OtherStatus("unknown"))
  }

  predicate DisplayHist(d: Display, startedAt: Option<int>, h: History) {
    d.policyPending == !DisplaySettled(h) && startedAt == StartTime(h)
  }

  // ------------------------------------------------------------------ lawful events

  /** When the guest has been off long enough for the display to go off. */
  predicate OffDue(cfg: AppConfig, h: History, now: int) {
    && SteadySince(h).Some?
    && SteadySince(h).value + cfg.policy.dpmsOffDelayMs * 1000 <= now
    && (!DisplaySettled(h) ==>
          && StartTime(h).Some?
          && StartTime(h).value + (cfg.policy.powerStateStabilizeMs + cfg.policy.dpmsOffDelayMs) * 1000 <= now)
  }

  predicate StartInFlight(h: History) {
    InFlight(h).Some? && InFlight(h).value.1 == StartVm
  }

  predicate LawfulCommand(cfg: AppConfig, past: History, at: int, action: Action) {
    && InFlight(past).None?
    && (LastCommandAt(past).Some? ==> at - LastCommandAt(past).value >= cfg.debounceMs * 1000)
    && LastStatus(past).Some?
    && (action == StartVm <==> ButtonStarts(LastStatus(past).value))
    && (action == ShutdownVm <==> ButtonStops(LastStatus(past).value))
  }

  predicate LawfulDecision(cfg: AppConfig, past: History, at: int, power: Power) {
    && LastStatus(past).Some?
    && !StartInFlight(past)
    && (power == On ==> IsOn(LastStatus(past).value))
    && (power == Off ==> IsOff(LastStatus(past).value) && OffDue(cfg, past, at))
  }

  /** The event is one that the rules allow after `past`. */
  predicate LawfulEvent(cfg: AppConfig, past: History, e: Event) {
    match e
    case ReconnectScheduled(_, delay) => delay == BackoffMs(cfg.policy, WaitsSinceReset(past))
    case CommandIssued(at, action, _) => LawfulCommand(cfg, past, at, action)
    case PairLaunched(at, _) =>
      PairUninterrupted(past) ==> OpenPair(past).Some? && at - OpenPair(past).value.0 >= PAIR_TIMEOUT
    case DisplayDecided(at, power) => LawfulDecision(cfg, past, at, power)
    case _ => true
  }

  predicate Lawful(cfg: AppConfig, h: History) {
    match h
    case Begin => true
    case After(past, e) => Lawful(cfg, past) && LawfulEvent(cfg, past, e)
  }

  /** The times in the history do not go back. */
  predicate Ordered(h: History) {
    match h
    case Begin => true
    case After(past, e) => Ordered(past) && (TimeOf(e).Some? ==> NotAfter(past, TimeOf(e).value))
  }

  /** All of it, at a time that is not before anything in the history. */
  predicate Chronicle(cfg: AppConfig, s: Daemon, now: int) {
    Hist(cfg, s) && Lawful(cfg, s.history) && Ordered(s.history) && NotAfter(s.history, now)
  }

  /** The part of the daemon that the history accounts for is the same. */
  predicate SameRecord(s: Daemon, t: Daemon) {
    && s.failures == t.failures && s.reconnect == t.reconnect && s.button == t.button && s.pairing == t.pairing
    && s.guest == t.guest && s.startedAt == t.startedAt && s.history == t.history
    && s.display.policyPending == t.display.policyPending
  }

  lemma SameRecordChronicle(cfg: AppConfig, s: Daemon, t: Daemon, now: int)
    requires Chronicle(cfg, s, now) && SameRecord(s, t)
    ensures Chronicle(cfg, t, now)
  {
  }

  // ------------------------------------------------------------------ the failure window

  /** Pruning for an earlier time first makes no difference. */
  lemma {:induction false} RecentTwice(times: seq<int>, earlier: int, now: int)
    requires earlier <= now
    ensures Recent(Recent(times, earlier), now) == Recent(times, now)
  {
    if times != [] {
      var t, before := times[|times| - 1], times[..|times| - 1];
      RecentTwice(before, earlier, now);
      if earlier - t <= FAILURE_WINDOW {
        assert Recent(times, earlier)[..|Recent(before, earlier)|] == Recent(before, earlier);
      } else {
        assert Recent(times, earlier) == Recent(before, earlier);
      }
    }
  }

  lemma {:induction false} RecentLast(times: seq<int>, now: int)
    ensures Recent(times + [now], now) == Recent(times, now) + [now]
  {
    assert (times + [now])[..|times|] == times;
  }

  lemma {:induction false} FailuresNotAfter(h: History, now: int)
    requires NotAfter(h, now)
    ensures forall t | t in FailuresSinceClear(h) :: t <= now
  {
    if h.After? {
      FailuresNotAfter(h.past, now);
    }
  }

  /** The pruned list stays the window of the history. */
  lemma {:induction false} WindowGrows(h: History, now: int, text: string)
    requires NotAfter(h, now)
    ensures MoreFailures(FailureWindow(h), now) == FailureWindow(After(h, FailureRecorded(now, text)))
  {
    var times := FailuresSinceClear(h);
    FailuresNotAfter(h, now);
    RecentLast(times, now);
    if times != [] {
      var latest := times[|times| - 1];
      assert latest in times;
      RecentTwice(times, latest, now);
    }
  }

  // ------------------------------------------------------------------ backoff

  lemma BackoffDoubles(p: Policy, k: nat)
    requires 0 < p.reconnectInitialMs <= p.reconnectMaxMs
    ensures
      var d := BackoffMs(p, k);
      BackoffMs(p, k + 1) == if d * 2 <= p.reconnectMaxMs then d * 2 else p.reconnectMaxMs
    ensures p.reconnectInitialMs <= BackoffMs(p, k) <= p.reconnectMaxMs
  {
    Doubled(p.reconnectInitialMs, k);
  }

  lemma Doubled(x: int, k: nat)
    requires 0 < x
    ensures x * Pow2(k + 1) == 2 * (x * Pow2(k)) && x * Pow2(k) >= x
  {
    var n := Pow2(k);
    assert Pow2(k + 1) == 2 * n;
    assert x * (2 * n) == 2 * (x * n);
  }

  // ------------------------------------------------------------------ the small steps

  lemma FailureLogged(cfg: AppConfig, s: Daemon, now: int, text: string, failures: seq<int>)
    requires Chronicle(cfg, s, now) && FailureHist(failures, After(s.history, FailureRecorded(now, text)))
    ensures Chronicle(cfg, s.(failures := failures, history := After(s.history, FailureRecorded(now, text))), now)
  {
  }

  lemma FailureChronicle(cfg: AppConfig, s: Daemon, now: int, text: string)
    requires Chronicle(cfg, s, now)
    ensures Chronicle(cfg, RecordFailure(s, now, text).daemon, now)
  {
    var t := s.(failures := MoreFailures(s.failures, now), history := After(s.history, FailureRecorded(now, text)));
    assert Chronicle(cfg, t, now) by {
      WindowGrows(s.history, now, text);
      FailureLogged(cfg, s, now, text, t.failures);
    }
    SameRecordChronicle(cfg, t, RecordFailure(s, now, text).daemon, now);
  }

  lemma StatusChronicle(cfg: AppConfig, s: Daemon, now: int, reading: StatusReading)
    requires Chronicle(cfg, s, now)
    ensures Chronicle(cfg, RefreshStatus(s, now, reading).daemon, now)
  {
    if reading.StatusUnreadable? {
      FailureChronicle(cfg, s, now, reading.text);
    }
  }

  lemma ActionChronicle(cfg: AppConfig, s: Daemon, now: int, v: VmStatus)
    requires Chronicle(cfg, s, now)
    ensures Chronicle(cfg, RefreshAction(cfg, s, now, v), now)
  {
  }

  lemma ScheduleChronicle(cfg: AppConfig, s: Daemon, now: int)
    requires Chronicle(cfg, s, now) && PolicyParsed(cfg.policy)
    ensures Chronicle(cfg, ScheduleReconnect(cfg, s, now), now)
  {
    BackoffDoubles(cfg.policy, WaitsSinceReset(s.history));
  }

  lemma ResetChronicle(cfg: AppConfig, s: Daemon, now: int)
    requires Chronicle(cfg, s, now) && PolicyParsed(cfg.policy)
    ensures Chronicle(cfg, ResetBackoff(cfg, s), now)
  {
  }

  lemma EndPairingChronicle(cfg: AppConfig, s: Daemon, now: int, to: PairState)
    requires Chronicle(cfg, s, now)
    ensures Chronicle(cfg, EndPairing(s, to), now)
  {
  }

  lemma CommandChronicle(cfg: AppConfig, s: Daemon, now: int, action: Action, failure: Option<string>)
    requires Chronicle(cfg, s, now) && LawfulCommand(cfg, s.history, now, action)
    ensures Chronicle(cfg, IssueCommand(s, now, action, failure), now)
  {
  }

  lemma PressChronicle(cfg: AppConfig, s: Daemon, now: int, v: VmStatus, failure: Option<string>)
    requires Chronicle(cfg, s, now) && 0 <= cfg.debounceMs && LastStatus(s.history) == Some(v)
    ensures Chronicle(cfg, ActOnPress(cfg, s, now, v, failure), now)
  {
    if !s.button.inFlight && !WithinDebounce(cfg, s.button, now) {
      LastCommandNotAfter(s.history, now);
      if ButtonStarts(v) {
        CommandChronicle(cfg, s, now, StartVm, failure);
      } else if ButtonStops(v) {
        CommandChronicle(cfg, s, now, ShutdownVm, failure);
      }
    }
  }

  lemma {:induction false} LastCommandNotAfter(h: History, now: int)
    requires NotAfter(h, now)
    ensures LastCommandAt(h).Some? ==> LastCommandAt(h).value <= now
  {
    if h.After? && !h.last.CommandIssued? {
      LastCommandNotAfter(h.past, now);
    }
  }
}
