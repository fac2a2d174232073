/** What the chronicle of a run says about the display, the failures, the power button, pairing and the backoff. */
module DaemonProperties {
  import opened Wrappers
  import opened Config
  import opened Messages
  import opened History
  import opened DaemonSpec
  import opened DaemonInvariant
  import opened DaemonHistory
  import opened DaemonChronicle

  /** The state after a run, with its history. */
  lemma {:induction false} Reached(cfg: AppConfig, l: Launching, steps: seq<Step>, now: int)
    requires Parsed(cfg) && InOrder(l, steps) && Clock(l, steps) <= now
    ensures Chronicle(cfg, Run(cfg, l, steps), now) && Inv(cfg, Run(cfg, l, steps))
  {
    RunHasChronicle(cfg, l, steps);
    RunKeepsInv(cfg, l, steps);
    NotAfterLater(Run(cfg, l, steps).history, Clock(l, steps), now);
  }

  // ------------------------------------------------------------------ the display

  lemma {:induction false} SteadyNotAfter(h: History, now: int)
    requires NotAfter(h, now)
    ensures LastStatus(h).Some? <==> SteadySince(h).Some?
    ensures SteadySince(h).Some? ==> SteadySince(h).value <= now
  {
    if h.After? {
      SteadyNotAfter(h.past, now);
    }
  }

  /** The time kept for the status says since when every read gave it. */
  lemma {:induction false} SteadyMeans(h: History, v: VmStatus, from: int)
    requires Ordered(h)
    ensures SteadyAtLeastSince(h, v, from)
       <==> LastStatus(h) == Some(v) && SteadySince(h).Some? && SteadySince(h).value <= from
  {
    if h.After? {
      SteadyMeans(h.past, v, from);
      if h.last.StatusRead? {
        SteadyNotAfter(h.past, h.last.at);
      }
    }
  }

  /** The guest has been seen off without a break for the delay, no start is under way, and the first decision waits for the start-up to settle. */
  predicate MayTurnOff(cfg: AppConfig, h: History, v: VmStatus, now: int) {
    && IsOff(v)
    && SteadyAtLeastSince(h, v, now - cfg.policy.dpmsOffDelayMs * 1000)
    && !StartInFlight(h)
    && (!DisplaySettled(h) ==>
          && StartTime(h).Some?
          && now >= StartTime(h).value + (cfg.policy.powerStateStabilizeMs + cfg.policy.dpmsOffDelayMs) * 1000)
  }

  lemma {:induction false} OffDueIsEarned(cfg: AppConfig, h: History, v: VmStatus, now: int)
    requires Ordered(h) && LastStatus(h) == Some(v) && IsOff(v)
    ensures MayTurnOff(cfg, h, v, now) <==> !StartInFlight(h) && OffDue(cfg, h, now)
  {
    SteadyMeans(h, v, now - cfg.policy.dpmsOffDelayMs * 1000);
  }

  /** The intent that a tick leaves behind when it reads the status `v`. */
  function IntentAfter(cfg: AppConfig, h: History, v: VmStatus, now: int, intent: Power): Power {
    if StartInFlight(h) || IsOn(v) then On
    else if MayTurnOff(cfg, h, v, now) then Off
    else intent
  }

  lemma UpdatedIntent(cfg: AppConfig, s: Daemon, now: int, v: VmStatus)
    requires Chronicle(cfg, s, now) && LastStatus(s.history) == Some(v)
    ensures UpdateIntent(cfg, s, now).daemon.display.intent == IntentAfter(cfg, s.history, v, now, s.display.intent)
  {
    OffDueMeans(cfg, s, now);
    assert IsStarting(s.button) == StartInFlight(s.history);
    if IsOff(v) {
      OffDueIsEarned(cfg, s.history, v, now);
    }
  }

  /** The display and the power button are as they were. */
  predicate SameControls(s: Daemon, t: Daemon) {
    s.display == t.display && s.button == t.button
  }

  lemma PairingLeavesControls(cfg: AppConfig, s: Daemon, now: int, p: PairProbe)
    ensures SameControls(s, HandlePairing(cfg, s, now, p).daemon)
  {
  }

  lemma LaunchLeavesControls(cfg: AppConfig, s: Daemon, now: int, preparation: Preparation)
    ensures SameControls(s, Launch(cfg, s, now, preparation).daemon)
  {
  }

  lemma ServeLeavesControls(cfg: AppConfig, s: Daemon, now: int, v: VmStatus, inp: TickInput, display: seq<DaemonMessage>)
    ensures SameControls(s, Serve(cfg, s, now, v, inp, display).daemon)
  {
    if IsOn(v) {
      ShowLeavesControls(cfg, s, now, inp);
    }
  }

  lemma WhenDueLeavesControls(cfg: AppConfig, s: Daemon, now: int, inp: TickInput, paired: bool)
    ensures SameControls(s, LaunchWhenDue(cfg, s, now, inp, paired).daemon)
  {
    LaunchLeavesControls(cfg, s, now, inp.preparation);
    PairingLeavesControls(cfg, s, now, inp.pairing);
    LaunchLeavesControls(cfg, HandlePairing(cfg, s, now, inp.pairing).daemon, now, inp.preparation);
  }

  lemma ShowLeavesControls(cfg: AppConfig, s: Daemon, now: int, inp: TickInput)
    ensures SameControls(s, ShowConsole(cfg, s, now, inp).daemon)
  {
    WhenDueLeavesControls(cfg, s, now, inp, false);
    PairingLeavesControls(cfg, s, now, inp.pairing);
    WhenDueLeavesControls(cfg, HandlePairing(cfg, s, now, inp.pairing).daemon, now, inp, true);
  }

  /** The tick reaches its decision about the display. */
  predicate Decides(cfg: AppConfig, s: Daemon, now: int, inp: TickInput) {
    inp.reading.StatusIs? && !IsBlocked(PollButton(cfg, s, now, inp.poll).mode)
  }

  lemma TickIntent(cfg: AppConfig, s: Daemon, now: int, inp: TickInput)
    requires Chronicle(cfg, s, now) && Inv(cfg, s) && Parsed(cfg)
    ensures
      Tick(cfg, s, now, inp).daemon.display.intent ==
      if Decides(cfg, s, now, inp)
      then IntentAfter(cfg, Observed(cfg, s, now, inp.poll, inp.reading.status).history, inp.reading.status, now, s.display.intent)
      else s.display.intent
  {
    PollLeavesDisplay(cfg, s, now, inp.poll);
    if Decides(cfg, s, now, inp) {
      DecidingIntent(cfg, s, now, inp);
    }
  }

  lemma PollLeavesDisplay(cfg: AppConfig, s: Daemon, now: int, poll: ButtonPoll)
    ensures PollButton(cfg, s, now, poll).display == s.display
  {
    if poll.Presses? {
      PressesLeave(cfg, s, now, poll.presses);
    }
  }

  lemma DecidingIntent(cfg: AppConfig, s: Daemon, now: int, inp: TickInput)
    requires Chronicle(cfg, s, now) && Inv(cfg, s) && Parsed(cfg) && Decides(cfg, s, now, inp)
    ensures
      var v := inp.reading.status;
      var o := Observed(cfg, s, now, inp.poll, v);
      Tick(cfg, s, now, inp).daemon.display.intent == IntentAfter(cfg, o.history, v, now, s.display.intent)
  {
    var v := inp.reading.status;
    var o := Observed(cfg, s, now, inp.poll, v);
    PollLeavesDisplay(cfg, s, now, inp.poll);
    ObservedChronicle(cfg, s, now, inp.poll, v);
    assert LastStatus(o.history) == Some(v);
    UpdatedIntent(cfg, o, now, v);
    var u := UpdateIntent(cfg, o, now);
    ServeLeavesControls(cfg, u.daemon, now, v, inp, u.messages);
  }

  /**
    * Over every run, the display intent is what the history asks for at each tick that gets to look, and no other
    * step changes it.
    */
  lemma {:induction false} IntentFollowsHistory(cfg: AppConfig, l: Launching, steps: seq<Step>, step: Step)
    requires Parsed(cfg) && InOrder(l, steps + [step])
    ensures
      var s := Run(cfg, l, steps);
      Run(cfg, l, steps + [step]).display.intent ==
      if step.TickStep? && Decides(cfg, s, step.now, step.inp)
      then IntentAfter(cfg, Observed(cfg, s, step.now, step.inp.poll, step.inp.reading.status).history,
                       step.inp.reading.status, step.now, s.display.intent)
      else s.display.intent
  {
    assert (steps + [step])[..|steps|] == steps;
    var s := Run(cfg, l, steps);
    match step {
      case TickStep(now, inp) =>
        Reached(cfg, l, steps, now);
        TickIntent(cfg, s, now, inp);
      case MessageStep(now, message, reading) => MessageLeavesIntent(cfg, s, message, now, reading);
      case DisconnectStep =>
    }
  }

  lemma MessageLeavesIntent(cfg: AppConfig, s: Daemon, message: SessionMessage, now: int, reading: StatusReading)
    ensures HandleMessage(cfg, s, message, now, reading).daemon.display.intent == s.display.intent
  {
  }

  // ------------------------------------------------------------------ the failure window

  predicate PressesReadable(poll: ButtonPoll) {
    poll.Presses? ==> forall i | 0 <= i < |poll.presses| :: poll.presses[i].reading.StatusIs?
  }

  /** Every read of the status in the step succeeds. */
  predicate Readable(step: Step) {
    match step
    case TickStep(_, inp) => inp.reading.StatusIs? && PressesReadable(inp.poll)
    case MessageStep(_, _, reading) => reading.StatusIs?
    case DisconnectStep => true
  }

  lemma {:induction false} PressesFailOnce(cfg: AppConfig, s: Daemon, now: int, presses: seq<Press>)
    requires |s.failures| <= 1 && PressesReadable(Presses(presses))
    ensures |HandlePresses(cfg, s, now, presses).failures| <= 1
  {
    if presses != [] {
      var before := presses[..|presses| - 1];
      assert forall i | 0 <= i < |before| :: before[i] == presses[i];
      PressesFailOnce(cfg, s, now, before);
      PressFailsOnce(cfg, HandlePresses(cfg, s, now, before), now, presses[|presses| - 1]);
    }
  }

  lemma PressFailsOnce(cfg: AppConfig, s: Daemon, now: int, press: Press)
    requires |s.failures| <= 1 && press.reading.StatusIs?
    ensures |HandlePress(cfg, s, now, press).failures| <= 1
  {
  }

  lemma PollFailsOnce(cfg: AppConfig, s: Daemon, now: int, poll: ButtonPoll)
    requires |s.failures| <= 1 && PressesReadable(poll)
    ensures |PollButton(cfg, s, now, poll).failures| <= 1
  {
    if poll.Presses? {
      PressesFailOnce(cfg, s, now, poll.presses);
    }
  }

  lemma PairingLeavesFailures(cfg: AppConfig, s: Daemon, now: int, p: PairProbe)
    ensures HandlePairing(cfg, s, now, p).daemon.failures == s.failures
  {
  }

  lemma LaunchFailsOnce(cfg: AppConfig, s: Daemon, now: int, inp: TickInput, paired: bool)
    requires s.failures == []
    ensures |LaunchWhenDue(cfg, s, now, inp, paired).daemon.failures| <= 1
  {
    PairingLeavesFailures(cfg, s, now, inp.pairing);
  }

  lemma ServeFailsOnce(cfg: AppConfig, s: Daemon, now: int, v: VmStatus, inp: TickInput, display: seq<DaemonMessage>)
    requires s.failures == []
    ensures |Serve(cfg, s, now, v, inp, display).daemon.failures| <= 1
  {
    if IsOn(v) {
      PairingLeavesFailures(cfg, s, now, inp.pairing);
      LaunchFailsOnce(cfg, s, now, inp, false);
      LaunchFailsOnce(cfg, HandlePairing(cfg, s, now, inp.pairing).daemon, now, inp, true);
    }
  }

  lemma TickFailsOnce(cfg: AppConfig, s: Daemon, now: int, inp: TickInput)
    requires |s.failures| <= 1 && inp.reading.StatusIs? && PressesReadable(inp.poll)
    ensures |Tick(cfg, s, now, inp).daemon.failures| <= 1
  {
    PollFailsOnce(cfg, s, now, inp.poll);
    var polled := PollButton(cfg, s, now, inp.poll);
    if !IsBlocked(polled.mode) {
      var v := inp.reading.status;
      var u := UpdateIntent(cfg, Observed(cfg, s, now, inp.poll, v), now);
      assert u.daemon.failures == [];
      ServeFailsOnce(cfg, u.daemon, now, v, inp, u.messages);
    }
  }

  /** Failed launches alone never reach the limit: while every status read succeeds, at most one failure counts. */
  lemma {:induction false} LaunchFailuresNeverDegrade(cfg: AppConfig, l: Launching, steps: seq<Step>)
    requires forall i | 0 <= i < |steps| :: Readable(steps[i])
    ensures |Run(cfg, l, steps).failures| <= 1
  {
    if steps != [] {
      LaunchFailuresNeverDegrade(cfg, l, steps[..|steps| - 1]);
      StepFailsOnce(cfg, Run(cfg, l, steps[..|steps| - 1]), steps[|steps| - 1]);
    }
  }

  lemma MessageFailsNever(cfg: AppConfig, s: Daemon, message: SessionMessage, now: int, v: VmStatus)
    requires |s.failures| <= 1
    ensures |HandleMessage(cfg, s, message, now, StatusIs(v)).daemon.failures| <= 1
  {
  }

  lemma StepFailsOnce(cfg: AppConfig, s: Daemon, step: Step)
    requires |s.failures| <= 1 && Readable(step)
    ensures |Take(cfg, s, step).daemon.failures| <= 1
  {
    match step
    case TickStep(now, inp) => TickFailsOnce(cfg, s, now, inp);
    case MessageStep(now, message, reading) => MessageFailsNever(cfg, s, message, now, reading.status);
    case DisconnectStep =>
  }

  // ------------------------------------------------------------------ the power button

  /** When the commands were issued, in order. */
  function CommandTimes(h: History): seq<int> {
    match h
    case Begin => []
    case After(past, e) => CommandTimes(past) + (if e.CommandIssued? then [e.at] else [])
  }

  lemma {:induction false} CommandTimesEnd(h: History)
    requires Ordered(h)
    ensures
      var times := CommandTimes(h);
      && LastCommandAt(h) == (if times == [] then None else Some(times[|times| - 1]))
  {
    if h.After? {
      CommandTimesEnd(h.past);
    }
  }

  lemma {:induction false} CommandsApartIn(cfg: AppConfig, h: History)
    requires Lawful(cfg, h) && Ordered(h) && 0 <= cfg.debounceMs
    ensures
      var times := CommandTimes(h);
      forall i, j | 0 <= i < j < |times| :: times[j] - times[i] >= cfg.debounceMs * 1000
  {
    if h.After? {
      CommandsApartIn(cfg, h.past);
      CommandTimesEnd(h.past);
    }
  }

  /** Over every run, any two commands sent to the guest are at least the debounce time apart. */
  lemma {:induction false} CommandsApart(cfg: AppConfig, l: Launching, steps: seq<Step>, i: int, j: int)
    requires Parsed(cfg) && InOrder(l, steps)
    requires 0 <= i < j < |CommandTimes(Run(cfg, l, steps).history)|
    ensures
      var times := CommandTimes(Run(cfg, l, steps).history);
      times[j] - times[i] >= cfg.debounceMs * 1000
  {
    RunHasChronicle(cfg, l, steps);
    CommandsApartIn(cfg, Run(cfg, l, steps).history);
  }

  /** The earlier history is a beginning of the later one. */
  predicate Extends(h: History, earlier: History) {
    h == earlier || (h.After? && Extends(h.past, earlier))
  }

  lemma {:induction false} LawfulEarlier(cfg: AppConfig, h: History, earlier: History)
    requires Lawful(cfg, h) && Extends(h, earlier)
    ensures Lawful(cfg, earlier)
  {
    if h != earlier {
      LawfulEarlier(cfg, h.past, earlier);
    }
  }

  /** Over every run, a command is only issued with none in flight, and it is the one the status just read calls for. */
  lemma {:induction false} CommandsLawful(
    cfg: AppConfig, l: Launching, steps: seq<Step>, past: History, at: int, action: Action, accepted: bool)
    requires Parsed(cfg) && InOrder(l, steps)
    requires Extends(Run(cfg, l, steps).history, After(past, CommandIssued(at, action, accepted)))
    ensures InFlight(past).None? && LastStatus(past).Some?
    ensures action == StartVm <==> ButtonStarts(LastStatus(past).value)
    ensures action == ShutdownVm <==> ButtonStops(LastStatus(past).value)
  {
    RunHasChronicle(cfg, l, steps);
    LawfulEarlier(cfg, Run(cfg, l, steps).history, After(past, CommandIssued(at, action, accepted)));
  }

  /** An action in flight has been answered, or has run out of time. */
  predicate Resolves(cfg: AppConfig, start: int, action: Action, now: int, v: VmStatus) {
    match action
    case StartVm =>
      || ButtonStops(v)
      || (ButtonStarts(v) && ElapsedMs(start, now) >= cfg.debounceMs)
      || (!ButtonStarts(v) && ElapsedMs(start, now) >= cfg.policy.shutdownTimeoutS * 1000)
    case ShutdownVm =>
      ButtonStarts(v) || ElapsedMs(start, now) >= cfg.policy.shutdownTimeoutS * 1000
  }

  /** A successful read resolves the action in flight exactly when it is answered or out of time. */
  lemma ActionResolves(cfg: AppConfig, s: Daemon, now: int, v: VmStatus)
    requires ButtonHist(s.button, s.history) && InFlight(s.history).Some?
    ensures
      InFlight(RefreshAction(cfg, s, now, v).history) ==
      if Resolves(cfg, InFlight(s.history).value.0, InFlight(s.history).value.1, now, v) then None else InFlight(s.history)
  {
  }

  /**
    * Over every run, a tick that reads the status resolves the action it finds in flight after the button has been
    * polled exactly when it is answered or out of time, so none outlives both the debounce time and the timeout.
    */
  lemma {:induction false} TickResolvesAction(cfg: AppConfig, l: Launching, steps: seq<Step>, now: int, inp: TickInput)
    requires Parsed(cfg) && InOrder(l, steps) && Clock(l, steps) <= now
    requires Decides(cfg, Run(cfg, l, steps), now, inp)
    ensures
      var s := Run(cfg, l, steps);
      var flight := InFlight(PollButton(cfg, s, now, inp.poll).history);
      InFlight(Tick(cfg, s, now, inp).daemon.history) ==
      if flight.Some? && Resolves(cfg, flight.value.0, flight.value.1, now, inp.reading.status) then None else flight
  {
    var s, v := Run(cfg, l, steps), inp.reading.status;
    Reached(cfg, l, steps, now);
    PollButtonChronicle(cfg, s, now, inp.poll);
    ObservedChronicle(cfg, s, now, inp.poll, v);
    TickChronicle(cfg, s, now, inp);
    var polled := PollButton(cfg, s, now, inp.poll);
    var r := RefreshStatus(polled, now, inp.reading).daemon;
    StatusChronicle(cfg, polled, now, inp.reading);
    if InFlight(r.history).Some? {
      ActionResolves(cfg, r, now, v);
    }
    TickLeavesButton(cfg, s, now, inp);
    SameFlight(Tick(cfg, s, now, inp).daemon, Observed(cfg, s, now, inp.poll, v));
  }

  lemma TickLeavesButton(cfg: AppConfig, s: Daemon, now: int, inp: TickInput)
    requires Decides(cfg, s, now, inp)
    ensures Tick(cfg, s, now, inp).daemon.button == Observed(cfg, s, now, inp.poll, inp.reading.status).button
  {
    var v := inp.reading.status;
    var u := UpdateIntent(cfg, Observed(cfg, s, now, inp.poll, v), now);
    ServeLeavesControls(cfg, u.daemon, now, v, inp, u.messages);
  }

  lemma SameFlight(s: Daemon, t: Daemon)
    requires ButtonHist(s.button, s.history) && ButtonHist(t.button, t.history) && s.button == t.button
    ensures InFlight(s.history) == InFlight(t.history)
  {
  }

  // ------------------------------------------------------------------ pairing

  /** The latest pair launch of all. */
  function LatestPair(h: History): Option<(int, string)> {
    match h
    case Begin => None
    case After(past, e) => if e.PairLaunched? then Some((e.at, e.pin)) else LatestPair(past)
  }

  lemma {:induction false} OpenPairIsLatest(h: History)
    ensures OpenPair(h).Some? ==> OpenPair(h) == LatestPair(h)
  {
    if h.After? {
      OpenPairIsLatest(h.past);
    }
  }

  /** Over every run, a PIN in the state is the one of the latest pair launch, and was requested when that was made. */
  lemma {:induction false} PinIsOfLatestLaunch(cfg: AppConfig, l: Launching, steps: seq<Step>)
    requires Parsed(cfg) && InOrder(l, steps)
    ensures
      var s := Run(cfg, l, steps);
      s.pairing.pin.Some? ==>
        s.pairing.requestedAt.Some? && LatestPair(s.history) == Some((s.pairing.requestedAt.value, s.pairing.pin.value))
  {
    RunHasChronicle(cfg, l, steps);
    OpenPairIsLatest(Run(cfg, l, steps).history);
  }

  /** The pair launches since pairing last ended or a session last came or went. */
  function Episode(h: History): seq<int> {
    match h
    case Begin => []
    case After(past, e) =>
      if e.PairLaunched? then Episode(past) + [e.at]
      else if e.PairEnded? || e.SessionReset? then []
      else Episode(past)
  }

  lemma {:induction false} EpisodeEnd(h: History)
    ensures PairUninterrupted(h) <==> Episode(h) != []
    ensures Episode(h) != [] ==> OpenPair(h).Some? && OpenPair(h).value.0 == Episode(h)[|Episode(h)| - 1]
  {
    if h.After? {
      EpisodeEnd(h.past);
    }
  }

  lemma {:induction false} EpisodeApart(cfg: AppConfig, h: History)
    requires Lawful(cfg, h)
    ensures forall i | 0 < i < |Episode(h)| :: Episode(h)[i] - Episode(h)[i - 1] >= PAIR_TIMEOUT
  {
    if h.After? {
      EpisodeApart(cfg, h.past);
      EpisodeEnd(h.past);
    }
  }

  /** Over every run, successive pair launches of one uninterrupted episode are five minutes apart. */
  lemma {:induction false} PairLaunchesApart(cfg: AppConfig, l: Launching, steps: seq<Step>)
    requires Parsed(cfg) && InOrder(l, steps)
    ensures
      var times := Episode(Run(cfg, l, steps).history);
      forall i | 0 < i < |times| :: times[i] - times[i - 1] >= PAIR_TIMEOUT
  {
    RunHasChronicle(cfg, l, steps);
    EpisodeApart(cfg, Run(cfg, l, steps).history);
  }

  // ------------------------------------------------------------------ backoff

  /** How many of the first `n` delays are still doublings of the initial one. */
  function Doublings(p: Policy, n: nat): (m: nat)
    ensures m <= n
  {
    if n == 0 then 0
    else if p.reconnectInitialMs * Pow2(n - 1) <= p.reconnectMaxMs then n
    else Doublings(p, n - 1)
  }

  /** The waits scheduled since the backoff was reset, added up. */
  function WaitedMs(h: History): int {
    match h
    case Begin => 0
    case After(past, e) =>
      if e.BackoffReset? then 0
      else if e.ReconnectScheduled? then WaitedMs(past) + e.delayMs
      else WaitedMs(past)
  }

  function TotalMs(p: Policy, n: nat): int {
    var m := Doublings(p, n);
    p.reconnectInitialMs * (Pow2(m) - 1) + p.reconnectMaxMs * (n - m)
  }

  lemma {:induction false} DoublingsStop(p: Policy, n: nat, k: nat)
    requires 0 < p.reconnectInitialMs && k <= n && p.reconnectInitialMs * Pow2(n) <= p.reconnectMaxMs
    ensures p.reconnectInitialMs * Pow2(k) <= p.reconnectMaxMs
    decreases n - k
  {
    if k < n {
      DoublingsStop(p, n, k + 1);
      assert p.reconnectInitialMs * Pow2(k + 1) == 2 * (p.reconnectInitialMs * Pow2(k));
    }
  }

  lemma TotalGrows(p: Policy, n: nat)
    requires 0 < p.reconnectInitialMs
    ensures TotalMs(p, n + 1) == TotalMs(p, n) + BackoffMs(p, n)
  {
    var x := p.reconnectInitialMs;
    if x * Pow2(n) <= p.reconnectMaxMs {
      if n > 0 {
        DoublingsStop(p, n, n - 1);
      }
      assert Doublings(p, n) == n && Doublings(p, n + 1) == n + 1;
      assert x * (Pow2(n + 1) - 1) == x * (Pow2(n) - 1) + x * Pow2(n);
    } else {
      var m := Doublings(p, n);
      assert Doublings(p, n + 1) == m;
      assert p.reconnectMaxMs * (n + 1 - m) == p.reconnectMaxMs * (n - m) + p.reconnectMaxMs;
    }
  }

  lemma {:induction false} WaitedInAll(cfg: AppConfig, h: History)
    requires Lawful(cfg, h) && PolicyParsed(cfg.policy)
    ensures WaitedMs(h) == TotalMs(cfg.policy, WaitsSinceReset(h))
  {
    if h.After? {
      WaitedInAll(cfg, h.past);
      if h.last.ReconnectScheduled? {
        TotalGrows(cfg.policy, WaitsSinceReset(h.past));
      }
    }
  }

  /**
    * Over every run, the next delay is the initial one doubled once for every wait since the reset and capped, the
    * waits since the reset add up to the closed form, and a pending deadline is the one of the latest wait.
    */
  lemma {:induction false} BackoffClosedForm(cfg: AppConfig, l: Launching, steps: seq<Step>)
    requires Parsed(cfg) && InOrder(l, steps)
    ensures
      var s := Run(cfg, l, steps);
      && s.reconnect.delayMs == BackoffMs(cfg.policy, WaitsSinceReset(s.history))
      && cfg.policy.reconnectInitialMs <= s.reconnect.delayMs <= cfg.policy.reconnectMaxMs
      && WaitedMs(s.history) == TotalMs(cfg.policy, WaitsSinceReset(s.history))
      && (s.reconnect.nextAt.Some? ==> s.reconnect.nextAt == LatestDeadline(s.history))
  {
    RunHasChronicle(cfg, l, steps);
    BackoffDoubles(cfg.policy, WaitsSinceReset(Run(cfg, l, steps).history));
    WaitedInAll(cfg, Run(cfg, l, steps).history);
  }
}
