/** The daemon's history: what it has observed and done, latest event last, and what can be read off it. */
module History {
  import opened Wrappers
  import opened Messages
  import opened Config

  /** What `qm status` reports, sorted by what the daemon does about it. */
  datatype VmStatus = Running | Paused | Suspended | Stopped | Shutdown | OtherStatus(name: string)

  /** The guest has a picture to show. */
  predicate IsOn(v: VmStatus) {
    v.Running? || v.Paused? || v.Suspended?
  }

  predicate IsOff(v: VmStatus) {
    v.Stopped? || v.Shutdown?
  }

  /** The states in which the power button shuts the guest down. */
  predicate ButtonStops(v: VmStatus) {
    v.Running? || v.Paused?
  }

  /** The states in which it starts the guest. */
  predicate ButtonStarts(v: VmStatus) {
    IsOff(v)
  }

  datatype Action = StartVm | ShutdownVm

  /** Times are in microseconds. */
  datatype Event =
    | DaemonStarted(at: int)
    | StatusRead(at: int, status: VmStatus)
    | FailureRecorded(at: int, text: string)
    | FailuresCleared(at: int)
    | CommandIssued(at: int, action: Action, accepted: bool)
    | ActionResolved
    | ReconnectScheduled(at: int, delayMs: int)
    | BackoffReset
    | PairLaunched(at: int, pin: string)
    | PairEnded
    | SessionReset
    | DisplayDecided(at: int, power: Power)

  datatype History = Begin | After(past: History, last: Event)

  const FAILURE_LIMIT := 5
  const FAILURE_WINDOW := 120_000_000
  const PAIR_TIMEOUT := 300_000_000

  /** Milliseconds between two times, cut off towards zero. */
  function ElapsedMs(start: int, end: int): int {
    if start <= end then (end - start) / 1000 else -((start - end) / 1000)
  }

  // ------------------------------------------------------------------ time

  function TimeOf(e: Event): Option<int> {
    match e
    case DaemonStarted(at) => Some(at)
    case StatusRead(at, _) => Some(at)
    case FailureRecorded(at, _) => Some(at)
    case FailuresCleared(at) => Some(at)
    case CommandIssued(at, _, _) => Some(at)
    case ReconnectScheduled(at, _) => Some(at)
    case PairLaunched(at, _) => Some(at)
    case DisplayDecided(at, _) => Some(at)
    case _ => None
  }

  /** Nothing in the history is later than `now`. */
  predicate NotAfter(h: History, now: int) {
    match h
    case Begin => true
    case After(past, e) => NotAfter(past, now) && (TimeOf(e).Some? ==> TimeOf(e).value <= now)
  }

  // ------------------------------------------------------------------ status reads

  function LastStatus(h: History): Option<VmStatus> {
    match h
    case Begin => None
    case After(past, e) => if e.StatusRead? then Some(e.status) else LastStatus(past)
  }

  /** When the reads began to give the status they give now. */
  function SteadySince(h: History): Option<int> {
    match h
    case Begin => None
    case After(past, e) =>
      if !e.StatusRead? then SteadySince(past)
      else if LastStatus(past) == Some(e.status) then SteadySince(past)
      else Some(e.at)
  }

  /** Some read at `from` or before gave `v`, and every read after it gave `v` too. */
  predicate SteadyAtLeastSince(h: History, v: VmStatus, from: int) {
    match h
    case Begin => false
    case After(past, e) =>
      if !e.StatusRead? then SteadyAtLeastSince(past, v, from)
      else e.status == v && (e.at <= from || SteadyAtLeastSince(past, v, from))
  }

  // ------------------------------------------------------------------ the failure window

  /** The times of the failures since the last event that clears them. */
  function FailuresSinceClear(h: History): seq<int> {
    match h
    case Begin => []
    case After(past, e) =>
      if e.StatusRead? || e.FailuresCleared? then []
      else if e.FailureRecorded? then FailuresSinceClear(past) + [e.at]
      else FailuresSinceClear(past)
  }

  /** The times that lie within the window before `now`, in order. */
  function Recent(times: seq<int>, now: int): seq<int> {
    if times == [] then []
    else
      var t := times[|times| - 1];
      Recent(times[..|times| - 1], now) + (if now - t <= FAILURE_WINDOW then [t] else [])
  }

  /** All failures since the last clearing that lie within the window before the latest of them. */
  function FailureWindow(h: History): seq<int> {
    var times := FailuresSinceClear(h);
    if times == [] then [] else Recent(times, times[|times| - 1])
  }

  /** The texts of the failures that filled the window, in order. */
  function Trips(h: History): seq<string> {
    match h
    case Begin => []
    case After(past, e) =>
      Trips(past) + (if e.FailureRecorded? && |FailureWindow(h)| >= FAILURE_LIMIT then [e.text] else [])
  }

  // ------------------------------------------------------------------ the power button

  function LastCommandAt(h: History): Option<int> {
    match h
    case Begin => None
    case After(past, e) => if e.CommandIssued? then Some(e.at) else LastCommandAt(past)
  }

  /** The accepted command that has not been resolved yet. */
  function InFlight(h: History): Option<(int, Action)> {
    match h
    case Begin => None
    case After(past, e) =>
      if e.CommandIssued? then (if e.accepted then Some((e.at, e.action)) else None)
      else if e.ActionResolved? then None
      else InFlight(past)
  }

  // ------------------------------------------------------------------ backoff

  /** How often a reconnect has been scheduled since the backoff was reset. */
  function WaitsSinceReset(h: History): nat {
    match h
    case Begin => 0
    case After(past, e) =>
      if e.BackoffReset? then 0
      else if e.ReconnectScheduled? then WaitsSinceReset(past) + 1
      else WaitsSinceReset(past)
  }

  /** The deadline that the latest schedule set, if the backoff has not been reset since. */
  function LatestDeadline(h: History): Option<int> {
    match h
    case Begin => None
    case After(past, e) =>
      if e.BackoffReset? then None
      else if e.ReconnectScheduled? then Some(e.at + e.delayMs * 1000)
      else LatestDeadline(past)
  }

  function Pow2(k: nat): (r: nat)
    ensures r >= 1
  {
    if k == 0 then 1 else 2 * Pow2(k - 1)
  }

  /** The closed form of the delay after `k` schedules. */
  function BackoffMs(p: Policy, k: nat): int {
    if p.reconnectInitialMs * Pow2(k) <= p.reconnectMaxMs then p.reconnectInitialMs * Pow2(k) else p.reconnectMaxMs
  }

  // ------------------------------------------------------------------ pairing

  /** The latest pair launch, if pairing has not ended since. */
  function OpenPair(h: History): Option<(int, string)> {
    match h
    case Begin => None
    case After(past, e) =>
      if e.PairLaunched? then Some((e.at, e.pin))
      else if e.PairEnded? then None
      else OpenPair(past)
  }

  /** Pairing is open and no session has come or gone since its latest launch. */
  predicate PairUninterrupted(h: History) {
    match h
    case Begin => false
    case After(past, e) =>
      if e.PairLaunched? then true
      else if e.PairEnded? || e.SessionReset? then false
      else PairUninterrupted(past)
  }

  // ------------------------------------------------------------------ the display

  function StartTime(h: History): Option<int> {
    match h
    case Begin => None
    case After(past, e) => if e.DaemonStarted? then Some(e.at) else StartTime(past)
  }

  /** The display has been decided on by the status of the guest before. */
  predicate DisplaySettled(h: History) {
    match h
    case Begin => false
    case After(past, e) => e.DisplayDecided? || DisplaySettled(past)
  }
}
