/** The part of the daemon's state that it persists, an object the daemon updates field by field. */
module RuntimeState {
  import opened Wrappers
  import opened Config
  import opened Messages
  import opened History
  import opened DaemonSpec

  class RuntimeState {
    var activeConsoleBackend: Option<Backend>
    var moonlightPairState: PairState
    var moonlightPairPin: Option<string>
    var vmPowerState: VmStatus
    var displayPowerIntent: Power
    var displayPowerApplied: Power
    var sessionState: SessionState
    var degradedReason: Option<Error>
    var lastConsoleExit: Option<ExitRecord>
    var lastConnectAttemptAt: Option<int>
    var lastPowerButtonAt: Option<int>
    var powerButtonActionInFlight: bool
    var lastPowerButtonAction: Option<Action>
    var lastPowerButtonResult: Option<PressResult>
    var lastError: Option<Error>

    constructor ()
      ensures activeConsoleBackend.None? && moonlightPairState == Unknown && moonlightPairPin.None?
      ensures vmPowerState == OtherStatus("unknown") && displayPowerIntent == On && displayPowerApplied == On
      ensures sessionState == Booting && degradedReason.None? && lastConsoleExit.None? && lastConnectAttemptAt.None?
      ensures lastPowerButtonAt.None? && !powerButtonActionInFlight && lastPowerButtonAction.None?
      ensures lastPowerButtonResult.None? && lastError.None?
    {
      activeConsoleBackend, moonlightPairState, moonlightPairPin := None, Unknown, None;
      vmPowerState, displayPowerIntent, displayPowerApplied := OtherStatus("unknown"), On, On;
      sessionState, degradedReason, lastConsoleExit, lastConnectAttemptAt := Booting, None, None, None;
      lastPowerButtonAt, powerButtonActionInFlight, lastPowerButtonAction := None, false, None;
      lastPowerButtonResult, lastError := None, None;
    }

    method MarkConnectAttempt(when: int)
      modifies this`lastConnectAttemptAt
      ensures lastConnectAttemptAt == Some(when)
    {
      lastConnectAttemptAt := Some(when);
    }

    method MarkPowerButtonPress(when: int, action: Action, result: PressResult)
      modifies this`lastPowerButtonAt, this`lastPowerButtonAction, this`lastPowerButtonResult, this`powerButtonActionInFlight
      ensures lastPowerButtonAt == Some(when) && lastPowerButtonAction == Some(action)
      ensures lastPowerButtonResult == Some(result) && powerButtonActionInFlight == (result == Submitted)
    {
      lastPowerButtonAt := Some(when);
      lastPowerButtonAction := Some(action);
      lastPowerButtonResult := Some(result);
      powerButtonActionInFlight := result == Submitted;
    }

    method MarkConsoleExit(when: int, code: int, signal: int, backend: Backend)
      modifies this`lastConsoleExit
      ensures lastConsoleExit == Some(ExitRecord(when, code, signal, backend))
    {
      lastConsoleExit := Some(ExitRecord(when, code, signal, backend));
    }
  }
}
