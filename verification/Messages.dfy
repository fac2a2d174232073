/** The messages the two processes exchange, and the launch requests the daemon builds from its configuration. */
module Messages {
  import opened Wrappers
  import opened Text
  import opened Config

  datatype Power = On | Off

  datatype WaitReason =
    | Connecting | VmStopped | PairingRequired | Reconnecting | DegradedWait
    | VmNotRunning | ControlError
    | OtherReason(text: string)

  /** What the waiting screen shows while a PIN is to be entered. */
  datatype Details = Details(backend: string, host: string, pin: string, instructions: string)

  datatype DaemonMessage =
    | ShowWaiting(reason: WaitReason, details: Option<Details>)
    | ConnectConsole(backend: Backend, launcher: string, argv: seq<string>, cwd: Option<string>)
    | ConnectSpice(vvPath: string)
    | DisconnectConsole(reason: WaitReason)
    | DisplayPower(state: Power, output: string)
    | HealthPing

  datatype SessionMessage =
    | SessionReady
    | ConsoleStarted(pid: int, backend: Option<Backend>)
    | ConsoleExited(code: int, signal: int, backend: Option<Backend>)
    | DisplayPowerApplied(state: Power)
    | SessionError(reason: string)

  const REMOTE_VIEWER := "remote-viewer"
  const PAIRING_INSTRUCTIONS := "Open the Sunshine web UI PIN page on the guest and enter this PIN."

  function LookingGlassArgv(c: Console): seq<string>
    requires c.LookingGlassConsole?
  {
    [c.binary]
    + (if c.fullscreen then ["-F"] else [])
    + (if c.disableHostScreensaver then ["-S"] else [])
    + ["-g", c.renderer, "-f", c.shmFile]
    + (if c.spiceEnabled then [] else ["-s"])
  }

  function StreamArgv(c: Console): seq<string>
    requires c.MoonlightConsole?
  {
    [c.binary, "stream", HostAuthority(c), c.app]
    + (if c.resolution.Some? then ["--resolution", c.resolution.value] else [])
    + ["--display-mode", "fullscreen"]
    + (if c.quitAppAfterSession then ["--quit-after"] else [])
  }

  /** The request to show the guest: what `_prepare_console_launch` returns. */
  function LaunchMessage(c: Console): DaemonMessage {
    match c
    case SpiceConsole(vvPath) =>
      ConnectConsole(Spice, REMOTE_VIEWER, [REMOTE_VIEWER, "--full-screen", vvPath], None)
    case VncConsole(bindHost, displayNumber, viewer) =>
      ConnectConsole(Vnc, viewer,
                     [viewer, "--full-screen", "vnc://" + bindHost + ":" + NatToString(5900 + displayNumber)], None)
    case LookingGlassConsole(binary, _, _, _, _, _) =>
      ConnectConsole(LookingGlass, binary, LookingGlassArgv(c), None)
    case MoonlightConsole(binary, _, _, _, _, stateDir, _, _) =>
      ConnectConsole(Moonlight, binary, StreamArgv(c), Some(stateDir))
  }

  /** The request to show the pairing UI: what `_prepare_moonlight_pair_launch` returns. */
  function PairMessage(c: Console, pin: string): DaemonMessage {
    if c.MoonlightConsole? then
      ConnectConsole(Moonlight, c.binary, [c.binary, "pair", HostAuthority(c), "--pin", pin], Some(c.stateDir))
    else ConnectConsole(Moonlight, "", [], None)
  }

  function PairWaitingMessage(c: Console, pin: string): DaemonMessage {
    ShowWaiting(PairingRequired, Some(Details("moonlight", HostAuthority(c), pin, PAIRING_INSTRUCTIONS)))
  }
}
