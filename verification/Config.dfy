/** The configuration that both processes read, after parsing. */
module Config {
  import opened Wrappers
  import opened Text

  /** A console backend. The configuration only has the first four; a message may name anything. */
  datatype Backend = Spice | Vnc | LookingGlass | Moonlight | OtherBackend(name: string)

  function BackendName(b: Backend): string {
    match b
    case Spice => "spice"
    case Vnc => "vnc"
    case LookingGlass => "looking-glass"
    case Moonlight => "moonlight"
    case OtherBackend(name) => name
  }

  function ToBackend(name: string): Backend {
    if name == "spice" then Spice
    else if name == "vnc" then Vnc
    else if name == "looking-glass" then LookingGlass
    else if name == "moonlight" then Moonlight
    else OtherBackend(name)
  }

  /** The settings of the one configured backend. `hostIsIPv6` is what the IP address parser says of the host. */
  datatype Console =
    | SpiceConsole(vvPath: string)
    | VncConsole(bindHost: string, displayNumber: nat, viewer: string)
    | LookingGlassConsole(
        binary: string, renderer: string, shmFile: string,
        fullscreen: bool, disableHostScreensaver: bool, spiceEnabled: bool)
    | MoonlightConsole(
        binary: string, host: string, hostIsIPv6: bool, basePort: nat,
        app: string, stateDir: string, resolution: Option<string>, quitAppAfterSession: bool)
  {
    function Backend(): Backend {
      match this
      case SpiceConsole(_) => Spice
      case VncConsole(_, _, _) => Vnc
      case LookingGlassConsole(_, _, _, _, _, _) => LookingGlass
      case MoonlightConsole(_, _, _, _, _, _, _, _) => Moonlight
    }
  }

  datatype Policy = Policy(
    reconnectInitialMs: int,
    reconnectMaxMs: int,
    dpmsOffDelayMs: int,
    powerStateStabilizeMs: int,
    shutdownTimeoutS: int)

  datatype AppConfig = AppConfig(
    console: Console,
    policy: Policy,
    outputName: string,
    forwardPowerButton: bool,
    debounceMs: int)
  {
    function Backend(): Backend {
      console.Backend()
    }
  }

  const DEFAULT_MOONLIGHT_BASE_PORT: nat := 47989

  /** `_render_moonlight_host_authority`: the default port is left out. */
  function Authority(host: string, hostIsIPv6: bool, basePort: nat): string {
    if basePort == DEFAULT_MOONLIGHT_BASE_PORT then host
    else if hostIsIPv6 then "[" + host + "]:" + NatToString(basePort)
    else host + ":" + NatToString(basePort)
  }

  function HostAuthority(c: Console): string {
    if c.MoonlightConsole? then Authority(c.host, c.hostIsIPv6, c.basePort) else ""
  }

  /** A text with something in it besides white space. */
  predicate NonBlank(s: string) {
    exists i | 0 <= i < |s| :: !IsSpace(s[i])
  }

  predicate IsAbsolutePath(s: string) {
    StartsWith(s, "/")
  }

  /** A Moonlight host as the parser lets it through: no white space and no brackets around it. */
  predicate IsMoonlightHost(host: string) {
    host != "" && NoSpace(host) && host[0] != '[' && host[|host| - 1] != ']'
  }

  /** What the parser checks of the console section. */
  predicate ConsoleParsed(c: Console) {
    match c
    case SpiceConsole(vvPath) => IsAbsolutePath(vvPath)
    case VncConsole(bindHost, _, viewer) =>
      (bindHost == "127.0.0.1" || bindHost == "localhost") && viewer == "remote-viewer"
    case LookingGlassConsole(binary, renderer, shmFile, _, _, _) =>
      NonBlank(binary) && NonBlank(renderer) && IsAbsolutePath(shmFile)
    case MoonlightConsole(binary, host, _, basePort, app, stateDir, resolution, _) =>
      && NonBlank(binary) && IsMoonlightHost(host) && 0 < basePort <= 65535 && NonBlank(app)
      && IsAbsolutePath(stateDir) && (resolution.Some? ==> NonBlank(resolution.value))
  }

  /** What the parser checks of the numbers. */
  predicate PolicyParsed(p: Policy) {
    && 0 < p.reconnectInitialMs <= p.reconnectMaxMs
    && 0 <= p.dpmsOffDelayMs && 0 <= p.powerStateStabilizeMs && 0 <= p.shutdownTimeoutS
  }

  predicate Parsed(cfg: AppConfig) {
    ConsoleParsed(cfg.console) && PolicyParsed(cfg.policy) && 0 <= cfg.debounceMs
  }
}
