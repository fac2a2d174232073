/** Neither process ever sends a message that the other one refuses. */
module ProtocolClosure {
  import opened Wrappers
  import opened Text
  import opened Config
  import opened Messages
  import opened History
  import opened DaemonSpec
  import opened DaemonInvariant
  import LaunchSafety
  import opened SessionSpec
  import opened Protocol
  import opened ProtocolReading

  // ------------------------------------------------------------------ exactly the sendable messages pass

  lemma NonBlankAt(s: string, i: nat)
    requires i < |s| && !IsSpace(s[i])
    ensures NonBlank(s)
  {
  }

  lemma DetailKeys()
    ensures NonBlank("backend") && NonBlank("host") && NonBlank("pin") && NonBlank("instructions")
  {
    NonBlankAt("backend", 0);
    NonBlankAt("host", 0);
    NonBlankAt("pin", 0);
    NonBlankAt("instructions", 0);
  }

  lemma StringsMean(texts: seq<string>)
    ensures Accepts(AStringList, JList(Strings(texts))) <==> texts != [] && AllNonBlank(texts)
  {
    assert forall i | 0 <= i < |texts| :: Strings(texts)[i] == JString(texts[i]);
    if texts != [] {
      assert Strings(texts) != [] by {
        assert |Strings(texts)| == |texts|;
      }
    }
  }

  lemma DetailsMean(d: Details)
    ensures Accepts(AStringDict, DetailsJson(d))
       <==> NonBlank(d.backend) && NonBlank(d.host) && NonBlank(d.pin) && NonBlank(d.instructions)
  {
    DetailKeys();
    var f := DetailsJson(d).fields;
    assert f["backend"] == JString(d.backend) && f["host"] == JString(d.host) && f["pin"] == JString(d.pin);
    assert f["instructions"] == JString(d.instructions);
  }

  /** What a schema with one field of each kind asks for. */
  lemma OneOfEach(p: Payload, schema: Schema, f: Field, o: Field)
    requires schema.required == [f] && schema.optional == [o]
    ensures Conforms(p, schema) <==>
      && (forall k | k in p :: k == "type" || k == f.name || k == o.name)
      && f.name in p && Accepts(f.check, p[f.name]) && (o.name in p ==> Accepts(o.check, p[o.name]))
  {
    assert schema.required[0] == f && schema.optional[0] == o;
  }

  lemma ShowWaitingFields(m: DaemonMessage)
    requires m.ShowWaiting?
    ensures
      var p := DaemonPayload(m);
      && "type" in p && p["type"] == JString("show_waiting")
      && "reason" in p && p["reason"] == JString(ReasonText(m.reason))
      && ("details" in p <==> m.details.Some?) && (m.details.Some? ==> p["details"] == DetailsJson(m.details.value))
      && (forall k | k in p :: k == "type" || k == "reason" || k == "details")
  {
  }

  lemma ShowWaitingPasses(m: DaemonMessage)
    requires m.ShowWaiting?
    ensures Validate(DaemonPayload(m), DaemonSchema).None? <==> DaemonSendable(m)
  {
    var p := DaemonPayload(m);
    ShowWaitingFields(m);
    ValidateMeans(p, DaemonSchema);
    OneOfEach(p, DaemonSchema("show_waiting").value, Field("reason", ANonEmptyString), Field("details", AStringDict));
    if m.details.Some? {
      DetailsMean(m.details.value);
    }
  }

  /** Every field of the payload is one that the schema names. */
  predicate OnlyNamed(p: Payload, schema: Schema) {
    forall k | k in p :: k == "type" || Names(schema.required, k) || Names(schema.optional, k)
  }

  lemma ConnectNamed(m: DaemonMessage)
    requires m.ConnectConsole?
    ensures OnlyNamed(DaemonPayload(m), DaemonSchema("connect_console").value)
  {
    var s := DaemonSchema("connect_console").value;
    assert s.required[0].name == "backend" && s.required[1].name == "launcher" && s.required[2].name == "argv";
    assert s.optional[0].name == "cwd";
  }

  lemma ConnectFields(m: DaemonMessage)
    requires m.ConnectConsole?
    ensures
      var p := DaemonPayload(m);
      && "type" in p && p["type"] == JString("connect_console")
      && "backend" in p && p["backend"] == JString(BackendName(m.backend))
      && "launcher" in p && p["launcher"] == JString(m.launcher)
      && "argv" in p && p["argv"] == JList(Strings(m.argv))
      && ("cwd" in p <==> m.cwd.Some?) && (m.cwd.Some? ==> p["cwd"] == JString(m.cwd.value))
  {
  }

  lemma ConnectConforms(p: Payload, m: DaemonMessage)
    requires m.ConnectConsole? && OnlyNamed(p, DaemonSchema("connect_console").value)
    requires "backend" in p && p["backend"] == JString(BackendName(m.backend))
    requires "launcher" in p && p["launcher"] == JString(m.launcher)
    requires "argv" in p && p["argv"] == JList(Strings(m.argv))
    requires ("cwd" in p <==> m.cwd.Some?) && (m.cwd.Some? ==> p["cwd"] == JString(m.cwd.value))
    ensures Conforms(p, DaemonSchema("connect_console").value) <==> DaemonSendable(m)
  {
    var s := DaemonSchema("connect_console").value;
    assert s.required[0] == Field("backend", ANonEmptyString) && s.required[1] == Field("launcher", ANonEmptyString);
    assert s.required[2] == Field("argv", AStringList) && s.optional[0] == Field("cwd", AnAbsolutePath);
    StringsMean(m.argv);
  }

  lemma ConnectPasses(m: DaemonMessage)
    requires m.ConnectConsole?
    ensures Validate(DaemonPayload(m), DaemonSchema).None? <==> DaemonSendable(m)
  {
    var p := DaemonPayload(m);
    ConnectNamed(m);
    ConnectFields(m);
    ConnectConforms(p, m);
    ValidateMeans(p, DaemonSchema);
  }

  lemma DisplayPowerPasses(m: DaemonMessage)
    requires m.DisplayPower?
    ensures Validate(DaemonPayload(m), DaemonSchema).None?
  {
    var p := DaemonPayload(m);
    ValidateMeans(p, DaemonSchema);
    var s := DaemonSchema("display_power").value;
    assert s.required[0].name == "state" && s.required[1].name == "output";
  }

  lemma OtherOrdersPass(m: DaemonMessage)
    requires !m.ShowWaiting? && !m.ConnectConsole?
    ensures Validate(DaemonPayload(m), DaemonSchema).None? <==> DaemonSendable(m)
  {
    ValidateMeans(DaemonPayload(m), DaemonSchema);
    match m
    case ConnectSpice(_) => assert DaemonSchema("connect_spice").value.required[0].name == "vv_path";
    case DisconnectConsole(_) => assert DaemonSchema("disconnect_console").value.required[0].name == "reason";
    case DisplayPower(_, _) => DisplayPowerPasses(m);
    case HealthPing =>
  }

  /** The session lets a message of the daemon through exactly when it is sendable. */
  lemma DaemonMessagesPass(m: DaemonMessage)
    ensures Validate(DaemonPayload(m), DaemonSchema).None? <==> DaemonSendable(m)
  {
    match m
    case ShowWaiting(_, _) => ShowWaitingPasses(m);
    case ConnectConsole(_, _, _, _) => ConnectPasses(m);
    case _ => OtherOrdersPass(m);
  }

  lemma StartedPasses(m: SessionMessage)
    requires m.ConsoleStarted?
    ensures Validate(SessionPayload(m), SessionSchema).None? <==> SessionSendable(m)
  {
    ValidateMeans(SessionPayload(m), SessionSchema);
    var s := SessionSchema("console_started").value;
    assert s.required[0].name == "pid" && s.optional[0].name == "backend";
  }

  lemma ExitedPasses(m: SessionMessage)
    requires m.ConsoleExited?
    ensures Validate(SessionPayload(m), SessionSchema).None? <==> SessionSendable(m)
  {
    ValidateMeans(SessionPayload(m), SessionSchema);
    var s := SessionSchema("console_exited").value;
    assert s.required[0].name == "code" && s.required[1].name == "signal" && s.optional[0].name == "backend";
  }

  lemma OtherNewsPasses(m: SessionMessage)
    requires !m.ConsoleStarted? && !m.ConsoleExited?
    ensures Validate(SessionPayload(m), SessionSchema).None? <==> SessionSendable(m)
  {
    ValidateMeans(SessionPayload(m), SessionSchema);
    match m
    case SessionReady =>
    case DisplayPowerApplied(_) => assert SessionSchema("display_power_applied").value.required[0].name == "state";
    case SessionError(_) => assert SessionSchema("session_error").value.required[0].name == "reason";
  }

  /** The daemon lets a message of the session through exactly when it is sendable. */
  lemma SessionMessagesPass(m: SessionMessage)
    ensures Validate(SessionPayload(m), SessionSchema).None? <==> SessionSendable(m)
  {
    match m
    case ConsoleStarted(_, _) => StartedPasses(m);
    case ConsoleExited(_, _, _) => ExitedPasses(m);
    case _ => OtherNewsPasses(m);
  }

  // ------------------------------------------------------------------ what the daemon sends

  /** One of the messages that the daemon makes. */
  predicate Emittable(cfg: AppConfig, m: DaemonMessage) {
    match m
    case ShowWaiting(reason, details) =>
      !reason.OtherReason? && (details.Some? ==>
        && cfg.Backend() == Moonlight && NonBlank(details.value.pin)
        && m == PairWaitingMessage(cfg.console, details.value.pin))
    case ConnectConsole(_, _, argv, _) =>
      || m == LaunchMessage(cfg.console)
      || (cfg.Backend() == Moonlight && |argv| == 5 && NonBlank(argv[4]) && m == PairMessage(cfg.console, argv[4]))
    case DisconnectConsole(reason) => !reason.OtherReason?
    case DisplayPower(_, _) => true
    case _ => false
  }

  predicate AllEmittable(cfg: AppConfig, messages: seq<DaemonMessage>) {
    forall i | 0 <= i < |messages| :: Emittable(cfg, messages[i])
  }

  /** A PIN that is kept is not blank. */
  predicate PinInv(cfg: AppConfig, d: Daemon) {
    PairInv(cfg, d.pairing) && (d.pairing.pin.Some? ==> NonBlank(d.pairing.pin.value))
  }

  /** The step sends what the daemon makes, and leaves a PIN that is not blank. */
  predicate Speaks(cfg: AppConfig, o: Outcome) {
    AllEmittable(cfg, o.messages) && PinInv(cfg, o.daemon)
  }

  lemma DegradedSpeaks(cfg: AppConfig, d: Daemon, reason: Error)
    requires PinInv(cfg, d)
    ensures Speaks(cfg, EnterDegraded(d, reason))
  {
  }

  lemma FailureSpeaks(cfg: AppConfig, d: Daemon, now: int, text: string)
    requires PinInv(cfg, d)
    ensures Speaks(cfg, RecordFailure(d, now, text))
  {
    var t := d.(failures := MoreFailures(d.failures, now),
                report := d.report.(lastError := Some(Reported(text))),
                history := After(d.history, FailureRecorded(now, text)));
    DegradedSpeaks(cfg, t, Reported(text));
  }

  lemma LaunchSpeaks(cfg: AppConfig, d: Daemon, now: int, preparation: Preparation)
    requires PinInv(cfg, d)
    ensures Speaks(cfg, Launch(cfg, d, now, preparation))
  {
    var t := Transition(d, RequestingConsole);
    match preparation
    case EndpointUnavailable(_) =>
    case PreparationInvalid(text) => DegradedSpeaks(cfg, t, PreparationFailed(cfg.Backend(), text));
    case PreparationCommandFailed(text) => FailureSpeaks(cfg, t, now, text);
    case Prepared =>
  }

  predicate PairingSpeaks(cfg: AppConfig, o: PairingOutcome) {
    PinInv(cfg, o.daemon) && (o.PairingBlocked? ==> AllEmittable(cfg, o.messages))
  }

  lemma AwaitSpeaks(cfg: AppConfig, d: Daemon, now: int, pin: string)
    requires PinInv(cfg, d) && cfg.Backend() == Moonlight && NonBlank(pin)
    ensures PairingSpeaks(cfg, AwaitPairing(cfg, d, now, pin))
  {
  }

  lemma HandlePairingSpeaks(cfg: AppConfig, d: Daemon, now: int, p: PairProbe)
    requires PinInv(cfg, d) && cfg.Backend() == Moonlight && NonBlank(p.pin)
    ensures PairingSpeaks(cfg, HandlePairing(cfg, d, now, p))
  {
    if !p.reachable {
      LostSpeaks(cfg, d, now, HostUnreachable);
    } else {
      var t := ClearDeadline(d);
      LostSpeaks(cfg, t, now, PairProbeUnreachable);
      AwaitSpeaks(cfg, t, now, p.pin);
    }
  }

  lemma LostSpeaks(cfg: AppConfig, d: Daemon, now: int, why: Error)
    ensures PairingSpeaks(cfg, HostLost(cfg, d, now, why))
  {
  }

  lemma WhenDueSpeaks(cfg: AppConfig, d: Daemon, now: int, inp: TickInput, paired: bool)
    requires PinInv(cfg, d) && NonBlank(inp.pairing.pin)
    ensures Speaks(cfg, LaunchWhenDue(cfg, d, now, inp, paired))
  {
    if DeadlinePassed(d.reconnect, now) {
      if cfg.Backend() != Moonlight || paired {
        LaunchSpeaks(cfg, d, now, inp.preparation);
      } else {
        HandlePairingSpeaks(cfg, d, now, inp.pairing);
        match HandlePairing(cfg, d, now, inp.pairing) {
          case PairingFailed(t, text) => DegradedSpeaks(cfg, t, PreparationFailed(Moonlight, text));
          case PairingBlocked(_, _) =>
          case PairingReady(t) => LaunchSpeaks(cfg, t, now, inp.preparation);
        }
      }
    }
  }

  lemma ShowSpeaks(cfg: AppConfig, d: Daemon, now: int, inp: TickInput)
    requires PinInv(cfg, d) && NonBlank(inp.pairing.pin)
    ensures Speaks(cfg, ShowConsole(cfg, d, now, inp))
  {
    if !d.console.running {
      WhenDueSpeaks(cfg, d, now, inp, false);
    } else if IsPairingConsole(d) {
      HandlePairingSpeaks(cfg, d, now, inp.pairing);
      match HandlePairing(cfg, d, now, inp.pairing) {
        case PairingFailed(t, text) => DegradedSpeaks(cfg, t, PreparationFailed(Moonlight, text));
        case PairingBlocked(_, _) =>
        case PairingReady(t) => WhenDueSpeaks(cfg, t, now, inp, true);
      }
    }
  }

  lemma ServeSpeaks(cfg: AppConfig, d: Daemon, now: int, v: VmStatus, inp: TickInput, display: seq<DaemonMessage>)
    requires PinInv(cfg, d) && NonBlank(inp.pairing.pin) && AllEmittable(cfg, display)
    ensures Speaks(cfg, Serve(cfg, d, now, v, inp, display))
  {
    if IsOn(v) {
      ShowSpeaks(cfg, d, now, inp);
    }
  }

  lemma LookSpeaks(cfg: AppConfig, d: Daemon, now: int, v: VmStatus)
    requires PinInv(cfg, d)
    ensures Speaks(cfg, UpdateIntent(cfg, RefreshAction(cfg, RefreshStatus(d, now, StatusIs(v)).daemon, now, v), now))
  {
  }

  lemma TickSpeaks(cfg: AppConfig, d: Daemon, now: int, inp: TickInput)
    requires PinInv(cfg, d) && NonBlank(inp.pairing.pin)
    ensures Speaks(cfg, Tick(cfg, d, now, inp))
  {
    if inp.poll.Presses? {
      PressesLeave(cfg, d, now, inp.poll.presses);
    }
    var polled := PollButton(cfg, d, now, inp.poll);
    assert PinInv(cfg, polled);
    if !IsBlocked(polled.mode) {
      match inp.reading {
        case StatusUnreadable(text) => FailureSpeaks(cfg, polled, now, text);
        case StatusIs(v) =>
          LaunchSafety.TickServes(cfg, d, now, inp);
          var b := LaunchSafety.BeforeServe(cfg, d, now, inp);
          LookSpeaks(cfg, polled, now, v);
          ServeSpeaks(cfg, b.daemon, now, v, inp, b.messages);
      }
    }
  }

  lemma ReadySpeaks(cfg: AppConfig, d: Daemon, now: int, reading: StatusReading)
    requires PinInv(cfg, d)
    ensures Speaks(cfg, OnReady(cfg, d, now, reading))
  {
    var t := ResetSession(d, true);
    if !IsBlocked(t.mode) && reading.StatusUnreadable? {
      FailureSpeaks(cfg, t, now, reading.text);
    }
  }

  lemma MessageSpeaks(cfg: AppConfig, d: Daemon, m: SessionMessage, now: int, reading: StatusReading)
    requires PinInv(cfg, d)
    ensures Speaks(cfg, HandleMessage(cfg, d, m, now, reading))
  {
    match m
    case SessionReady => ReadySpeaks(cfg, d, now, reading);
    case SessionError(reason) =>
      DegradedSpeaks(cfg, d.(console := d.console.(running := false, pid := None)), Reported(reason));
    case _ =>
  }

  // ------------------------------------------------------------------ what it makes can be sent

  lemma {:induction false} NonBlankAppend(a: seq<string>, b: seq<string>)
    requires AllNonBlank(a) && AllNonBlank(b)
    ensures AllNonBlank(a + b)
  {
  }

  lemma NonBlankTwo(a: string, b: string)
    requires NonBlank(a) && NonBlank(b)
    ensures AllNonBlank([a, b])
  {
  }

  lemma NonBlankFive(a: string, b: string, c: string, d: string, e: string)
    requires NonBlank(a) && NonBlank(b) && NonBlank(c) && NonBlank(d) && NonBlank(e)
    ensures AllNonBlank([a, b, c, d, e])
  {
  }

  lemma AuthorityNonBlank(host: string, hostIsIPv6: bool, basePort: nat)
    requires IsMoonlightHost(host)
    ensures NonBlank(Authority(host, hostIsIPv6, basePort))
  {
    NonBlankAt(host, 0);
    var a := Authority(host, hostIsIPv6, basePort);
    assert a[0] == host[0] || a[0] == '[';
    NonBlankAt(a, 0);
  }

  lemma ViewerLiterals()
    ensures NonBlank("remote-viewer") && NonBlank("--full-screen")
  {
    NonBlankAt("remote-viewer", 0);
    NonBlankAt("--full-screen", 0);
  }

  lemma LookingGlassLiterals()
    ensures NonBlank("-F") && NonBlank("-S") && NonBlank("-g") && NonBlank("-f") && NonBlank("-s")
  {
    NonBlankAt("-F", 0);
    NonBlankAt("-S", 0);
    NonBlankAt("-g", 0);
    NonBlankAt("-f", 0);
    NonBlankAt("-s", 0);
  }

  lemma StreamLiterals()
    ensures NonBlank("stream") && NonBlank("--resolution") && NonBlank("--display-mode")
    ensures NonBlank("fullscreen") && NonBlank("--quit-after")
  {
    NonBlankAt("stream", 0);
    NonBlankAt("--resolution", 0);
    NonBlankAt("--display-mode", 0);
    NonBlankAt("fullscreen", 0);
    NonBlankAt("--quit-after", 0);
  }

  lemma BackendNonBlank(b: Backend)
    requires !b.OtherBackend?
    ensures NonBlank(BackendName(b))
  {
    NonBlankAt(BackendName(b), 0);
  }

  lemma ReasonNonBlank(r: WaitReason)
    requires !r.OtherReason?
    ensures NonBlank(ReasonText(r))
  {
    NonBlankAt(ReasonText(r), 0);
  }

  lemma LookingGlassNonBlank(c: Console)
    requires c.LookingGlassConsole? && ConsoleParsed(c)
    ensures AllNonBlank(LookingGlassArgv(c))
  {
    LookingGlassLiterals();
    NonBlankAt(c.shmFile, 0);
    var flags := [c.binary] + (if c.fullscreen then ["-F"] else []) + (if c.disableHostScreensaver then ["-S"] else []);
    assert AllNonBlank(flags);
    assert AllNonBlank(["-g", c.renderer, "-f", c.shmFile]);
    NonBlankAppend(flags, ["-g", c.renderer, "-f", c.shmFile]);
    NonBlankAppend(flags + ["-g", c.renderer, "-f", c.shmFile], if c.spiceEnabled then [] else ["-s"]);
  }

  lemma StreamNonBlank(c: Console)
    requires c.MoonlightConsole? && ConsoleParsed(c)
    ensures AllNonBlank(StreamArgv(c))
  {
    AuthorityNonBlank(c.host, c.hostIsIPv6, c.basePort);
    StreamPartsNonBlank(c, HostAuthority(c));
  }

  lemma StreamPartsNonBlank(c: Console, authority: string)
    requires c.MoonlightConsole? && ConsoleParsed(c) && authority == HostAuthority(c) && NonBlank(authority)
    ensures AllNonBlank(StreamArgv(c))
  {
    StreamLiterals();
    var first := [c.binary, "stream", authority, c.app];
    var second := if c.resolution.Some? then ["--resolution", c.resolution.value] else [];
    var third := ["--display-mode", "fullscreen"];
    NonBlankTwo(c.binary, "stream");
    NonBlankTwo(authority, c.app);
    NonBlankAppend([c.binary, "stream"], [authority, c.app]);
    assert first == [c.binary, "stream"] + [authority, c.app];
    if c.resolution.Some? {
      NonBlankTwo("--resolution", c.resolution.value);
    }
    NonBlankTwo("--display-mode", "fullscreen");
    NonBlankAppend(first, second);
    NonBlankAppend(first + second, third);
    NonBlankAppend(first + second + third, if c.quitAppAfterSession then ["--quit-after"] else []);
  }

  lemma SpiceSendable(c: Console)
    requires c.SpiceConsole? && ConsoleParsed(c)
    ensures DaemonSendable(LaunchMessage(c))
  {
    ViewerLiterals();
    BackendNonBlank(Spice);
    NonBlankAt(c.vvPath, 0);
  }

  lemma UriNonBlank(rest: string)
    ensures NonBlank("vnc://" + rest)
  {
    assert ("vnc://" + rest)[0] == 'v';
    NonBlankAt("vnc://" + rest, 0);
  }

  lemma VncSendable(c: Console)
    requires c.VncConsole? && ConsoleParsed(c)
    ensures DaemonSendable(LaunchMessage(c))
  {
    var uri := LaunchMessage(c).argv[2];
    assert NonBlank(uri) by {
      var rest := c.bindHost + ":" + NatToString(5900 + c.displayNumber);
      assert uri == "vnc://" + rest;
      UriNonBlank(rest);
    }
    VncArgvNonBlank(c.viewer, uri);
    assert LaunchMessage(c).argv == [c.viewer, "--full-screen", uri];
    BackendNonBlank(Vnc);
  }

  lemma VncArgvNonBlank(viewer: string, uri: string)
    requires viewer == "remote-viewer" && NonBlank(uri)
    ensures NonBlank(viewer) && AllNonBlank([viewer, "--full-screen", uri])
  {
    ViewerLiterals();
  }

  lemma LookingGlassSendable(c: Console)
    requires c.LookingGlassConsole? && ConsoleParsed(c)
    ensures DaemonSendable(LaunchMessage(c))
  {
    LookingGlassNonBlank(c);
    BackendNonBlank(LookingGlass);
  }

  lemma MoonlightSendable(c: Console)
    requires c.MoonlightConsole? && ConsoleParsed(c)
    ensures DaemonSendable(LaunchMessage(c))
  {
    StreamNonBlank(c);
    BackendNonBlank(Moonlight);
    NonBlankAt(c.stateDir, 0);
  }

  lemma LaunchSendable(c: Console)
    requires ConsoleParsed(c)
    ensures DaemonSendable(LaunchMessage(c))
  {
    match c
    case SpiceConsole(_) => SpiceSendable(c);
    case VncConsole(_, _, _) => VncSendable(c);
    case LookingGlassConsole(_, _, _, _, _, _) => LookingGlassSendable(c);
    case MoonlightConsole(_, _, _, _, _, _, _, _) => MoonlightSendable(c);
  }

  lemma PairSendable(c: Console, pin: string)
    requires ConsoleParsed(c) && c.MoonlightConsole? && NonBlank(pin)
    ensures DaemonSendable(PairMessage(c, pin))
  {
    NonBlankAt("pair", 0);
    NonBlankAt("--pin", 0);
    BackendNonBlank(Moonlight);
    NonBlankAt(c.stateDir, 0);
    AuthorityNonBlank(c.host, c.hostIsIPv6, c.basePort);
    var authority := HostAuthority(c);
    NonBlankFive(c.binary, "pair", authority, "--pin", pin);
  }

  lemma InstructionsNonBlank()
    ensures NonBlank(PAIRING_INSTRUCTIONS)
  {
    var last := |PAIRING_INSTRUCTIONS| - 1;
    assert PAIRING_INSTRUCTIONS[last] == '.';
  }

  lemma PairWaitingSendable(c: Console, pin: string)
    requires ConsoleParsed(c) && c.MoonlightConsole? && NonBlank(pin)
    ensures DaemonSendable(PairWaitingMessage(c, pin))
  {
    ReasonNonBlank(PairingRequired);
    NonBlankAt("moonlight", 0);
    InstructionsNonBlank();
    AuthorityNonBlank(c.host, c.hostIsIPv6, c.basePort);
  }

  lemma EmittableIsSendable(cfg: AppConfig, m: DaemonMessage)
    requires Parsed(cfg) && Emittable(cfg, m)
    ensures DaemonSendable(m)
  {
    match m
    case ShowWaiting(reason, details) =>
      ReasonNonBlank(reason);
      if details.Some? {
        PairWaitingSendable(cfg.console, details.value.pin);
      }
    case ConnectConsole(_, _, argv, _) =>
      LaunchSendable(cfg.console);
      if m != LaunchMessage(cfg.console) {
        PairSendable(cfg.console, argv[4]);
      }
    case DisconnectConsole(reason) => ReasonNonBlank(reason);
    case DisplayPower(_, _) =>
  }

  // ------------------------------------------------------------------ over runs

  /** The PIN generator gives a PIN that is not blank. */
  predicate PinsGiven(steps: seq<Step>) {
    forall i | 0 <= i < |steps| :: steps[i].TickStep? ==> NonBlank(steps[i].inp.pairing.pin)
  }

  lemma StepSpeaks(cfg: AppConfig, d: Daemon, step: Step)
    requires PinInv(cfg, d) && (step.TickStep? ==> NonBlank(step.inp.pairing.pin))
    ensures Speaks(cfg, Take(cfg, d, step))
  {
    match step
    case TickStep(now, inp) => TickSpeaks(cfg, d, now, inp);
    case MessageStep(now, m, reading) => MessageSpeaks(cfg, d, m, now, reading);
    case DisconnectStep =>
  }

  lemma {:induction false} RunKeepsPin(cfg: AppConfig, l: Launching, steps: seq<Step>)
    requires PinsGiven(steps)
    ensures PinInv(cfg, Run(cfg, l, steps))
  {
    if steps != [] {
      var before := steps[..|steps| - 1];
      assert PinsGiven(before);
      RunKeepsPin(cfg, l, before);
      StepSpeaks(cfg, Run(cfg, l, before), steps[|steps| - 1]);
    }
  }

  /** The session lets the message through and reads it as what it is. */
  predicate Arrives(m: DaemonMessage) {
    Validate(DaemonPayload(m), DaemonSchema).None? && ReadDaemonMessage(DaemonPayload(m)) == Some(m)
  }

  predicate Understood(messages: seq<DaemonMessage>) {
    forall i | 0 <= i < |messages| :: Arrives(messages[i])
  }

  lemma UnderstoodAppend(a: seq<DaemonMessage>, b: seq<DaemonMessage>)
    requires Understood(a) && Understood(b)
    ensures Understood(a + b)
  {
    forall i | 0 <= i < |a + b| ensures Arrives((a + b)[i]) {
      assert (a + b)[i] == if i < |a| then a[i] else b[i - |a|];
    }
  }

  lemma EmittableIsPlain(cfg: AppConfig, m: DaemonMessage)
    requires Emittable(cfg, m)
    ensures IsPlain(m)
  {
    match m
    case ShowWaiting(reason, _) => KnownNames(reason, Spice);
    case DisconnectConsole(reason) => KnownNames(reason, Spice);
    case ConnectConsole(backend, _, _, _) => KnownNames(Connecting, backend);
    case _ =>
  }

  lemma EmittableArrives(cfg: AppConfig, m: DaemonMessage)
    requires Parsed(cfg) && Emittable(cfg, m)
    ensures Arrives(m)
  {
    EmittableIsSendable(cfg, m);
    DaemonMessagesPass(m);
    EmittableIsPlain(cfg, m);
    DaemonMessagesArrive(m);
  }

  lemma StepUnderstood(cfg: AppConfig, messages: seq<DaemonMessage>)
    requires Parsed(cfg) && AllEmittable(cfg, messages)
    ensures Understood(messages)
  {
    forall i | 0 <= i < |messages| ensures Arrives(messages[i]) {
      EmittableArrives(cfg, messages[i]);
    }
  }

  /** Over every run with a parsed configuration, every message of the daemon arrives at the session as what it is. */
  lemma {:induction false} DaemonIsUnderstood(cfg: AppConfig, l: Launching, steps: seq<Step>)
    requires Parsed(cfg) && PinsGiven(steps)
    ensures Understood(LaunchSafety.Sent(cfg, l, steps))
  {
    if steps != [] {
      var before, step := steps[..|steps| - 1], steps[|steps| - 1];
      assert PinsGiven(before);
      DaemonIsUnderstood(cfg, l, before);
      RunKeepsPin(cfg, l, before);
      var o := Take(cfg, Run(cfg, l, before), step);
      assert Speaks(cfg, o) by {
        StepSpeaks(cfg, Run(cfg, l, before), step);
      }
      StepUnderstood(cfg, o.messages);
      UnderstoodAppend(LaunchSafety.Sent(cfg, l, before), o.messages);
    }
  }

  /** The session only ever runs the configured backend. */
  predicate BackendInv(cfg: AppConfig, s: Session) {
    s.backend.Some? ==> s.backend.value == cfg.Backend()
  }

  lemma RefusalNonBlank(cfg: AppConfig, b: Backend, launcher: string, argv: seq<string>)
    requires argv != []
    ensures NonBlank(RefusalText(cfg, b, launcher, argv))
  {
    var text := RefusalText(cfg, b, launcher, argv);
    assert text[0] == 'i';
    NonBlankAt(text, 0);
  }

  lemma LaunchErrorNonBlank(b: Backend, reason: string)
    ensures NonBlank(LaunchErrorText(b, reason))
  {
    var text := LaunchErrorText(b, reason);
    assert text[0] == 'v';
    NonBlankAt(text, 0);
  }

  predicate NamesKnown(backend: Option<Backend>) {
    backend.Some? ==> !backend.value.OtherBackend?
  }

  /** A message that can be sent and names no backend but a known one. */
  predicate SessionEmittable(m: SessionMessage) {
    && SessionSendable(m)
    && (m.ConsoleStarted? ==> NamesKnown(m.backend)) && (m.ConsoleExited? ==> NamesKnown(m.backend))
  }

  /** The session answers with such messages, and keeps to the configured backend. */
  predicate Answers(cfg: AppConfig, o: SessionOutcome) {
    BackendInv(cfg, o.session) && forall i | 0 <= i < |o.messages| :: SessionEmittable(o.messages[i])
  }

  lemma AnswersWith(cfg: AppConfig, o: SessionOutcome, m: SessionMessage)
    requires BackendInv(cfg, o.session) && o.messages == [m] && SessionEmittable(m)
    ensures Answers(cfg, o)
  {
  }

  lemma StartAnswers(cfg: AppConfig, o: SessionOutcome, pid: int, legacy: bool)
    requires BackendInv(cfg, o.session)
    requires o.messages == [ConsoleStarted(pid, if legacy then None else Some(cfg.Backend()))]
    ensures Answers(cfg, o)
  {
    BackendNonBlank(cfg.Backend());
    AnswersWith(cfg, o, o.messages[0]);
  }

  lemma LaunchAnswers(
    cfg: AppConfig, s: Session, b: Backend, launcher: string, argv: seq<string>, legacy: bool, launch: LaunchResult)
    requires BackendInv(cfg, s) && argv != []
    ensures Answers(cfg, LaunchConsole(cfg, s, b, launcher, argv, legacy, launch))
  {
    var o := LaunchConsole(cfg, s, b, launcher, argv, legacy, launch);
    if !Permitted(cfg, b, launcher, argv) {
      RefusalNonBlank(cfg, b, launcher, argv);
      AnswersWith(cfg, o, SessionError(RefusalText(cfg, b, launcher, argv)));
    } else {
      match launch {
        case LaunchError(text) =>
          LaunchErrorNonBlank(b, text);
          AnswersWith(cfg, o, SessionError(LaunchErrorText(b, text)));
        case Started(pid) => StartAnswers(cfg, o, pid, legacy);
      }
    }
  }

  lemma SessionSpeaks(cfg: AppConfig, s: Session, step: SessionStep)
    requires BackendInv(cfg, s)
    ensures Answers(cfg, TakeSession(cfg, s, step))
  {
    BackendNonBlank(cfg.Backend());
    if step.Deliver? {
      match step.message {
        case ConnectConsole(b, launcher, argv, _) =>
          if argv != [] {
            LaunchAnswers(cfg, s, b, launcher, argv, false, step.effects.launch);
          }
        case ConnectSpice(vvPath) =>
          LaunchAnswers(cfg, s, Spice, REMOTE_VIEWER, [REMOTE_VIEWER, "--full-screen", vvPath], true, step.effects.launch);
        case _ =>
      }
    }
  }

  /** The daemon lets the message through and reads it as what it is. */
  predicate SessionArrives(m: SessionMessage) {
    Validate(SessionPayload(m), SessionSchema).None? && ReadSessionMessage(SessionPayload(m)) == Some(m)
  }

  lemma SessionEmittableArrives(m: SessionMessage)
    requires SessionEmittable(m)
    ensures SessionArrives(m)
  {
    SessionMessagesPass(m);
    if (m.ConsoleStarted? || m.ConsoleExited?) && m.backend.Some? {
      KnownNames(Connecting, m.backend.value);
    }
    SessionMessagesArrive(m);
  }

  /** Over every run of the session, every message of the session arrives at the daemon as what it is. */
  lemma {:induction false} SessionIsUnderstood(cfg: AppConfig, steps: seq<SessionStep>)
    ensures
      var o := RunSession(cfg, steps);
      BackendInv(cfg, o.session) && forall i | 0 <= i < |o.messages| :: SessionArrives(o.messages[i])
  {
    if steps != [] {
      var before, step := steps[..|steps| - 1], steps[|steps| - 1];
      SessionIsUnderstood(cfg, before);
      SessionSpeaks(cfg, RunSession(cfg, before).session, step);
      var p := TakeSession(cfg, RunSession(cfg, before).session, step);
      forall i | 0 <= i < |p.messages| ensures SessionArrives(p.messages[i]) {
        SessionEmittableArrives(p.messages[i]);
      }
    }
  }
}
