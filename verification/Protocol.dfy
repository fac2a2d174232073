/** The protocol between the processes: payloads, the schema of each message and the check both sides make. */
module Protocol {
  import opened Wrappers
  import opened Config
  import opened Messages

  datatype Json =
    | JNull
    | JBool(flag: bool)
    | JInt(number: int)
    | JString(text: string)
    | JList(items: seq<Json>)
    | JDict(fields: map<string, Json>)

  /** A decoded message: a JSON object. */
  type Payload = map<string, Json>

  // ------------------------------------------------------------------ the checks of single fields

  datatype Check = AnInteger | AString | ANonEmptyString | AStringList | AnAbsolutePath | APowerState | AStringDict

  predicate IsNonEmptyString(j: Json) {
    j.JString? && NonBlank(j.text)
  }

  predicate Accepts(c: Check, j: Json) {
    match c
    case AnInteger => j.JInt?
    case AString => j.JString?
    case ANonEmptyString => IsNonEmptyString(j)
    case AStringList => j.JList? && j.items != [] && forall i | 0 <= i < |j.items| :: IsNonEmptyString(j.items[i])
    case AnAbsolutePath => IsNonEmptyString(j) && IsAbsolutePath(j.text)
    case APowerState => j == JString("on") || j == JString("off")
    case AStringDict =>
      && j.JDict? && j.fields != map[]
      && forall k | k in j.fields :: NonBlank(k) && IsNonEmptyString(j.fields[k])
  }

  // ------------------------------------------------------------------ the schemas

  datatype Field = Field(name: string, check: Check)

  datatype Schema = Schema(required: seq<Field>, optional: seq<Field>)

  function DaemonSchema(kind: string): Option<Schema> {
    if kind == "show_waiting" then
      Some(Schema([Field("reason", ANonEmptyString)], [Field("details", AStringDict)]))
    else if kind == "connect_console" then
      Some(Schema([Field("backend", ANonEmptyString), Field("launcher", ANonEmptyString), Field("argv", AStringList)],
                  [Field("cwd", AnAbsolutePath)]))
    else if kind == "connect_spice" then Some(Schema([Field("vv_path", ANonEmptyString)], []))
    else if kind == "disconnect_console" then Some(Schema([Field("reason", ANonEmptyString)], []))
    else if kind == "display_power" then Some(Schema([Field("state", APowerState), Field("output", AString)], []))
    else if kind == "health_ping" then Some(Schema([], []))
    else None
  }

  function SessionSchema(kind: string): Option<Schema> {
    if kind == "session_ready" then Some(Schema([], []))
    else if kind == "console_started" then
      Some(Schema([Field("pid", AnInteger)], [Field("backend", ANonEmptyString)]))
    else if kind == "console_exited" then
      Some(Schema([Field("code", AnInteger), Field("signal", AnInteger)], [Field("backend", ANonEmptyString)]))
    else if kind == "display_power_applied" then Some(Schema([Field("state", APowerState)], []))
    else if kind == "session_error" then Some(Schema([Field("reason", ANonEmptyString)], []))
    else None
  }

  // ------------------------------------------------------------------ the check of a message

  datatype Rejection =
    | NoType
    | UnsupportedType(kind: string)
    | UnexpectedFields
    | MissingField(name: string)
    | InvalidField(name: string)

  predicate Names(fields: seq<Field>, name: string) {
    exists i | 0 <= i < |fields| :: fields[i].name == name
  }

  /** The first required field that is missing or not as it should be. */
  function CheckRequired(p: Payload, fields: seq<Field>): Option<Rejection> {
    if fields == [] then None
    else if fields[0].name !in p then Some(MissingField(fields[0].name))
    else if !Accepts(fields[0].check, p[fields[0].name]) then Some(InvalidField(fields[0].name))
    else CheckRequired(p, fields[1..])
  }

  function CheckOptional(p: Payload, fields: seq<Field>): Option<Rejection> {
    if fields == [] then None
    else if fields[0].name in p && !Accepts(fields[0].check, p[fields[0].name]) then Some(InvalidField(fields[0].name))
    else CheckOptional(p, fields[1..])
  }

  /** Why the message is refused, if it is. */
  function Validate(p: Payload, schemaOf: string -> Option<Schema>): Option<Rejection> {
    if "type" !in p || !p["type"].JString? then Some(NoType)
    else
      match schemaOf(p["type"].text)
      case None => Some(UnsupportedType(p["type"].text))
      case Some(schema) =>
        if exists k | k in p :: k != "type" && !Names(schema.required, k) && !Names(schema.optional, k) then
          Some(UnexpectedFields)
        else
          match CheckRequired(p, schema.required)
          case Some(r) => Some(r)
          case None => CheckOptional(p, schema.optional)
  }

  /** What the schema asks for, field by field. */
  ghost predicate Conforms(p: Payload, schema: Schema) {
    && (forall k | k in p :: k == "type" || Names(schema.required, k) || Names(schema.optional, k))
    && (forall i | 0 <= i < |schema.required| ::
          schema.required[i].name in p && Accepts(schema.required[i].check, p[schema.required[i].name]))
    && (forall i | 0 <= i < |schema.optional| ::
          schema.optional[i].name in p ==> Accepts(schema.optional[i].check, p[schema.optional[i].name]))
  }

  lemma {:induction false} RequiredMeans(p: Payload, fields: seq<Field>)
    ensures CheckRequired(p, fields).None?
       <==> forall i | 0 <= i < |fields| :: fields[i].name in p && Accepts(fields[i].check, p[fields[i].name])
  {
    if fields != [] {
      RequiredMeans(p, fields[1..]);
      assert forall i | 0 < i < |fields| :: fields[i] == fields[1..][i - 1];
      assert forall i | 0 <= i < |fields[1..]| :: fields[1..][i] == fields[i + 1];
    }
  }

  lemma {:induction false} OptionalMeans(p: Payload, fields: seq<Field>)
    ensures CheckOptional(p, fields).None?
       <==> forall i | 0 <= i < |fields| :: fields[i].name in p ==> Accepts(fields[i].check, p[fields[i].name])
  {
    if fields != [] {
      OptionalMeans(p, fields[1..]);
      assert forall i | 0 < i < |fields| :: fields[i] == fields[1..][i - 1];
      assert forall i | 0 <= i < |fields[1..]| :: fields[1..][i] == fields[i + 1];
    }
  }

  /** A message is let through exactly when its type is known and its fields are as the schema of the type asks. */
  lemma ValidateMeans(p: Payload, schemaOf: string -> Option<Schema>)
    ensures Validate(p, schemaOf).None?
       <==> && "type" in p && p["type"].JString?
            && schemaOf(p["type"].text).Some? && Conforms(p, schemaOf(p["type"].text).value)
  {
    if "type" in p && p["type"].JString? && schemaOf(p["type"].text).Some? {
      var schema := schemaOf(p["type"].text).value;
      RequiredMeans(p, schema.required);
      OptionalMeans(p, schema.optional);
    }
  }

  // ------------------------------------------------------------------ the messages as payloads

  function ReasonText(r: WaitReason): string {
    match r
    case Connecting => "connecting"
    case VmStopped => "vm_stopped"
    case PairingRequired => "pairing_required"
    case Reconnecting => "reconnecting"
    case DegradedWait => "degraded"
    case VmNotRunning => "vm_not_running"
    case ControlError => "control_error"
    case OtherReason(text) => text
  }

  function PowerText(p: Power): string {
    if p == On then "on" else "off"
  }

  function DetailsJson(d: Details): Json {
    JDict(map["backend" := JString(d.backend), "host" := JString(d.host), "pin" := JString(d.pin),
              "instructions" := JString(d.instructions)])
  }

  function Strings(texts: seq<string>): seq<Json> {
    seq(|texts|, i requires 0 <= i < |texts| => JString(texts[i]))
  }

  function DaemonPayload(m: DaemonMessage): Payload {
    match m
    case ShowWaiting(reason, details) =>
      var p := map["type" := JString("show_waiting"), "reason" := JString(ReasonText(reason))];
      if details.Some? then p["details" := DetailsJson(details.value)] else p
    case ConnectConsole(backend, launcher, argv, cwd) =>
      var p := map["type" := JString("connect_console"), "backend" := JString(BackendName(backend)),
                   "launcher" := JString(launcher), "argv" := JList(Strings(argv))];
      if cwd.Some? then p["cwd" := JString(cwd.value)] else p
    case ConnectSpice(vvPath) => map["type" := JString("connect_spice"), "vv_path" := JString(vvPath)]
    case DisconnectConsole(reason) =>
      map["type" := JString("disconnect_console"), "reason" := JString(ReasonText(reason))]
    case DisplayPower(state, output) =>
      map["type" := JString("display_power"), "state" := JString(PowerText(state)), "output" := JString(output)]
    case HealthPing => map["type" := JString("health_ping")]
  }

  function SessionPayload(m: SessionMessage): Payload {
    match m
    case SessionReady => map["type" := JString("session_ready")]
    case ConsoleStarted(pid, backend) =>
      var p := map["type" := JString("console_started"), "pid" := JInt(pid)];
      if backend.Some? then p["backend" := JString(BackendName(backend.value))] else p
    case ConsoleExited(code, signal, backend) =>
      var p := map["type" := JString("console_exited"), "code" := JInt(code), "signal" := JInt(signal)];
      if backend.Some? then p["backend" := JString(BackendName(backend.value))] else p
    case DisplayPowerApplied(state) =>
      map["type" := JString("display_power_applied"), "state" := JString(PowerText(state))]
    case SessionError(reason) => map["type" := JString("session_error"), "reason" := JString(reason)]
  }

  // ------------------------------------------------------------------ which messages pass

  predicate AllNonBlank(texts: seq<string>) {
    forall i | 0 <= i < |texts| :: NonBlank(texts[i])
  }

  /** The texts of the message are not blank and its path is absolute. */
  predicate DaemonSendable(m: DaemonMessage) {
    match m
    case ShowWaiting(reason, details) =>
      && NonBlank(ReasonText(reason))
      && (details.Some? ==>
            && NonBlank(details.value.backend) && NonBlank(details.value.host)
            && NonBlank(details.value.pin) && NonBlank(details.value.instructions))
    case ConnectConsole(backend, launcher, argv, cwd) =>
      && NonBlank(BackendName(backend)) && NonBlank(launcher) && argv != [] && AllNonBlank(argv)
      && (cwd.Some? ==> NonBlank(cwd.value) && IsAbsolutePath(cwd.value))
    case ConnectSpice(vvPath) => NonBlank(vvPath)
    case DisconnectConsole(reason) => NonBlank(ReasonText(reason))
    case DisplayPower(_, _) => true
    case HealthPing => true
  }

  predicate SessionSendable(m: SessionMessage) {
    match m
    case ConsoleStarted(_, backend) => backend.Some? ==> NonBlank(BackendName(backend.value))
    case ConsoleExited(_, _, backend) => backend.Some? ==> NonBlank(BackendName(backend.value))
    case SessionError(reason) => NonBlank(reason)
    case _ => true
  }
}
