/** What a Moonlight settings file says, line by line, and what rewriting its host means. */
module WorkspaceModel {
  import opened Wrappers
  import opened Text

  /** The sections of a settings file, as far as anyone looks at them. `Root` precedes the first header. */
  datatype Section = Root | General | HostsBackup | Hosts | Unrelated

  function ToSection(name: string): Section {
    if name == "general" then General
    else if name == "hostsbackup" then HostsBackup
    else if name == "hosts" then Hosts
    else Unrelated
  }

  predicate IsHostSection(section: Section) {
    section.HostsBackup? || section.Hosts?
  }

  /** One stored host: the number in front of `\hostname`, `\srvcert` and so on, in its section. */
  datatype RecordKey = RecordKey(section: Section, index: nat)

  /** The fields of a stored host that the code knows by name. */
  datatype Field =
    | HostName
    | ManualAddress | ManualPort
    | LocalAddress | LocalPort
    | RemoteAddress | RemotePort
    | Ipv6Address | Ipv6Port
    | SrvCert
    | OtherField(name: string)

  function ToField(name: string): Field {
    if name == "hostname" then HostName
    else if name == "manualaddress" then ManualAddress
    else if name == "manualport" then ManualPort
    else if name == "localaddress" then LocalAddress
    else if name == "localport" then LocalPort
    else if name == "remoteaddress" then RemoteAddress
    else if name == "remoteport" then RemotePort
    else if name == "ipv6address" then Ipv6Address
    else if name == "ipv6port" then Ipv6Port
    else if name == "srvcert" then SrvCert
    else OtherField(name)
  }

  function FieldName(field: Field): string {
    match field
    case HostName => "hostname"
    case ManualAddress => "manualaddress"
    case ManualPort => "manualport"
    case LocalAddress => "localaddress"
    case LocalPort => "localport"
    case RemoteAddress => "remoteaddress"
    case RemotePort => "remoteport"
    case Ipv6Address => "ipv6address"
    case Ipv6Port => "ipv6port"
    case SrvCert => "srvcert"
    case OtherField(name) => name
  }

  datatype EntryKey = EntryKey(record: RecordKey, field: Field)

  /** What a line is, whatever section it stands in. A setting may have the form of a host field. */
  datatype LineShape =
    | Header(section: Section)
    | Ignored
    | Setting(name: string, value: string, host: Option<HostField>)

  datatype HostField = HostField(index: nat, field: Field)

  /** A line of a file together with what it is. */
  datatype Line = Line(raw: string, shape: LineShape)

  predicate IsHeader(line: string) {
    line != "" && line[0] == '[' && line[|line| - 1] == ']'
  }

  function Shape(raw: string): LineShape {
    StrippedShape(Strip(raw))
  }

  function StrippedShape(line: string): LineShape {
    if IsHeader(line) then Header(ToSection(Lower(Strip(line[1..|line| - 1]))))
    else if line == "" || line[0] == '#' || line[0] == ';' then Ignored
    else SettingShape(line)
  }

  function SettingShape(line: string): LineShape {
    var cut := IndexOf(line, '=');
    if cut == |line| then Ignored
    else KeyedSetting(Strip(line[..cut]), Strip(line[cut + 1..]))
  }

  function KeyedSetting(key: string, value: string): LineShape {
    Setting(Lower(key), value, ParseKey(key))
  }

  /** The index of the first `/` or `\`, or the length. */
  function SeparatorIndex(s: string): (i: nat)
    ensures i <= |s|
    ensures forall j | 0 <= j < i :: s[j] != '/' && s[j] != '\\'
    ensures i < |s| ==> s[i] == '/' || s[i] == '\\'
  {
    if s == "" || s[0] == '/' || s[0] == '\\' then 0 else 1 + SeparatorIndex(s[1..])
  }

  /** A key of the form digits, separator, word characters: the record index and the folded field name. */
  function ParseKey(key: string): Option<HostField> {
    var cut := SeparatorIndex(key);
    if 0 < cut < |key| - 1 && AllDigits(key[..cut]) && AllWordChars(key[cut + 1..])
    then Some(HostField(ParseNat(key[..cut]), ToField(Lower(key[cut + 1..]))))
    else None
  }

  function Classified(raw: string): Line {
    Line(raw, Shape(raw))
  }

  function Lines(raws: seq<string>): (r: seq<Line>)
    ensures |r| == |raws|
    ensures forall i | 0 <= i < |raws| :: r[i] == Classified(raws[i])
  {
    seq(|raws|, i requires 0 <= i < |raws| => Classified(raws[i]))
  }

  function Raws(lines: seq<Line>): (r: seq<string>)
    ensures |r| == |lines|
    ensures forall i | 0 <= i < |lines| :: r[i] == lines[i].raw
  {
    seq(|lines|, i requires 0 <= i < |lines| => lines[i].raw)
  }

  /** What a line does, given the section it stands in. */
  datatype LineEffect =
    | Enters(section: Section)
    | Sets(key: EntryKey, pins: bool)
    | SetsRoot(name: string, value: string)
    | NoEffect

  function EffectOf(section: Section, line: Line): (e: LineEffect)
    ensures e.Sets? ==> e.key.record.section == section && IsHostSection(section)
    ensures e.Sets? && e.pins ==> e.key.field.SrvCert?
  {
    match line.shape
    case Header(s) => Enters(s)
    case Ignored => NoEffect
    case Setting(name, value, host) =>
      if section.Root? || section.General? then SetsRoot(name, value)
      else if section.Unrelated? || host.None? then NoEffect
      else
        var HostField(index, field) := host.value;
        Sets(EntryKey(RecordKey(section, index), field), field.SrvCert? && value != "")
  }

  /**
   * The meaning of a file: the active section at its end, the last line that sets each host
   * field, the hosts with a certificate, and the settings outside the host lists.
   */
  datatype Contents = Contents(
    section: Section,
    lines: map<EntryKey, Line>,
    pinned: set<RecordKey>,
    root: map<string, string>)

  const EMPTY := Contents(Root, map[], {}, map[])

  function Apply(c: Contents, e: LineEffect, line: Line): Contents {
    match e
    case Enters(section) => c.(section := section)
    case Sets(k, pins) => c.(lines := c.lines[k := line], pinned := if pins then c.pinned + {k.record} else c.pinned)
    case SetsRoot(name, value) => c.(root := c.root[name := value])
    case NoEffect => c
  }

  function ReadFrom(c: Contents, lines: seq<Line>): Contents {
    if lines == [] then c
    else
      var before := ReadFrom(c, lines[..|lines| - 1]);
      var line := lines[|lines| - 1];
      Apply(before, EffectOf(before.section, line), line)
  }

  function Read(lines: seq<Line>): Contents {
    ReadFrom(EMPTY, lines)
  }

  /** The value a line sets. */
  function ValueOf(line: Line): string {
    if line.shape.Setting? then line.shape.value else ""
  }

  lemma {:induction false} ReadFromAppend(c: Contents, a: seq<Line>, b: seq<Line>)
    ensures ReadFrom(c, a + b) == ReadFrom(ReadFrom(c, a), b)
  {
    if b == [] {
      assert a + b == a;
    } else {
      assert (a + b)[..|a + b| - 1] == a + b[..|b| - 1];
      ReadFromAppend(c, a, b[..|b| - 1]);
    }
  }

  lemma {:induction false} ReadSnoc(c: Contents, before: seq<Line>, line: Line)
    ensures var d := ReadFrom(c, before); ReadFrom(c, before + [line]) == Apply(d, EffectOf(d.section, line), line)
  {
    assert (before + [line])[..|before|] == before;
  }

  lemma ReadNext(lines: seq<Line>, i: nat)
    requires i < |lines|
    ensures var c := Read(lines[..i]);
            Read(lines[..i + 1]) == Apply(c, EffectOf(c.section, lines[i]), lines[i])
  {
    ReadSnoc(EMPTY, lines[..i], lines[i]);
    assert lines[..i] + [lines[i]] == lines[..i + 1];
  }

  // ------------------------------------------------------------------ what a rewrite means

  const REQUIRED: seq<Field> := [HostName, ManualAddress, ManualPort]
  const STALE: seq<Field> := [LocalAddress, RemoteAddress, Ipv6Address, LocalPort, RemotePort, Ipv6Port]

  /** The value a rewrite gives to a field of a paired host. */
  function Target(host: string, port: nat, field: Field): Option<string> {
    match field
    case HostName => Some(host)
    case ManualAddress => Some(host)
    case ManualPort => Some(NatToString(port))
    case SrvCert => None
    case OtherField(_) => None
    case _ => Some("")
  }

  function RenderedName(k: EntryKey): string {
    NatToString(k.record.index) + "\\" + FieldName(k.field)
  }

  function Render(k: EntryKey, value: string): string {
    RenderedName(k) + "=" + value
  }

  /** A rendered line, with what it is when it is read back (`RenderReadsBack`). */
  function TargetLine(host: string, port: nat, k: EntryKey): Line
    requires Target(host, port, k.field).Some?
  {
    var value := Target(host, port, k.field).value;
    Line(Render(k, value),
         Setting(RenderedName(k), value, Some(HostField(k.record.index, k.field))))
  }

  function RequiredKeys(records: set<RecordKey>): set<EntryKey> {
    set r, f | r in records && f in REQUIRED :: EntryKey(r, f)
  }

  /**
   * The simple form of the rewrite: every host with a certificate gets the configured host name,
   * manual address and port, keeps the other address and port fields it has but empties them,
   * and nothing else changes.
   */
  function Renamed(c: Contents, host: string, port: nat): Contents {
    c.(lines :=
      map k | k in c.lines.Keys + RequiredKeys(c.pinned) ::
        if k.record in c.pinned && Target(host, port, k.field).Some?
        then TargetLine(host, port, k)
        else if k in c.lines then c.lines[k] else Line("", Ignored))
  }

  // ------------------------------------------------------------------ where the rewrite edits

  /**
   * The bookkeeping of the rewriter after a prefix of the file: the active section after each
   * line and the entry each line sets, where each host section ends, the hosts in the order they
   * are met, the last line of each field, and the hosts with a certificate.
   */
  datatype Survey = Survey(
    sections: seq<Section>,
    entries: seq<Option<EntryKey>>,
    ends: map<Section, nat>,
    order: seq<RecordKey>,
    index: map<EntryKey, nat>,
    paired: set<RecordKey>)
  {
    function Active(): Section {
      if sections == [] then Root else sections[|sections| - 1]
    }
  }

  const UNSURVEYED := Survey([], [], map[], [], map[], {})

  function Note(s: Survey, e: LineEffect): Survey {
    var i := |s.sections|;
    var active := if e.Enters? then e.section else s.Active();
    var t := s.(
      sections := s.sections + [active],
      entries := s.entries + [if e.Sets? then Some(e.key) else None],
      ends := if IsHostSection(active) && (e.Enters? ==> active !in s.ends) then s.ends[active := i + 1] else s.ends);
    match e
    case Sets(k, pins) =>
      t.(order := if k.record in s.order then s.order else s.order + [k.record],
         index := s.index[k := i],
         paired := if pins then s.paired + {k.record} else s.paired)
    case _ => t
  }

  function SurveyOf(lines: seq<Line>): Survey {
    if lines == [] then UNSURVEYED
    else
      var before := SurveyOf(lines[..|lines| - 1]);
      Note(before, EffectOf(before.Active(), lines[|lines| - 1]))
  }

  lemma {:induction false} SurveySnoc(before: seq<Line>, line: Line)
    ensures var s := SurveyOf(before); SurveyOf(before + [line]) == Note(s, EffectOf(s.Active(), line))
  {
    assert (before + [line])[..|before|] == before;
  }

  /** Line `i` is the last of its field in a paired host, and the rewrite sets that field. */
  predicate Edited(s: Survey, host: string, port: nat, i: nat)
    requires i < |s.entries|
  {
    match s.entries[i]
    case Some(k) =>
      k in s.index && s.index[k] == i && k.record in s.paired && Target(host, port, k.field).Some?
    case None => false
  }

  function EditedLine(s: Survey, host: string, port: nat, i: nat, line: Line): Line
    requires i < |s.entries|
  {
    if Edited(s, host, port, i) then TargetLine(host, port, s.entries[i].value) else line
  }

  function EditedLines(s: Survey, host: string, port: nat, lines: seq<Line>): (r: seq<Line>)
    requires |s.entries| == |lines|
    ensures |r| == |lines|
    ensures forall i | 0 <= i < |lines| :: r[i] == EditedLine(s, host, port, i, lines[i])
  {
    seq(|lines|, i requires 0 <= i < |lines| => EditedLine(s, host, port, i, lines[i]))
  }

  /** The lines to add for the required fields that a host does not have. */
  function MissingLines(s: Survey, host: string, port: nat, record: RecordKey, fields: seq<Field>): seq<Line>
    requires forall f | f in fields :: f in REQUIRED
  {
    if fields == [] then []
    else
      var f := fields[|fields| - 1];
      var k := EntryKey(record, f);
      assert f in fields && f in REQUIRED;
      MissingLines(s, host, port, record, fields[..|fields| - 1])
        + (if k in s.index then [] else [TargetLine(host, port, k)])
  }

  /** The lines to add to a section, for a list of hosts. */
  function SectionLines(s: Survey, host: string, port: nat, section: Section, order: seq<RecordKey>): seq<Line> {
    if order == [] then []
    else
      var r := order[|order| - 1];
      SectionLines(s, host, port, section, order[..|order| - 1])
        + (if r.section == section && r in s.paired then MissingLines(s, host, port, r, REQUIRED) else [])
  }

  /** The lines to add after the first `n` lines of the file. */
  function LinesAt(s: Survey, host: string, port: nat, n: nat): seq<Line> {
    (if HostsBackup in s.ends && s.ends[HostsBackup] == n
     then SectionLines(s, host, port, HostsBackup, s.order) else [])
    + (if Hosts in s.ends && s.ends[Hosts] == n
       then SectionLines(s, host, port, Hosts, s.order) else [])
  }

  function Weave(s: Survey, host: string, port: nat, body: seq<Line>): seq<Line> {
    if body == [] then []
    else
      Weave(s, host, port, body[..|body| - 1]) + [body[|body| - 1]] + LinesAt(s, host, port, |body|)
  }

  lemma {:induction false} SurveyLength(lines: seq<Line>)
    ensures |SurveyOf(lines).entries| == |SurveyOf(lines).sections| == |lines|
  {
    if lines != [] {
      SurveyLength(lines[..|lines| - 1]);
    }
  }

  /** The rewritten file, read off the bookkeeping. */
  function Rewritten(lines: seq<Line>, host: string, port: nat): seq<Line> {
    SurveyLength(lines);
    var s := SurveyOf(lines);
    Weave(s, host, port, EditedLines(s, host, port, lines))
  }
}
