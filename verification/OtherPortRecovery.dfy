/** With another port than the default one, recovery fails on the simplest of settings files. */
module OtherPortRecovery {
  import opened Wrappers
  import opened Text
  import opened Config
  import opened WorkspaceModel
  import opened WorkspaceProofs
  import opened WorkspaceReaders
  import opened ByteArrayDecoder
  import opened HostRecovery

  const FIRST := RecordKey(Hosts, 1)
  const PIN_KEY := EntryKey(FIRST, SrvCert)

  /** A certificate as the settings store it. */
  function Stored(certificate: string): string {
    WRAPPER + Concat(EscapeUnits(certificate)) + ")"
  }

  /** A settings file with one stored host and nothing but its certificate. */
  function OneHostFile(section: string, certificate: string): seq<string> {
    ["[" + section + "]", Render(PIN_KEY, Stored(certificate))]
  }

  /** A name for the list of hosts, in whatever case. */
  predicate NamesHosts(section: string) {
    NoSpace(section) && Lower(section) == "hosts"
  }

  lemma SectionOfHosts(section: string)
    requires NamesHosts(section)
    ensures ToSection(Lower(section)) == Hosts
  {
  }

  lemma Bracketed(section: string, line: string)
    requires line == "[" + section + "]"
    ensures IsHeader(line) && line[1..|line| - 1] == section
  {
  }

  lemma HeaderOf(line: string)
    requires IsHeader(line)
    ensures StrippedShape(line) == Header(ToSection(Lower(Strip(line[1..|line| - 1]))))
  {
  }

  lemma HostsHeader(line: string, section: string)
    requires NamesHosts(section)
    requires StrippedShape(line) == Header(ToSection(Lower(Strip(section))))
    ensures StrippedShape(line) == Header(Hosts)
  {
    NoSpaceIsTrimmed(section);
    SectionOfHosts(section);
  }

  lemma ShapeOfStripped(line: string, shape: LineShape)
    requires Trimmed(line)
    requires StrippedShape(line) == shape
    ensures Shape(line) == shape
  {
    StripTrimmed(line);
  }

  lemma BracketedShape(line: string)
    requires IsHeader(line) && StrippedShape(line) == Header(Hosts)
    ensures Shape(line) == Header(Hosts)
  {
    ShapeOfStripped(line, Header(Hosts));
  }

  lemma HeaderShape(section: string, line: string)
    requires NamesHosts(section) && line == "[" + section + "]"
    ensures Shape(line) == Header(Hosts)
  {
    Bracketed(section, line);
    HeaderOf(line);
    HostsHeader(line, section);
    BracketedShape(line);
  }

  lemma StoredIsTrimmed(certificate: string)
    ensures Trimmed(Stored(certificate)) && Stored(certificate) != ""
  {
    WrapperEnds(Concat(EscapeUnits(certificate)));
  }

  /** What a section header and one certificate line say. */
  lemma TwoLines(header: Line, pin: Line)
    requires header.shape == Header(Hosts)
    requires pin.shape.Setting? && pin.shape.host == Some(HostField(1, SrvCert))
    ensures Read([header, pin]).lines == map[PIN_KEY := pin]
  {
    ReadSnoc(EMPTY, [], header);
    assert [] + [header] == [header];
    ReadSnoc(EMPTY, [header], pin);
    assert [header] + [pin] == [header, pin];
  }

  lemma OneIndex()
    ensures ChosenSection({FIRST}) == Hosts && Sorted(IndicesIn({FIRST}, Hosts)) == [1]
  {
    assert IndicesIn({FIRST}, HostsBackup) == {};
    assert IndicesIn({FIRST}, Hosts) == {1};
    SortedElements({1});
    assert Sorted({1})[0] in Sorted({1});
  }

  lemma OneField(c: Contents, pin: Line)
    requires c.lines == map[PIN_KEY := pin]
    ensures RecordOf(c, FIRST) == map[SrvCert := ValueOf(pin)]
  {
    assert PIN_KEY in c.lines;
    assert FieldsIn(c, FIRST) == {SrvCert};
  }

  lemma OneRecord(c: Contents, pin: Line)
    requires c.lines == map[PIN_KEY := pin]
    ensures HostRecords(c) == [map[SrvCert := ValueOf(pin)]]
  {
    assert PIN_KEY in c.lines;
    assert RecordKeys(c) == {FIRST};
    OneIndex();
    OneField(c, pin);
  }

  lemma PinShape(certificate: string)
    ensures
      var pin := Classified(Render(PIN_KEY, Stored(certificate)));
      && pin.shape.Setting? && pin.shape.host == Some(HostField(1, SrvCert))
      && ValueOf(pin) == Stored(certificate)
  {
    StoredIsTrimmed(certificate);
    RenderReadsBack(PIN_KEY, Stored(certificate));
  }

  lemma RecordsOfLines(lines: seq<Line>)
    requires |lines| == 2 && lines[0].shape == Header(Hosts)
    requires lines[1].shape.Setting? && lines[1].shape.host == Some(HostField(1, SrvCert))
    ensures HostRecords(Read(lines)) == [map[SrvCert := ValueOf(lines[1])]]
  {
    assert lines == [lines[0], lines[1]];
    TwoLines(lines[0], lines[1]);
    OneRecord(Read(lines), lines[1]);
  }

  lemma FileRecords(section: string, certificate: string)
    requires NamesHosts(section)
    ensures HostRecords(Read(Lines(OneHostFile(section, certificate)))) == [map[SrvCert := Stored(certificate)]]
  {
    HeaderShape(section, OneHostFile(section, certificate)[0]);
    PinShape(certificate);
    RecordsOfLines(Lines(OneHostFile(section, certificate)));
  }

  lemma StoredDecodes(certificate: string)
    requires certificate != "" && Trimmed(certificate)
    ensures CertificateOf(map[SrvCert := Stored(certificate)]) == Some(certificate)
  {
    StoredIsTrimmed(certificate);
    StripTrimmed(Stored(certificate));
    EscapeEncodes(certificate);
    DecodeInverts(EscapeUnits(certificate), certificate);
  }

  lemma {:induction false} NothingElse(name: string, port: int, rest: seq<HostRecord>)
    requires rest == []
    ensures MatchingCertificate(rest, name, port) == None
  {
  }

  lemma {:induction false} FirstOf(records: seq<HostRecord>, certificate: Option<string>)
    requires records != [] && certificate == CertificateOf(records[0]) && certificate.Some?
    ensures FirstCertificate(records) == certificate
  {
  }

  lemma {:induction false} FirstOrLater(records: seq<HostRecord>, name: string, port: int, certificate: Option<string>)
    requires records != [] && certificate == CertificateOf(records[0])
    ensures
      || MatchingCertificate(records, name, port) == certificate
      || MatchingCertificate(records, name, port) == MatchingCertificate(records[1..], name, port)
  {
  }

  lemma {:induction false} AnyHostFinds(records: seq<HostRecord>, name: string, port: int, certificate: Option<string>)
    requires |records| == 1 && certificate.Some? && FirstCertificate(records) == certificate
    requires
      || MatchingCertificate(records, name, port) == certificate
      || MatchingCertificate(records, name, port) == MatchingCertificate(records[1..], name, port)
    ensures Lookup(records, name, port, true) == certificate
  {
    NothingElse(name, port, records[1..]);
  }

  /**
    * For every certificate, host and port other than the default one, there is a settings file in which the any-host
    * lookup finds the certificate before the rewrite and the exact lookup finds nothing after it.
    */
  lemma RecoveryCanFail(section: string, certificate: string, host: string, hostIsIPv6: bool, port: nat)
    requires NamesHosts(section) && certificate != "" && Trimmed(certificate)
    requires IsMoonlightHost(host) && port != DEFAULT_MOONLIGHT_BASE_PORT
    ensures
      var lines := Lines(OneHostFile(section, certificate));
      var name := NormalHost(Authority(host, hostIsIPv6, port));
      && Lookup(HostRecords(Read(lines)), name, port, true) == Some(certificate)
      && Lookup(HostRecords(Read(Rewritten(lines, host, port))), name, port, false) == None
  {
    ExactLookupAfterRewrite(OneHostFile(section, certificate), host, hostIsIPv6, port);
    FileRecords(section, certificate);
    StoredDecodes(certificate);
    var name := NormalHost(Authority(host, hostIsIPv6, port));
    var records := [map[SrvCert := Stored(certificate)]];
    FirstOf(records, Some(certificate));
    FirstOrLater(records, name, port, Some(certificate));
    AnyHostFinds(records, name, port, Some(certificate));
  }
}
