/** The two loops that read a settings file, and the certificate lookup on what they find. */
module WorkspaceReaders {
  import opened Wrappers
  import opened Text
  import opened WorkspaceModel
  import opened ByteArrayDecoder

  type HostRecord = map<Field, string>

  // ------------------------------------------------------------------ host records

  function FieldsIn(c: Contents, r: RecordKey): set<Field> {
    set k | k in c.lines && k.record == r :: k.field
  }

  /** The fields of one stored host. */
  function RecordOf(c: Contents, r: RecordKey): HostRecord {
    map f | f in FieldsIn(c, r) :: if EntryKey(r, f) in c.lines then ValueOf(c.lines[EntryKey(r, f)]) else ""
  }

  function RecordKeys(c: Contents): set<RecordKey> {
    set k | k in c.lines :: k.record
  }

  function IndicesIn(records: set<RecordKey>, section: Section): set<nat> {
    set r | r in records && r.section == section :: r.index
  }

  lemma LeastExists(s: set<nat>)
    requires s != {}
    ensures exists m :: m in s && forall x | x in s :: m <= x
  {
    var m := Least(s);
  }

  lemma Least(s: set<nat>) returns (m: nat)
    requires s != {}
    ensures m in s && forall x | x in s :: m <= x
  {
    m :| m in s;
    var rest := s - {m};
    assert s == rest + {m};
    if rest != {} {
      var least := Least(rest);
      if least < m {
        m := least;
      }
    }
  }

  function Sorted(s: set<nat>): seq<nat> {
    if s == {} then []
    else
      LeastExists(s);
      var m :| m in s && forall x | x in s :: m <= x;
      [m] + Sorted(s - {m})
  }

  /** The section whose hosts count: the backup list if it has any. */
  function ChosenSection(records: set<RecordKey>): Section {
    if IndicesIn(records, HostsBackup) != {} then HostsBackup else Hosts
  }

  function HostRecordsIn(c: Contents, section: Section, indices: seq<nat>): seq<HostRecord> {
    seq(|indices|, i requires 0 <= i < |indices| => RecordOf(c, RecordKey(section, indices[i])))
  }

  /** The stored hosts, in the order of their numbers. */
  function HostRecords(c: Contents): seq<HostRecord> {
    var section := ChosenSection(RecordKeys(c));
    HostRecordsIn(c, section, Sorted(IndicesIn(RecordKeys(c), section)))
  }

  /** The records of a prefix, as the dictionary that the loop fills. */
  ghost predicate Holds(records: map<RecordKey, HostRecord>, c: Contents) {
    && records.Keys == RecordKeys(c)
    && forall r | r in records :: records[r] == RecordOf(c, r)
  }

  lemma RecordKeysMore(c: Contents, d: Contents, k: EntryKey, line: Line)
    requires d.lines == c.lines[k := line]
    ensures RecordKeys(d) == RecordKeys(c) + {k.record}
  {
    assert k in d.lines;
    forall r | r in RecordKeys(c) ensures r in RecordKeys(d) {
      var x :| x in c.lines && x.record == r;
      assert x in d.lines;
    }
  }

  lemma RecordAbsent(c: Contents, r: RecordKey)
    requires r !in RecordKeys(c)
    ensures RecordOf(c, r) == map[]
  {
    assert FieldsIn(c, r) == {};
  }

  lemma HoldsMore(records: map<RecordKey, HostRecord>, c: Contents, k: EntryKey, line: Line, d: Contents)
    requires Holds(records, c) && d.lines == c.lines[k := line]
    ensures
      var record := if k.record in records then records[k.record] else map[];
      Holds(records[k.record := record[k.field := ValueOf(line)]], d)
  {
    var record := if k.record in records then records[k.record] else map[];
    assert record == RecordOf(c, k.record) by {
      if k.record !in records {
        RecordAbsent(c, k.record);
      }
    }
    var after := records[k.record := record[k.field := ValueOf(line)]];
    RecordKeysMore(c, d, k, line);
    forall r | r in after ensures after[r] == RecordOf(d, r) {
      if r == k.record {
        SameRecord(c, d, k, line);
      } else {
        OtherRecord(c, d, k, line, r);
      }
    }
  }

  lemma OtherRecord(c: Contents, d: Contents, k: EntryKey, line: Line, r: RecordKey)
    requires d.lines == c.lines[k := line] && r != k.record
    ensures RecordOf(d, r) == RecordOf(c, r)
  {
    assert forall x: EntryKey | x.record == r :: x in d.lines <==> x in c.lines;
    assert FieldsIn(d, r) == FieldsIn(c, r);
  }

  lemma SameRecord(c: Contents, d: Contents, k: EntryKey, line: Line)
    requires d.lines == c.lines[k := line]
    ensures RecordOf(d, k.record) == RecordOf(c, k.record)[k.field := ValueOf(line)]
  {
    assert FieldsIn(d, k.record) == FieldsIn(c, k.record) + {k.field} by {
      assert k in d.lines;
      forall f | f in FieldsIn(c, k.record) ensures f in FieldsIn(d, k.record) {
        assert EntryKey(k.record, f) in d.lines;
      }
    }
    forall f | f in FieldsIn(d, k.record)
      ensures RecordOf(d, k.record)[f] == RecordOf(c, k.record)[k.field := ValueOf(line)][f]
    {
      assert EntryKey(k.record, f) in d.lines;
    }
  }

  /** The body of the loop: a line enters a section, sets a field of a record or is passed over. */
  method CollectLine(before: map<RecordKey, HostRecord>, section: Section, line: Line, ghost c: Contents)
    returns (records: map<RecordKey, HostRecord>, active: Section)
    requires Holds(before, c) && section == c.section
    ensures var d := Apply(c, EffectOf(c.section, line), line); Holds(records, d) && active == d.section
  {
    records, active := before, section;
    var shape := line.shape;
    if shape.Header? {
      active := shape.section;
    } else if IsHostSection(section) && shape.Setting? && shape.host.Some? {
      var HostField(index, field) := shape.host.value;
      var r := RecordKey(section, index);
      HoldsMore(records, c, EntryKey(r, field), line, Apply(c, EffectOf(c.section, line), line));
      var record := if r in records then records[r] else map[];
      records := records[r := record[field := shape.value]];
    }
  }

  /** The loop of `_moonlight_workspace_host_records` over the lines of one file. */
  method ReadHostRecords(raws: seq<string>) returns (found: seq<HostRecord>)
    ensures found == HostRecords(Read(Lines(raws)))
  {
    var lines := Lines(raws);
    var records: map<RecordKey, HostRecord> := map[];
    var active := Root;
    assert lines[..0] == [];
    for i := 0 to |lines|
      invariant active == Read(lines[..i]).section
      invariant Holds(records, Read(lines[..i]))
    {
      ReadNext(lines, i);
      records, active := CollectLine(records, active, lines[i], Read(lines[..i]));
    }
    assert lines[..|lines|] == lines;
    found := ListRecords(records, Read(lines));
  }

  lemma IndexHasRecord(records: set<RecordKey>, section: Section, i: nat)
    requires i < |Sorted(IndicesIn(records, section))|
    ensures RecordKey(section, Sorted(IndicesIn(records, section))[i]) in records
  {
    var indices := IndicesIn(records, section);
    SortedElements(indices);
    assert Sorted(indices)[i] in Sorted(indices);
    assert Sorted(indices)[i] in indices;
  }

  /** The records of the chosen section, sorted by number. */
  method ListRecords(records: map<RecordKey, HostRecord>, ghost c: Contents) returns (found: seq<HostRecord>)
    requires Holds(records, c)
    ensures found == HostRecords(c)
  {
    var section := ChosenSection(records.Keys);
    var indices := Sorted(IndicesIn(records.Keys, section));
    found := [];
    for i := 0 to |indices|
      invariant found == HostRecordsIn(c, section, indices[..i])
    {
      IndexHasRecord(records.Keys, section, i);
      assert indices[..i + 1] == indices[..i] + [indices[i]];
      found := found + [records[RecordKey(section, indices[i])]];
    }
    assert indices[..|indices|] == indices;
  }

  lemma {:induction false} SortedElements(s: set<nat>)
    ensures forall x :: x in Sorted(s) <==> x in s
    ensures |Sorted(s)| == |s|
    ensures forall i, j | 0 <= i < j < |Sorted(s)| :: Sorted(s)[i] < Sorted(s)[j]
  {
    if s != {} {
      LeastExists(s);
      var m := Sorted(s)[0];
      var rest := Sorted(s - {m});
      SortedElements(s - {m});
      assert Sorted(s) == [m] + rest;
      forall i, j | 0 <= i < j < |Sorted(s)| ensures Sorted(s)[i] < Sorted(s)[j] {
        assert rest[j - 1] in rest && Sorted(s)[j] == rest[j - 1];
        if i > 0 {
          assert Sorted(s)[i] == rest[i - 1];
        }
      }
    }
  }

  /** `_moonlight_workspace_root_settings` over the lines of one file. */
  method ReadRootSettings(raws: seq<string>) returns (settings: map<string, string>)
    ensures settings == Read(Lines(raws)).root
  {
    settings := ReadRootLines(Lines(raws));
  }

  /** Its loop. */
  method ReadRootLines(lines: seq<Line>) returns (settings: map<string, string>)
    ensures settings == Read(lines).root
  {
    settings := map[];
    var active := Root;
    assert lines[..0] == [];
    for i := 0 to |lines|
      invariant active == Read(lines[..i]).section
      invariant settings == Read(lines[..i]).root
    {
      ReadNext(lines, i);
      var shape := lines[i].shape;
      if shape.Header? {
        active := shape.section;
        continue;
      }
      if !(active.Root? || active.General?) {
        continue;
      }
      if shape.Setting? {
        settings := settings[shape.name := shape.value];
      }
    }
    assert lines[..|lines|] == lines;
  }

  // ------------------------------------------------------------------ matching and lookup

  function FieldOf(record: HostRecord, f: Field): string {
    if f in record then record[f] else ""
  }

  /** `_normalize_moonlight_host_value`. */
  function NormalHost(value: string): (r: string)
    ensures |r| <= |value|
  {
    Lower(Unbracketed(Strip(value)))
  }

  function Unbracketed(s: string): (r: string)
    ensures |r| <= |s|
  {
    if StartsWith(s, "[") && EndsWith(s, "]") && |s| >= 2 then s[1..|s| - 1] else s
  }

  /** Digits, with single underscores between them if at all. */
  predicate IsNumeral(s: string) {
    && s != "" && IsDigit(s[0]) && IsDigit(s[|s| - 1])
    && forall i | 0 <= i < |s| - 1 :: IsDigit(s[i]) || (s[i] == '_' && IsDigit(s[i + 1]))
  }

  function DigitsOf(s: string): (r: string)
    ensures AllDigits(r)
  {
    if s == "" then ""
    else DigitsOf(s[..|s| - 1]) + (if IsDigit(s[|s| - 1]) then [s[|s| - 1]] else "")
  }

  /** `int(...)` of a port text: a numeral with an optional sign is a number, anything else is not. */
  function PortNumber(s: string): Option<int> {
    if IsNumeral(s) then Some(ParseNat(DigitsOf(s)) as int)
    else if s != "" && s[0] == '-' && IsNumeral(s[1..]) then Some(-(ParseNat(DigitsOf(s)) as int))
    else if s != "" && s[0] == '+' && IsNumeral(s[1..]) then Some(ParseNat(DigitsOf(s)) as int)
    else None
  }

  const ADDRESS_FIELDS: seq<(Field, Field)> :=
    [(ManualAddress, ManualPort), (LocalAddress, LocalPort), (RemoteAddress, RemotePort), (Ipv6Address, Ipv6Port)]

  /** A stored address with its port text. */
  datatype Address = Address(host: string, port: string)

  function AddressOf(record: HostRecord, fields: (Field, Field)): Address {
    Address(NormalHost(FieldOf(record, fields.0)), Strip(FieldOf(record, fields.1)))
  }

  function Addresses(record: HostRecord): (r: seq<Address>)
    ensures |r| == |ADDRESS_FIELDS|
  {
    seq(|ADDRESS_FIELDS|, i requires 0 <= i < |ADDRESS_FIELDS| => AddressOf(record, ADDRESS_FIELDS[i]))
  }

  /** The verdict of the first address that is the host: its port must be absent or the same number. */
  predicate FirstVerdict(addresses: seq<Address>, host: string, port: int) {
    if addresses == [] then false
    else
      var a := addresses[0];
      if a.host == "" || a.host != host then FirstVerdict(addresses[1..], host, port)
      else a.port == "" || PortNumber(a.port) == Some(port)
  }

  predicate RecordMatches(record: HostRecord, host: string, port: int) {
    IsName(NormalHost(FieldOf(record, HostName)), host) || FirstVerdict(Addresses(record), host, port)
  }

  predicate IsName(name: string, host: string) {
    name != "" && name == host
  }

  /** `_moonlight_workspace_record_matches_host`. */
  method MatchRecord(record: HostRecord, host: string, port: int) returns (matches: bool)
    ensures matches == RecordMatches(record, host, port)
  {
    if IsName(NormalHost(FieldOf(record, HostName)), host) {
      return true;
    }
    matches := MatchAddresses(Addresses(record), host, port);
  }

  /** The loop over the address fields. */
  method MatchAddresses(addresses: seq<Address>, host: string, port: int) returns (matches: bool)
    ensures matches == FirstVerdict(addresses, host, port)
  {
    assert addresses[0..] == addresses;
    for i := 0 to |addresses|
      invariant FirstVerdict(addresses, host, port) == FirstVerdict(addresses[i..], host, port)
    {
      assert addresses[i..][0] == addresses[i] && addresses[i..][1..] == addresses[i + 1..];
      if addresses[i].host == "" || addresses[i].host != host {
        continue;
      }
      if addresses[i].port == "" {
        return true;
      }
      return PortNumber(addresses[i].port) == Some(port);
    }
    return false;
  }

  /** The certificate of a stored host, if it has one that decodes. */
  function CertificateOf(record: HostRecord): Option<string> {
    var raw := Strip(FieldOf(record, SrvCert));
    if raw == "" then None else Decoded(raw)
  }

  /** The certificate of the first stored host that has one. */
  function FirstCertificate(records: seq<HostRecord>): Option<string> {
    if records == [] then None
    else if CertificateOf(records[0]).Some? then CertificateOf(records[0])
    else FirstCertificate(records[1..])
  }

  /** The certificate of the first stored host that has one and matches. */
  function MatchingCertificate(records: seq<HostRecord>, host: string, port: int): Option<string> {
    if records == [] then None
    else if CertificateOf(records[0]).Some? && RecordMatches(records[0], host, port) then CertificateOf(records[0])
    else MatchingCertificate(records[1..], host, port)
  }

  function Lookup(records: seq<HostRecord>, host: string, port: int, allowAny: bool): Option<string> {
    var exact := MatchingCertificate(records, host, port);
    if exact.None? && allowAny then FirstCertificate(records) else exact
  }

  lemma {:induction false} LookupRest(
    records: seq<HostRecord>, i: nat, name: string, port: int, certificate: Option<string>, matches: bool)
    requires i < |records| && certificate == CertificateOf(records[i])
    requires certificate.Some? ==> RecordMatches(records[i], name, port) == matches
    ensures FirstCertificate(records[i..]) == if certificate.Some? then certificate else FirstCertificate(records[i + 1..])
    ensures MatchingCertificate(records[i..], name, port)
         == if certificate.Some? && matches then certificate else MatchingCertificate(records[i + 1..], name, port)
  {
    assert records[i..][0] == records[i] && records[i..][1..] == records[i + 1..];
    LookupStep(records[i..], name, port, certificate, matches);
  }

  /** The stored certificate, decoded, if there is one. */
  method ReadCertificate(record: HostRecord) returns (decoded: Option<string>)
    ensures decoded == CertificateOf(record)
  {
    var raw := Strip(FieldOf(record, SrvCert));
    if raw == "" {
      return None;
    }
    decoded := DecodeByteArray(raw);
  }

  /** One round of each lookup, for a record whose certificate is known and, if it has one, whether it matches. */
  lemma {:induction false} LookupStep(
    records: seq<HostRecord>, name: string, port: int, certificate: Option<string>, matches: bool)
    requires records != [] && certificate == CertificateOf(records[0])
    requires certificate.Some? ==> RecordMatches(records[0], name, port) == matches
    ensures FirstCertificate(records) == if certificate.Some? then certificate else FirstCertificate(records[1..])
    ensures MatchingCertificate(records, name, port)
         == if certificate.Some? && matches then certificate else MatchingCertificate(records[1..], name, port)
  {
  }

  /** `_moonlight_workspace_server_certificate`: one pass that remembers the first certificate as a fallback. */
  method ServerCertificate(records: seq<HostRecord>, authority: string, port: int, allowAny: bool)
    returns (certificate: Option<string>)
    ensures certificate == Lookup(records, NormalHost(authority), port, allowAny)
  {
    var host := NormalHost(authority);
    var fallback: Option<string> := None;
    assert records[0..] == records;
    for i := 0 to |records|
      invariant MatchingCertificate(records, host, port) == MatchingCertificate(records[i..], host, port)
      invariant FirstCertificate(records)
             == if fallback.Some? then fallback else FirstCertificate(records[i..])
    {
      var decoded := ReadCertificate(records[i]);
      if decoded.None? {
        LookupRest(records, i, host, port, None, false);
        continue;
      }
      if fallback.None? {
        fallback := decoded;
      }
      var matches := MatchRecord(records[i], host, port);
      LookupRest(records, i, host, port, decoded, matches);
      if matches {
        return decoded;
      }
    }
    certificate := if allowAny then fallback else None;
  }
}
