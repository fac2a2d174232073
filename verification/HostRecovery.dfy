/**
 * What the host rewrite is for: afterwards the exact-match lookup finds the certificate that
 * before only the any-host lookup found.
 */
module HostRecovery {
  import opened Wrappers
  import opened Text
  import opened WorkspaceModel
  import opened WorkspaceProofs
  import opened WorkspaceReaders
  import opened Config

  // ------------------------------------------------------------------ certificates and pinned hosts

  /** A host is pinned if and when some line has set a certificate for it; then it has a certificate field. */
  ghost predicate PinsAreCertificates(c: Contents) {
    && (forall r | r in c.pinned :: EntryKey(r, SrvCert) in c.lines)
    && (forall k | k in c.lines && k.field.SrvCert? && ValueOf(c.lines[k]) != "" :: k.record in c.pinned)
  }

  lemma ApplyKeepsPins(c: Contents, line: Line)
    requires PinsAreCertificates(c)
    ensures PinsAreCertificates(Apply(c, EffectOf(c.section, line), line))
  {
  }

  lemma {:induction false} ReadKeepsPins(lines: seq<Line>)
    ensures PinsAreCertificates(Read(lines))
  {
    if lines != [] {
      var n := |lines| - 1;
      ReadKeepsPins(lines[..n]);
      ApplyKeepsPins(Read(lines[..n]), lines[n]);
    }
  }

  // ------------------------------------------------------------------ records before and after

  lemma RenamedRecordKeys(c: Contents, host: string, port: nat)
    requires PinsAreCertificates(c)
    ensures RecordKeys(Renamed(c, host, port)) == RecordKeys(c)
  {
    var d := Renamed(c, host, port);
    forall k | k in d.lines ensures k.record in RecordKeys(c) {
      if k !in c.lines {
        assert k.record in c.pinned && EntryKey(k.record, SrvCert) in c.lines;
      }
    }
    forall k | k in c.lines ensures k.record in RecordKeys(d) {
      assert k in d.lines;
    }
  }

  /** The value of the last line that sets the key. */
  function ValueAt(c: Contents, k: EntryKey): string {
    if k in c.lines then ValueOf(c.lines[k]) else ""
  }

  lemma FieldOfRecord(c: Contents, r: RecordKey, f: Field)
    ensures FieldOf(RecordOf(c, r), f) == ValueAt(c, EntryKey(r, f))
  {
    var k := EntryKey(r, f);
    if k in c.lines {
      assert k.record == r && k.field in FieldsIn(c, r);
    }
  }

  /** The line of a field of a pinned host after the renaming. */
  lemma RenamedLine(c: Contents, host: string, port: nat, k: EntryKey)
    requires k.record in c.pinned
    ensures
      var d := Renamed(c, host, port);
      && (k.field in REQUIRED ==> k in d.lines)
      && (k in d.lines && Target(host, port, k.field).Some? ==> d.lines[k] == TargetLine(host, port, k))
      && (k.field == SrvCert ==> (k in d.lines <==> k in c.lines) && (k in c.lines ==> d.lines[k] == c.lines[k]))
  {
    if k.field in REQUIRED {
      RequiredIsThere(c.pinned, k);
    }
  }

  lemma RequiredIsThere(pinned: set<RecordKey>, k: EntryKey)
    requires k.record in pinned && k.field in REQUIRED
    ensures k in RequiredKeys(pinned)
  {
  }

  lemma RenamedValue(c: Contents, host: string, port: nat, k: EntryKey)
    requires k.record in c.pinned
    ensures
      var after := ValueAt(Renamed(c, host, port), k);
      && (k.field == HostName || k.field == ManualAddress ==> after == host)
      && (k.field in STALE ==> after == "")
      && (k.field == SrvCert ==> after == ValueAt(c, k))
  {
    RenamedLine(c, host, port, k);
  }

  /** The fields of a pinned host after the renaming. */
  lemma RenamedFields(c: Contents, host: string, port: nat, r: RecordKey, f: Field)
    requires r in c.pinned
    ensures
      var after := FieldOf(RecordOf(Renamed(c, host, port), r), f);
      && (f == HostName || f == ManualAddress ==> after == host)
      && (f in STALE ==> after == "")
      && (f == SrvCert ==> after == FieldOf(RecordOf(c, r), f))
  {
    FieldOfRecord(c, r, f);
    FieldOfRecord(Renamed(c, host, port), r, f);
    RenamedValue(c, host, port, EntryKey(r, f));
  }

  lemma UnpinnedRecord(c: Contents, host: string, port: nat, r: RecordKey)
    requires r !in c.pinned
    ensures RecordOf(Renamed(c, host, port), r) == RecordOf(c, r)
  {
    var d := Renamed(c, host, port);
    assert forall k: EntryKey | k.record == r :: k in d.lines <==> k in c.lines;
    assert FieldsIn(d, r) == FieldsIn(c, r);
  }

  lemma SameCertificate(c: Contents, host: string, port: nat, r: RecordKey)
    ensures CertificateOf(RecordOf(Renamed(c, host, port), r)) == CertificateOf(RecordOf(c, r))
  {
    if r in c.pinned {
      RenamedFields(c, host, port, r, SrvCert);
    } else {
      UnpinnedRecord(c, host, port, r);
    }
  }

  /** Only a pinned host has a certificate to offer. */
  lemma CertifiedIsPinned(c: Contents, r: RecordKey)
    requires PinsAreCertificates(c) && CertificateOf(RecordOf(c, r)).Some?
    ensures r in c.pinned
  {
    FieldOfRecord(c, r, SrvCert);
    assert Strip("") == "";
  }

  // ------------------------------------------------------------------ matching after the rewrite

  lemma NormalMoonlightHost(host: string)
    requires IsMoonlightHost(host)
    ensures NormalHost(host) == Lower(host)
  {
    NoSpaceIsTrimmed(host);
  }

  lemma DefaultPortMatches(c: Contents, host: string, port: nat, r: RecordKey)
    requires IsMoonlightHost(host) && r in c.pinned
    ensures RecordMatches(RecordOf(Renamed(c, host, port), r), NormalHost(host), port)
  {
    RenamedFields(c, host, port, r, HostName);
    NormalMoonlightHost(host);
  }

  /** With another port the authority is longer than any host the rewrite writes. */
  lemma LongAuthority(host: string, hostIsIPv6: bool, port: nat)
    requires IsMoonlightHost(host) && port != DEFAULT_MOONLIGHT_BASE_PORT
    ensures |NormalHost(Authority(host, hostIsIPv6, port))| > |host|
  {
    var digits := NatToString(port);
    NumberIsTrimmed(port);
    var a := Authority(host, hostIsIPv6, port);
    assert a[|a| - 1] == digits[|digits| - 1];
    assert a[0] == if hostIsIPv6 then '[' else host[0];
    StripTrimmed(a);
  }

  /** Every name the rewrite leaves in a pinned host is at most as long as the host. */
  lemma NamesAreShort(c: Contents, host: string, port: nat, r: RecordKey, f: Field)
    requires r in c.pinned && (f == HostName || f == ManualAddress || f in STALE)
    ensures |NormalHost(FieldOf(RecordOf(Renamed(c, host, port), r), f))| <= |host|
  {
    RenamedFields(c, host, port, r, f);
  }

  /** Every name the rewrite leaves in an address is at most as long as the host. */
  lemma AddressesAreShort(c: Contents, host: string, port: nat, r: RecordKey, i: nat)
    requires r in c.pinned && i < |ADDRESS_FIELDS|
    ensures |Addresses(RecordOf(Renamed(c, host, port), r))[i].host| <= |host|
  {
    NamesAreShort(c, host, port, r, ADDRESS_FIELDS[i].0);
  }

  lemma OtherPortMismatches(c: Contents, host: string, port: nat, r: RecordKey, name: string)
    requires r in c.pinned && |name| > |host|
    ensures !RecordMatches(RecordOf(Renamed(c, host, port), r), name, port)
  {
    var addresses := Addresses(RecordOf(Renamed(c, host, port), r));
    forall i | 0 <= i < |addresses| ensures addresses[i].host != name {
      AddressesAreShort(c, host, port, r, i);
    }
    NoVerdict(addresses, name, port);
    NamesAreShort(c, host, port, r, HostName);
  }

  lemma {:induction false} NoVerdict(addresses: seq<Address>, name: string, port: int)
    requires forall i | 0 <= i < |addresses| :: addresses[i].host != name
    ensures !FirstVerdict(addresses, name, port)
  {
    if addresses != [] {
      NoVerdict(addresses[1..], name, port);
    }
  }

  // ------------------------------------------------------------------ the lookups

  lemma RecordsTail(c: Contents, section: Section, indices: seq<nat>)
    requires indices != []
    ensures
      var records := HostRecordsIn(c, section, indices);
      && records[0] == RecordOf(c, RecordKey(section, indices[0]))
      && records[1..] == HostRecordsIn(c, section, indices[1..])
  {
  }

  lemma {:induction false} LookupAfter(
    c: Contents, host: string, port: nat, name: string, section: Section, indices: seq<nat>, matches: bool)
    requires PinsAreCertificates(c)
    requires forall r | r in c.pinned :: RecordMatches(RecordOf(Renamed(c, host, port), r), name, port) == matches
    ensures
      MatchingCertificate(HostRecordsIn(Renamed(c, host, port), section, indices), name, port)
      == if matches then FirstCertificate(HostRecordsIn(c, section, indices)) else None
  {
    var d := Renamed(c, host, port);
    if indices != [] {
      LookupAfter(c, host, port, name, section, indices[1..], matches);
      RecordsTail(c, section, indices);
      RecordsTail(d, section, indices);
      var r := RecordKey(section, indices[0]);
      var certificate := CertificateOf(RecordOf(c, r));
      SameCertificate(c, host, port, r);
      if certificate.Some? {
        CertifiedIsPinned(c, r);
      }
      var own := RecordMatches(RecordOf(c, r), name, port);
      LookupStep(HostRecordsIn(c, section, indices), name, port, certificate, own);
      LookupStep(HostRecordsIn(d, section, indices), name, port, certificate, matches);
    }
  }

  /**
   * The exact-match lookup after the rewrite, for every file and host: with the default port it
   * returns the first certificate in the file, with any other port it returns nothing.
   */
  lemma ExactLookupAfterRewrite(raws: seq<string>, host: string, hostIsIPv6: bool, port: nat)
    requires IsMoonlightHost(host)
    ensures
      var before := HostRecords(Read(Lines(raws)));
      var after := HostRecords(Read(Rewritten(Lines(raws), host, port)));
      var name := NormalHost(Authority(host, hostIsIPv6, port));
      Lookup(after, name, port, false)
      == if port == DEFAULT_MOONLIGHT_BASE_PORT then FirstCertificate(before) else None
  {
    var c := Read(Lines(raws));
    var d := Renamed(c, host, port);
    var name := NormalHost(Authority(host, hostIsIPv6, port));
    var matches := port == DEFAULT_MOONLIGHT_BASE_PORT;
    RewriteRenames(Lines(raws), host, port);
    ReadKeepsPins(Lines(raws));
    RenamedRecordKeys(c, host, port);
    forall r | r in c.pinned ensures RecordMatches(RecordOf(d, r), name, port) == matches {
      if matches {
        DefaultPortMatches(c, host, port, r);
      } else {
        LongAuthority(host, hostIsIPv6, port);
        OtherPortMismatches(c, host, port, r, name);
      }
    }
    var section := ChosenSection(RecordKeys(c));
    LookupAfter(c, host, port, name, section, Sorted(IndicesIn(RecordKeys(c), section)), matches);
  }

  lemma {:induction false} NoMatchNoCertificate(records: seq<HostRecord>, name: string, port: int)
    requires forall i | 0 <= i < |records| :: !RecordMatches(records[i], name, port)
    ensures MatchingCertificate(records, name, port) == None
  {
    if records != [] {
      NoMatchNoCertificate(records[1..], name, port);
    }
  }

  /**
   * Recovery is permanent: when no stored host matched before, the exact lookup after the rewrite
   * returns what the any-host lookup returned before, if and only if the port is the default one
   * or there was no certificate to recover.
   */
  lemma RecoveryIsPermanent(raws: seq<string>, host: string, hostIsIPv6: bool, port: nat)
    requires IsMoonlightHost(host)
    requires
      var before := HostRecords(Read(Lines(raws)));
      var name := NormalHost(Authority(host, hostIsIPv6, port));
      forall i | 0 <= i < |before| :: !RecordMatches(before[i], name, port)
    ensures
      var before := HostRecords(Read(Lines(raws)));
      var after := HostRecords(Read(Rewritten(Lines(raws), host, port)));
      var name := NormalHost(Authority(host, hostIsIPv6, port));
      Lookup(after, name, port, false) == Lookup(before, name, port, true)
      <==> port == DEFAULT_MOONLIGHT_BASE_PORT || FirstCertificate(before) == None
  {
    ExactLookupAfterRewrite(raws, host, hostIsIPv6, port);
    NoMatchNoCertificate(HostRecords(Read(Lines(raws))), NormalHost(Authority(host, hostIsIPv6, port)), port);
  }
}
