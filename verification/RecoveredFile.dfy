/** Recovery end to end, on the text of the settings file: look up, rewrite, read the written file again, look up. */
module RecoveredFile {
  import opened Wrappers
  import opened Text
  import opened Config
  import opened WorkspaceModel
  import opened WorkspaceProofs
  import opened WorkspaceReaders
  import opened SettingsFile
  import opened HostRecovery

  /** The stored hosts of a file's text. */
  function RecordsIn(text: string): seq<HostRecord> {
    HostRecords(Read(Lines(SplitLines(text))))
  }

  predicate NoneMatches(records: seq<HostRecord>, name: string, port: int) {
    forall i | 0 <= i < |records| :: !RecordMatches(records[i], name, port)
  }

  lemma HostIsOneLine(host: string)
    requires IsMoonlightHost(host)
    ensures Trimmed(host) && OneLine(host)
  {
    NoSpaceIsTrimmed(host);
  }

  /** What is read from the written text is what the rewrite means. */
  lemma {:induction false} WrittenRecords(text: string, written: string, host: string, port: nat)
    requires Trimmed(host) && SplitLines(written) == Raws(Rewritten(Lines(SplitLines(text)), host, port))
    ensures RecordsIn(written) == HostRecords(Read(Rewritten(Lines(SplitLines(text)), host, port)))
  {
    RewriteFaithful(Lines(SplitLines(text)), host, port);
  }

  lemma {:induction false} RecoveredExactly(text: string, written: string, host: string, hostIsIPv6: bool, port: nat)
    requires IsMoonlightHost(host) && SplitLines(written) == Raws(Rewritten(Lines(SplitLines(text)), host, port))
    requires NoneMatches(RecordsIn(text), NormalHost(Authority(host, hostIsIPv6, port)), port)
    ensures
      var name := NormalHost(Authority(host, hostIsIPv6, port));
      var found := Lookup(RecordsIn(text), name, port, true);
      Lookup(RecordsIn(written), name, port, false) == found <==> port == DEFAULT_MOONLIGHT_BASE_PORT || found == None
  {
    HostIsOneLine(host);
    WrittenRecords(text, written, host, port);
    RecoveryIsPermanent(SplitLines(text), host, hostIsIPv6, port);
    NoMatchNoCertificate(RecordsIn(text), NormalHost(Authority(host, hostIsIPv6, port)), port);
  }

  /** One lookup in a file: its hosts are read and their certificates gone through. */
  method FindCertificate(text: string, authority: string, port: nat, allowAny: bool) returns (certificate: Option<string>)
    ensures certificate == Lookup(RecordsIn(text), NormalHost(authority), port, allowAny)
  {
    var records := ReadHostRecords(SplitLines(text));
    certificate := ServerCertificate(records, authority, port, allowAny);
  }

  /**
    * A lookup that any host will do for, the rewrite of the file, and the exact lookup in what was written. If no stored
    * host matched before, the second lookup finds what the first one found exactly with the default port, or if that
    * was nothing.
    */
  method RecoverHost(text: string, host: string, hostIsIPv6: bool, port: nat)
    returns (found: Option<string>, written: string, kept: Option<string>)
    requires IsMoonlightHost(host)
    ensures
      var name := NormalHost(Authority(host, hostIsIPv6, port));
      && found == Lookup(RecordsIn(text), name, port, true)
      && kept == Lookup(RecordsIn(written), name, port, false)
      && (NoneMatches(RecordsIn(text), name, port) ==>
            (kept == found <==> port == DEFAULT_MOONLIGHT_BASE_PORT || found == None))
  {
    var authority := Authority(host, hostIsIPv6, port);
    found := FindCertificate(text, authority, port, true);
    HostIsOneLine(host);
    var updated;
    written, updated := RewriteFile(text, host, port);
    kept := FindCertificate(written, authority, port, false);
    if NoneMatches(RecordsIn(text), NormalHost(authority), port) {
      RecoveredExactly(text, written, host, hostIsIPv6, port);
    }
  }
}
