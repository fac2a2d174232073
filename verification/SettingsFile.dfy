/** The rewrite on the text of a settings file: what is written is what the next reader splits into lines. */
module SettingsFile {
  import opened Text
  import opened WorkspaceModel
  import opened WorkspaceProofs
  import opened WorkspaceRewriter

  /** The index of the first line end, or the length. */
  function LineEndIndex(s: string): (i: nat)
    ensures i <= |s| && OneLine(s[..i])
    ensures i < |s| ==> IsLineEnd(s[i])
  {
    if s == "" || IsLineEnd(s[0]) then 0
    else
      var i := 1 + LineEndIndex(s[1..]);
      assert s[..i] == [s[0]] + s[1..][..i - 1];
      i
  }

  /** `str.splitlines`: a carriage return and a newline after it end one line. */
  function SplitLines(s: string): (r: seq<string>)
    ensures forall i | 0 <= i < |r| :: OneLine(r[i])
    decreases |s|
  {
    var i := LineEndIndex(s);
    if s == "" then []
    else if i == |s| then
      assert s[..i] == s;
      [s]
    else if s[i] == '\r' && i + 1 < |s| && s[i + 1] == '\n' then [s[..i]] + SplitLines(s[i + 2..])
    else [s[..i]] + SplitLines(s[i + 1..])
  }

  /** Each line followed by a newline. */
  function JoinLines(lines: seq<string>): string {
    if lines == [] then "" else lines[0] + "\n" + JoinLines(lines[1..])
  }

  lemma {:induction false} LineEndAt(s: string, n: nat)
    requires n < |s| && IsLineEnd(s[n]) && OneLine(s[..n])
    ensures LineEndIndex(s) == n
  {
    if n > 0 {
      assert s[0] == s[..n][0];
      assert s[1..][..n - 1] == s[..n][1..];
      LineEndAt(s[1..], n - 1);
    }
  }

  lemma {:induction false} LineEndAfter(line: string, rest: string)
    requires OneLine(line)
    ensures LineEndIndex(line + "\n" + rest) == |line|
  {
    var s := line + "\n" + rest;
    assert s[..|line|] == line;
    LineEndAt(s, |line|);
  }

  lemma {:induction false} SplitJoined(lines: seq<string>)
    requires forall i | 0 <= i < |lines| :: OneLine(lines[i])
    ensures SplitLines(JoinLines(lines)) == lines
  {
    if lines != [] {
      var line, rest := lines[0], JoinLines(lines[1..]);
      var s := line + "\n" + rest;
      LineEndAfter(line, rest);
      SplitJoined(lines[1..]);
      assert s[..|line|] == line && s[|line|] == '\n' && s[|line| + 1..] == rest;
    }
  }

  // ------------------------------------------------------------------ rendered lines are single lines

  lemma OneLineAppend(a: string, b: string)
    requires OneLine(a) && OneLine(b)
    ensures OneLine(a + b)
  {
  }

  lemma WordIsOneLine(s: string)
    requires PlainField(s)
    ensures OneLine(s)
  {
  }

  lemma FieldNameOneLine(f: Field)
    requires !f.OtherField?
    ensures OneLine(FieldName(f))
  {
    FieldNamesArePlain(f);
    WordIsOneLine(FieldName(f));
  }

  lemma TargetLineOneLine(host: string, port: nat, k: EntryKey)
    requires OneLine(host) && Target(host, port, k.field).Some?
    ensures OneLine(TargetLine(host, port, k).raw)
  {
    var number := NatToString(k.record.index);
    var value := Target(host, port, k.field).value;
    assert OneLine(number) && OneLine(NatToString(port)) by {
      DigitsOneLine(number);
      DigitsOneLine(NatToString(port));
    }
    FieldNameOneLine(k.field);
    OneLineAppend(number, "\\");
    OneLineAppend(number + "\\", FieldName(k.field));
    OneLineAppend(RenderedName(k), "=");
    OneLineAppend(RenderedName(k) + "=", value);
  }

  lemma DigitsOneLine(s: string)
    requires AllDigits(s)
    ensures OneLine(s)
  {
  }

  ghost predicate AllOneLine(lines: seq<Line>) {
    forall i | 0 <= i < |lines| :: OneLine(lines[i].raw)
  }

  lemma {:induction false} MissingOneLine(s: Survey, host: string, port: nat, record: RecordKey, fields: seq<Field>)
    requires OneLine(host) && forall f | f in fields :: f in REQUIRED
    ensures AllOneLine(MissingLines(s, host, port, record, fields))
  {
    if fields != [] {
      MissingOneLine(s, host, port, record, fields[..|fields| - 1]);
      assert fields[|fields| - 1] in fields && fields[|fields| - 1] in REQUIRED;
      TargetLineOneLine(host, port, EntryKey(record, fields[|fields| - 1]));
    }
  }

  lemma {:induction false} SectionOneLine(s: Survey, host: string, port: nat, section: Section, order: seq<RecordKey>)
    requires OneLine(host)
    ensures AllOneLine(SectionLines(s, host, port, section, order))
  {
    if order != [] {
      SectionOneLine(s, host, port, section, order[..|order| - 1]);
      MissingOneLine(s, host, port, order[|order| - 1], REQUIRED);
    }
  }

  lemma {:induction false} WeaveOneLine(s: Survey, host: string, port: nat, body: seq<Line>)
    requires OneLine(host) && AllOneLine(body)
    ensures AllOneLine(Weave(s, host, port, body))
  {
    if body != [] {
      WeaveOneLine(s, host, port, body[..|body| - 1]);
      SectionOneLine(s, host, port, HostsBackup, s.order);
      SectionOneLine(s, host, port, Hosts, s.order);
      assert AllOneLine(LinesAt(s, host, port, |body|));
    }
  }

  lemma RewrittenOneLine(lines: seq<Line>, host: string, port: nat)
    requires OneLine(host) && AllOneLine(lines)
    ensures AllOneLine(Rewritten(lines, host, port))
  {
    SurveyLength(lines);
    var s := SurveyOf(lines);
    var body := EditedLines(s, host, port, lines);
    forall i | 0 <= i < |lines| ensures OneLine(body[i].raw) {
      if Edited(s, host, port, i) {
        TargetLineOneLine(host, port, s.entries[i].value);
      }
    }
    WeaveOneLine(s, host, port, body);
  }

  /** The rewrite of a file: the text stays as it is when there is nothing to do. */
  method RewriteFile(text: string, host: string, port: nat) returns (written: string, updated: bool)
    requires Trimmed(host) && OneLine(host)
    ensures SplitLines(written) == Raws(Rewritten(Lines(SplitLines(text)), host, port))
    ensures !updated ==> written == text
    ensures updated <==> Rewritten(Lines(SplitLines(text)), host, port) != Lines(SplitLines(text))
  {
    var raws := SplitLines(text);
    var rewritten;
    rewritten, updated := RewriteSettings(raws, host, port);
    assert updated <==> Lines(rewritten) != Lines(raws) by {
      assert Raws(Lines(raws)) == raws && Raws(Lines(rewritten)) == rewritten;
    }
    if !updated {
      return text, false;
    }
    RewrittenOneLine(Lines(raws), host, port);
    SplitJoined(rewritten);
    written := JoinLines(rewritten);
  }

  /** A second run over the file that the first one wrote reports that it changed nothing. */
  method RewriteFileTwice(text: string, host: string, port: nat) returns (first: string, second: string, updatedAgain: bool)
    requires Trimmed(host) && OneLine(host)
    ensures !updatedAgain && second == first
  {
    var updated;
    first, updated := RewriteFile(text, host, port);
    ghost var lines := Lines(SplitLines(text));
    RewriteFaithful(lines, host, port);
    RewriteIsIdempotent(lines, host, port);
    second, updatedAgain := RewriteFile(first, host, port);
  }
}
