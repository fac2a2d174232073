/** The rewriting loops of `_rewrite_moonlight_workspace_settings_file`, with their index bookkeeping. */
module WorkspaceRewriter {
  import opened Wrappers
  import opened Text
  import opened WorkspaceModel
  import opened WorkspaceProofs

  lemma SurveyNext(lines: seq<Line>, i: nat)
    requires i < |lines|
    ensures |SurveyOf(lines[..i + 1]).sections| == i + 1
    ensures SurveyOf(lines[..i + 1]) == Note(SurveyOf(lines[..i]), EffectOf(SurveyOf(lines[..i]).Active(), lines[i]))
  {
    SurveyLength(lines[..i + 1]);
    SurveySnoc(lines[..i], lines[i]);
    assert lines[..i] + [lines[i]] == lines[..i + 1];
  }

  /** What the first pass keeps is what the bookkeeping says. */
  ghost predicate Keeps(
    s: Survey, active: Section, ends: map<Section, nat>, order: seq<RecordKey>, index: map<EntryKey, nat>, paired: set<RecordKey>)
  {
    active == s.Active() && ends == s.ends && order == s.order && index == s.index && paired == s.paired
  }

  /** One round of the first pass. */
  method SurveyLine(
    ghost s: Survey, line: Line, i: nat,
    active0: Section, ends0: map<Section, nat>, order0: seq<RecordKey>, index0: map<EntryKey, nat>, paired0: set<RecordKey>)
    returns (active: Section, ends: map<Section, nat>, order: seq<RecordKey>, index: map<EntryKey, nat>, paired: set<RecordKey>)
    requires |s.sections| == i && Keeps(s, active0, ends0, order0, index0, paired0)
    ensures Keeps(Note(s, EffectOf(s.Active(), line)), active, ends, order, index, paired)
  {
    active, ends, order, index, paired := active0, ends0, order0, index0, paired0;
    var shape := line.shape;
    if shape.Header? {
      active := shape.section;
      if IsHostSection(active) && active !in ends {
        ends := ends[active := i + 1];
      }
    } else if IsHostSection(active) {
      ends := ends[active := i + 1];
      if shape.Setting? && shape.host.Some? {
        var HostField(number, field) := shape.host.value;
        var record := RecordKey(active, number);
        if record !in order {
          order := order + [record];
        }
        index := index[EntryKey(record, field) := i];
        if field == SrvCert && shape.value != "" {
          paired := paired + {record};
        }
      }
    }
  }

  /** First pass: where the host sections end, which hosts there are and which line sets what. */
  method SurveyLines(lines: seq<Line>)
    returns (ends: map<Section, nat>, order: seq<RecordKey>, index: map<EntryKey, nat>, paired: set<RecordKey>)
    ensures var s := SurveyOf(lines); ends == s.ends && order == s.order && index == s.index && paired == s.paired
  {
    ends, order, index, paired := map[], [], map[], {};
    var active := Root;
    assert lines[..0] == [];
    for i := 0 to |lines|
      invariant |SurveyOf(lines[..i]).sections| == i
      invariant Keeps(SurveyOf(lines[..i]), active, ends, order, index, paired)
    {
      SurveyNext(lines, i);
      active, ends, order, index, paired :=
        SurveyLine(SurveyOf(lines[..i]), lines[i], i, active, ends, order, index, paired);
    }
    assert lines[..|lines|] == lines;
  }

  /** What editing the given fields of one host does to line `i`. */
  function FieldsLine(s: Survey, host: string, port: nat, record: RecordKey, fields: set<Field>, i: nat, line: Line): Line
    requires i < |s.entries|
  {
    if Edited(s, host, port, i) && s.entries[i].value.record == record && s.entries[i].value.field in fields
    then TargetLine(host, port, s.entries[i].value)
    else line
  }

  /** The lines while the given fields of one host have been edited. */
  ghost predicate FieldsEdited(
    s: Survey, host: string, port: nat, record: RecordKey, fields: set<Field>, lines: seq<Line>, edited: seq<Line>)
  {
    && |edited| == |lines| == |s.entries|
    && forall i | 0 <= i < |lines| :: edited[i] == FieldsLine(s, host, port, record, fields, i, lines[i])
  }

  /** Setting the last line of one more field. */
  lemma OneFieldMore(
    s: Survey, host: string, port: nat, record: RecordKey, fields: set<Field>, f: Field,
    lines: seq<Line>, before: seq<Line>, after: seq<Line>)
    requires SoundIndex(s) && record in s.paired && Target(host, port, f).Some?
    requires FieldsEdited(s, host, port, record, fields, lines, before)
    requires
      var k := EntryKey(record, f);
      after == if k in s.index then before[s.index[k] := TargetLine(host, port, k)] else before
    ensures FieldsEdited(s, host, port, record, fields + {f}, lines, after)
    ensures before == after || after != lines
  {
    var k := EntryKey(record, f);
    forall i | 0 <= i < |lines|
      ensures after[i] == FieldsLine(s, host, port, record, fields + {f}, i, lines[i])
    {
      if k in s.index && s.index[k] == i {
        assert s.entries[i] == Some(k);
      }
    }
    if k in s.index && before != after {
      var i := s.index[k];
      assert before[i] == FieldsLine(s, host, port, record, fields, i, lines[i]);
      assert after[i] != lines[i];
    }
  }

  function FieldSet(fields: seq<Field>): set<Field> {
    set f | f in fields
  }

  lemma {:induction false} FieldsSnoc(s: Survey, host: string, port: nat, record: RecordKey, fields: seq<Field>, j: nat)
    requires j < |fields|
    ensures FieldSet(fields[..j + 1]) == FieldSet(fields[..j]) + {fields[j]}
    ensures (forall f | f in fields :: f in REQUIRED) ==>
      && (forall f | f in fields[..j + 1] :: f in REQUIRED)
      && fields[j] in fields
      && var k := EntryKey(record, fields[j]);
         MissingLines(s, host, port, record, fields[..j + 1])
         == MissingLines(s, host, port, record, fields[..j]) + (if k in s.index then [] else [TargetLine(host, port, k)])
  {
    assert fields[..j + 1] == fields[..j] + [fields[j]];
    assert fields[..j + 1][..j] == fields[..j];
  }

  /** Sets the last line of one field, or gives the line that is missing. */
  method SetField(index: map<EntryKey, nat>, lines: seq<Line>, k: EntryKey, rendered: Line)
    returns (edited: seq<Line>, missing: seq<Line>, changed: bool)
    requires k in index ==> index[k] < |lines|
    ensures edited == if k in index then lines[index[k] := rendered] else lines
    ensures missing == if k in index then [] else [rendered]
    ensures changed <==> edited != lines || missing != []
  {
    edited, missing, changed := lines, [], false;
    if k in index {
      if edited[index[k]] != rendered {
        edited := edited[index[k] := rendered];
        changed := true;
      }
    } else {
      missing := missing + [rendered];
      changed := true;
    }
  }

  /** The first inner loop: sets the required fields of a host and lists the lines it lacks. */
  method SetFields(
    ghost s: Survey, index: map<EntryKey, nat>, host: string, port: nat,
    lines: seq<Line>, record: RecordKey, fields: seq<Field>)
    returns (edited: seq<Line>, missing: seq<Line>, changed: bool)
    requires SoundIndex(s) && index == s.index && |lines| == |s.entries| && record in s.paired
    requires forall f | f in fields :: f in REQUIRED
    ensures FieldsEdited(s, host, port, record, FieldSet(fields), lines, edited)
    ensures missing == MissingLines(s, host, port, record, fields)
    ensures changed <==> edited != lines || missing != []
  {
    edited, missing, changed := lines, [], false;
    for j := 0 to |fields|
      invariant forall f | f in fields[..j] :: f in REQUIRED
      invariant FieldsEdited(s, host, port, record, FieldSet(fields[..j]), lines, edited)
      invariant missing == MissingLines(s, host, port, record, fields[..j])
      invariant changed <==> edited != lines || missing != []
    {
      FieldsSnoc(s, host, port, record, fields, j);
      var k := EntryKey(record, fields[j]);
      ghost var before := edited;
      var lacking, altered;
      edited, lacking, altered := SetField(index, edited, k, TargetLine(host, port, k));
      missing, changed := missing + lacking, changed || altered;
      OneFieldMore(s, host, port, record, FieldSet(fields[..j]), fields[j], lines, before, edited);
    }
    assert fields[..|fields|] == fields;
  }

  /** The second inner loop: empties the stale fields a host has. */
  method EmptyFields(
    ghost s: Survey, index: map<EntryKey, nat>, host: string, port: nat,
    lines: seq<Line>, record: RecordKey, fields: seq<Field>)
    returns (edited: seq<Line>, changed: bool)
    requires SoundIndex(s) && index == s.index && |lines| == |s.entries| && record in s.paired
    requires forall f | f in fields :: f in STALE
    ensures FieldsEdited(s, host, port, record, FieldSet(fields), lines, edited)
    ensures changed <==> edited != lines
  {
    edited, changed := lines, false;
    for j := 0 to |fields|
      invariant FieldsEdited(s, host, port, record, FieldSet(fields[..j]), lines, edited)
      invariant changed <==> edited != lines
    {
      FieldsSnoc(s, host, port, record, fields, j);
      assert fields[j] in fields;
      var k := EntryKey(record, fields[j]);
      ghost var before := edited;
      if k in index {
        var lacking, altered;
        edited, lacking, altered := SetField(index, edited, k, TargetLine(host, port, k));
        changed := changed || altered;
      }
      OneFieldMore(s, host, port, record, FieldSet(fields[..j]), fields[j], lines, before, edited);
    }
    assert fields[..|fields|] == fields;
  }

  /** What editing the hosts in a list does to line `i`. */
  function RecordsLine(s: Survey, host: string, port: nat, records: seq<RecordKey>, i: nat, line: Line): Line
    requires i < |s.entries|
  {
    if Edited(s, host, port, i) && s.entries[i].value.record in records
    then TargetLine(host, port, s.entries[i].value)
    else line
  }

  /** The lines while the hosts in a list have been edited. */
  ghost predicate RecordsEdited(
    s: Survey, host: string, port: nat, records: seq<RecordKey>, lines: seq<Line>, edited: seq<Line>)
  {
    && |edited| == |lines| == |s.entries|
    && forall i | 0 <= i < |lines| :: edited[i] == RecordsLine(s, host, port, records, i, lines[i])
  }

  lemma OneLineEdited(
    s: Survey, host: string, port: nat, records: seq<RecordKey>, record: RecordKey, i: nat,
    line: Line, before: Line, required: Line, after: Line)
    requires i < |s.entries| && before == RecordsLine(s, host, port, records, i, line)
    requires
      if record in s.paired then
        && required == FieldsLine(s, host, port, record, FieldSet(REQUIRED), i, before)
        && after == FieldsLine(s, host, port, record, FieldSet(STALE), i, required)
      else before == required == after
    ensures after == RecordsLine(s, host, port, records + [record], i, line)
  {
    if Edited(s, host, port, i) {
      var f := s.entries[i].value.field;
      assert f in FieldSet(REQUIRED) || f in FieldSet(STALE);
    }
  }

  lemma OneRecordEdited(
    s: Survey, host: string, port: nat, records: seq<RecordKey>, record: RecordKey,
    lines: seq<Line>, before: seq<Line>, required: seq<Line>, after: seq<Line>)
    requires SoundIndex(s)
    requires RecordsEdited(s, host, port, records, lines, before)
    requires
      if record in s.paired then
        && FieldsEdited(s, host, port, record, FieldSet(REQUIRED), before, required)
        && FieldsEdited(s, host, port, record, FieldSet(STALE), required, after)
      else before == required == after
    ensures RecordsEdited(s, host, port, records + [record], lines, after)
  {
    forall i | 0 <= i < |lines| ensures after[i] == RecordsLine(s, host, port, records + [record], i, lines[i]) {
      OneLineEdited(s, host, port, records, record, i, lines[i], before[i], required[i], after[i]);
    }
  }

  /** A line that has been edited stays edited. */
  lemma OneRecordMore(
    s: Survey, host: string, port: nat, records: seq<RecordKey>, record: RecordKey,
    lines: seq<Line>, before: seq<Line>, required: seq<Line>, after: seq<Line>)
    requires SoundIndex(s)
    requires RecordsEdited(s, host, port, records, lines, before)
    requires
      if record in s.paired then
        && FieldsEdited(s, host, port, record, FieldSet(REQUIRED), before, required)
        && FieldsEdited(s, host, port, record, FieldSet(STALE), required, after)
      else before == required == after
    ensures RecordsEdited(s, host, port, records + [record], lines, after)
    ensures before != lines || required != before || after != required ==> after != lines
  {
    OneRecordEdited(s, host, port, records, record, lines, before, required, after);
    if before != lines {
      var i :| 0 <= i < |lines| && before[i] != lines[i];
      assert after[i] != lines[i];
    }
  }

  function Pending(insertions: map<Section, seq<Line>>, section: Section): seq<Line> {
    if section in insertions then insertions[section] else []
  }

  /** What is to be inserted once the hosts in a list have been edited. */
  ghost predicate Collected(
    s: Survey, host: string, port: nat, records: seq<RecordKey>, insertions: map<Section, seq<Line>>) {
    && Pending(insertions, HostsBackup) == SectionLines(s, host, port, HostsBackup, records)
    && Pending(insertions, Hosts) == SectionLines(s, host, port, Hosts, records)
  }

  lemma {:induction false} CollectMore(
    s: Survey, host: string, port: nat, records: seq<RecordKey>, record: RecordKey,
    before: map<Section, seq<Line>>, missing: seq<Line>, after: map<Section, seq<Line>>)
    requires Collected(s, host, port, records, before)
    requires record in s.paired ==> missing == MissingLines(s, host, port, record, REQUIRED) && IsHostSection(record.section)
    requires record !in s.paired ==> missing == []
    requires after == if missing == [] then before else before[record.section := Pending(before, record.section) + missing]
    ensures Collected(s, host, port, records + [record], after)
  {
    assert (records + [record])[..|records|] == records;
    assert forall lines: seq<Line> :: lines + [] == lines;
  }

  /** What one round of the second pass does to the lines of a host, by way of `required`. */
  ghost predicate RecordEdits(
    s: Survey, host: string, port: nat, record: RecordKey,
    before: seq<Line>, required: seq<Line>, after: seq<Line>, missing: seq<Line>)
  {
    if record in s.paired then
      && FieldsEdited(s, host, port, record, FieldSet(REQUIRED), before, required)
      && FieldsEdited(s, host, port, record, FieldSet(STALE), required, after)
      && missing == MissingLines(s, host, port, record, REQUIRED)
    else before == required == after && missing == []
  }

  /** One round of the second pass: edits the lines of a host in place and collects what is to be inserted. */
  method EditRecord(
    ghost s: Survey, index: map<EntryKey, nat>, paired: set<RecordKey>, host: string, port: nat,
    lines: seq<Line>, record: RecordKey)
    returns (edited: seq<Line>, missing: seq<Line>, changed: bool, ghost required: seq<Line>)
    requires SoundIndex(s) && index == s.index && paired == s.paired && |lines| == |s.entries|
    ensures RecordEdits(s, host, port, record, lines, required, edited, missing)
    ensures !changed ==> edited == lines && missing == []
    ensures changed ==> required != lines || edited != required || missing != []
  {
    edited, missing, changed, required := lines, [], false, lines;
    if record in paired {
      var emptied;
      edited, missing, changed := SetFields(s, index, host, port, edited, record, REQUIRED);
      required := edited;
      edited, emptied := EmptyFields(s, index, host, port, edited, record, STALE);
      changed := changed || emptied;
    }
  }

  /** Something is edited or to be inserted. */
  predicate Changes(lines: seq<Line>, edited: seq<Line>, insertions: map<Section, seq<Line>>) {
    edited != lines || Pending(insertions, HostsBackup) != [] || Pending(insertions, Hosts) != []
  }

  lemma ChangesMore(
    lines: seq<Line>, before: seq<Line>, after: seq<Line>,
    collected: map<Section, seq<Line>>, missing: seq<Line>, insertions: map<Section, seq<Line>>, section: Section)
    requires missing != [] ==> IsHostSection(section)
    requires insertions == if missing == [] then collected else collected[section := Pending(collected, section) + missing]
    requires before != lines || after != before ==> after != lines
    ensures Changes(lines, after, insertions) <==> Changes(lines, before, collected) || after != before || missing != []
  {
  }

  /** Where the second pass is when the hosts in a list have been edited. */
  ghost predicate RecordsDone(
    s: Survey, host: string, port: nat, records: seq<RecordKey>, lines: seq<Line>,
    edited: seq<Line>, insertions: map<Section, seq<Line>>, updated: bool)
  {
    && RecordsEdited(s, host, port, records, lines, edited)
    && Collected(s, host, port, records, insertions)
    && (updated <==> Changes(lines, edited, insertions))
  }

  lemma OneRecordDone(
    s: Survey, host: string, port: nat, records: seq<RecordKey>, record: RecordKey, lines: seq<Line>,
    before: seq<Line>, collected: map<Section, seq<Line>>, updated: bool,
    required: seq<Line>, after: seq<Line>, missing: seq<Line>, changed: bool, insertions: map<Section, seq<Line>>)
    requires Sound(s) && RecordsDone(s, host, port, records, lines, before, collected, updated)
    requires RecordEdits(s, host, port, record, before, required, after, missing)
    requires !changed ==> after == before && missing == []
    requires changed ==> required != before || after != required || missing != []
    requires insertions == if missing == [] then collected else collected[record.section := Pending(collected, record.section) + missing]
    ensures RecordsDone(s, host, port, records + [record], lines, after, insertions, updated || changed)
  {
    OneRecordMore(s, host, port, records, record, lines, before, required, after);
    PairedSection(s, record);
    CollectMore(s, host, port, records, record, collected, missing, insertions);
    ChangesMore(lines, before, after, collected, missing, insertions, record.section);
  }

  /** One host: its lines edited, what it lacks added to what is to be inserted. */
  method EditHost(
    ghost s: Survey, index: map<EntryKey, nat>, paired: set<RecordKey>, host: string, port: nat, record: RecordKey,
    ghost records: seq<RecordKey>, ghost lines: seq<Line>, before: seq<Line>, collected: map<Section, seq<Line>>, was: bool)
    returns (edited: seq<Line>, insertions: map<Section, seq<Line>>, updated: bool)
    requires Sound(s) && index == s.index && paired == s.paired
    requires RecordsDone(s, host, port, records, lines, before, collected, was)
    ensures RecordsDone(s, host, port, records + [record], lines, edited, insertions, updated)
  {
    var missing, changed;
    ghost var required;
    edited, missing, changed, required := EditRecord(s, index, paired, host, port, before, record);
    insertions := collected;
    if missing != [] {
      insertions := insertions[record.section := Pending(insertions, record.section) + missing];
    }
    updated := was || changed;
    OneRecordDone(s, host, port, records, record, lines, before, collected, was, required, edited, missing, changed, insertions);
  }

  /** Second pass, over all hosts. */
  method EditRecords(
    ghost s: Survey, order: seq<RecordKey>, index: map<EntryKey, nat>, paired: set<RecordKey>,
    host: string, port: nat, lines: seq<Line>)
    returns (edited: seq<Line>, insertions: map<Section, seq<Line>>, updated: bool)
    requires Sound(s) && order == s.order && index == s.index && paired == s.paired && |lines| == |s.entries|
    ensures edited == EditedLines(s, host, port, lines)
    ensures Collected(s, host, port, order, insertions)
    ensures updated <==> Changes(lines, edited, insertions)
  {
    edited, insertions, updated := lines, map[], false;
    NoneDone(s, host, port, lines);
    for j := 0 to |order|
      invariant RecordsDone(s, host, port, order[..j], lines, edited, insertions, updated)
    {
      edited, insertions, updated :=
        EditHost(s, index, paired, host, port, order[j], order[..j], lines, edited, insertions, updated);
      assert order[..j + 1] == order[..j] + [order[j]];
    }
    assert order[..|order|] == order;
    AllRecordsEdited(s, host, port, lines, edited);
  }

  lemma NoneDone(s: Survey, host: string, port: nat, lines: seq<Line>)
    requires |lines| == |s.entries|
    ensures RecordsDone(s, host, port, [], lines, lines, map[], false)
  {
  }

  lemma PairedSection(s: Survey, record: RecordKey)
    requires SoundOrder(s) && SoundEnds(s)
    ensures record in s.paired ==> IsHostSection(record.section)
  {
    if record in s.paired {
      assert EntryKey(record, SrvCert) in s.index;
    }
  }

  lemma AllRecordsEdited(s: Survey, host: string, port: nat, lines: seq<Line>, edited: seq<Line>)
    requires Sound(s) && RecordsEdited(s, host, port, s.order, lines, edited)
    ensures edited == EditedLines(s, host, port, lines)
  {
    forall i | 0 <= i < |lines| ensures edited[i] == EditedLine(s, host, port, i, lines[i]) {
      if Edited(s, host, port, i) {
        assert s.entries[i].value.record in s.order;
      }
    }
  }

  // ------------------------------------------------------------------ third pass

  function InsertAt(lines: seq<Line>, n: nat, added: seq<Line>): seq<Line>
    requires n <= |lines|
  {
    lines[..n] + added + lines[n..]
  }

  /** Weaving with the added lines given: `blocks[n]` follows line `n`. */
  function Woven(body: seq<Line>, blocks: seq<seq<Line>>): seq<Line>
    requires |body| == |blocks|
  {
    if body == [] then []
    else
      var m := |body| - 1;
      Woven(body[..m], blocks[..m]) + [body[m]] + blocks[m]
  }

  function Blocks(s: Survey, host: string, port: nat, n: nat): (b: seq<seq<Line>>)
    ensures |b| == n && forall i | 0 <= i < n :: b[i] == LinesAt(s, host, port, i + 1)
  {
    seq(n, i requires 0 <= i < n => LinesAt(s, host, port, i + 1))
  }

  lemma {:induction false} WeaveIsWoven(s: Survey, host: string, port: nat, body: seq<Line>)
    ensures Weave(s, host, port, body) == Woven(body, Blocks(s, host, port, |body|))
  {
    if body != [] {
      var m := |body| - 1;
      WeaveIsWoven(s, host, port, body[..m]);
      assert Blocks(s, host, port, |body|)[..m] == Blocks(s, host, port, m);
    }
  }

  lemma SliceSnoc(s: seq<Line>, from: nat, n: nat)
    requires from < n <= |s|
    ensures s[from..n] == s[from..n - 1] + [s[n - 1]]
  {
  }

  /** Without additions, weaving copies. */
  lemma {:induction false} WovenCopies(body: seq<Line>, blocks: seq<seq<Line>>, from: nat, n: nat)
    requires |body| == |blocks| && from <= n <= |body|
    requires forall m | from <= m < n :: blocks[m] == []
    ensures Woven(body[..n], blocks[..n]) == Woven(body[..from], blocks[..from]) + body[from..n]
  {
    if from == n {
      assert body[from..n] == [];
    } else {
      WovenCopies(body, blocks, from, n - 1);
      WovenLast(body, blocks, n);
      SliceSnoc(body, from, n);
    }
  }

  lemma WovenLast(body: seq<Line>, blocks: seq<seq<Line>>, n: nat)
    requires 0 < n <= |body| == |blocks|
    ensures Woven(body[..n], blocks[..n]) == Woven(body[..n - 1], blocks[..n - 1]) + [body[n - 1]] + blocks[n - 1]
  {
    assert body[..n][..n - 1] == body[..n - 1] && blocks[..n][..n - 1] == blocks[..n - 1];
  }

  lemma WovenAdds(body: seq<Line>, blocks: seq<seq<Line>>, from: nat, n: nat)
    requires from < n <= |body| == |blocks|
    requires forall m | from <= m < n - 1 :: blocks[m] == []
    ensures Woven(body[..n], blocks[..n]) == Woven(body[..from], blocks[..from]) + body[from..n] + blocks[n - 1]
  {
    WovenCopies(body, blocks, from, n - 1);
    WovenLast(body, blocks, n);
    SliceSnoc(body, from, n);
  }

  lemma {:induction false} WovenNothing(body: seq<Line>, blocks: seq<seq<Line>>)
    requires |body| == |blocks| && forall m | 0 <= m < |body| :: blocks[m] == []
    ensures Woven(body, blocks) == body
  {
    WovenCopies(body, blocks, 0, |body|);
    assert body[..|body|] == body && blocks[..|body|] == blocks && body[0..|body|] == body;
  }

  lemma WovenFirst(body: seq<Line>, blocks: seq<seq<Line>>, n: nat)
    requires 0 < n <= |body| == |blocks|
    requires forall m | 0 <= m < n - 1 :: blocks[m] == []
    ensures Woven(body[..n], blocks[..n]) == body[0..n] + blocks[n - 1]
  {
    WovenAdds(body, blocks, 0, n);
    assert Woven(body[..0], blocks[..0]) == [];
  }

  lemma {:induction false} WovenRest(body: seq<Line>, blocks: seq<seq<Line>>, n: nat)
    requires n <= |body| == |blocks|
    requires forall m | n <= m < |body| :: blocks[m] == []
    ensures Woven(body, blocks) == Woven(body[..n], blocks[..n]) + body[n..|body|]
  {
    WovenCopies(body, blocks, n, |body|);
    assert body[..|body|] == body && blocks[..|body|] == blocks;
  }

  lemma {:induction false} WovenOnce(body: seq<Line>, blocks: seq<seq<Line>>, n: nat)
    requires 0 < n <= |body| == |blocks|
    requires forall m | 0 <= m < |body| && m != n - 1 :: blocks[m] == []
    ensures Woven(body, blocks) == InsertAt(body, n, blocks[n - 1])
  {
    WovenFirst(body, blocks, n);
    WovenRest(body, blocks, n);
  }

  /** Inserting from the back leaves the earlier position valid: together that is weaving. */
  lemma {:induction false} WovenTwice(body: seq<Line>, blocks: seq<seq<Line>>, first: nat, second: nat)
    requires 0 < first < second <= |body| == |blocks|
    requires forall m | 0 <= m < |body| && m != first - 1 && m != second - 1 :: blocks[m] == []
    ensures Woven(body, blocks) == InsertAt(InsertAt(body, second, blocks[second - 1]), first, blocks[first - 1])
  {
    WovenFirst(body, blocks, first);
    WovenAdds(body, blocks, first, second);
    WovenRest(body, blocks, second);
    InsertTwice(body, first, second, blocks[first - 1], blocks[second - 1]);
  }

  lemma InsertTwice(body: seq<Line>, first: nat, second: nat, a: seq<Line>, b: seq<Line>)
    requires first < second <= |body|
    ensures InsertAt(InsertAt(body, second, b), first, a)
         == body[0..first] + a + body[first..second] + b + body[second..|body|]
  {
    var once := InsertAt(body, second, b);
    assert once[..first] == body[0..first];
    assert once[first..] == body[first..second] + b + body[second..|body|];
  }

  /** The sections that have an end, the last one first. */
  function SectionsByEnd(ends: map<Section, nat>): seq<Section> {
    if HostsBackup in ends && Hosts in ends then
      if ends[Hosts] > ends[HostsBackup] then [Hosts, HostsBackup] else [HostsBackup, Hosts]
    else if HostsBackup in ends then [HostsBackup]
    else if Hosts in ends then [Hosts]
    else []
  }

  /** Third pass: inserts the collected lines at the ends of their sections, back to front. */
  lemma InsertNothing(lines: seq<Line>, n: nat)
    requires n <= |lines|
    ensures InsertAt(lines, n, []) == lines
  {
  }

  method InsertLines(
    ghost s: Survey, ends: map<Section, nat>, insertions: map<Section, seq<Line>>, host: string, port: nat, body: seq<Line>)
    returns (lines: seq<Line>)
    requires Sound(s) && ends == s.ends && |body| == |s.sections| && Collected(s, host, port, s.order, insertions)
    ensures lines == Weave(s, host, port, body)
  {
    lines := body;
    var sections := SectionsByEnd(ends);
    for j := 0 to |sections|
      invariant |lines| >= |body|
      invariant j == 0 ==> lines == body
      invariant j == 1 ==> lines == InsertAt(body, ends[sections[0]], Pending(insertions, sections[0]))
      invariant j == 2 ==>
        lines == InsertAt(InsertAt(body, ends[sections[0]], Pending(insertions, sections[0])),
                          ends[sections[1]], Pending(insertions, sections[1]))
    {
      var n := ends[sections[j]];
      var added := Pending(insertions, sections[j]);
      InsertNothing(lines, n);
      if added != [] {
        lines := lines[..n] + added + lines[n..];
      }
    }
    InsertedIsWoven(s, insertions, host, port, body, sections);
  }

  lemma LinesAtEnd(s: Survey, insertions: map<Section, seq<Line>>, host: string, port: nat, n: nat)
    requires SoundEnds(s) && Collected(s, host, port, s.order, insertions)
    ensures LinesAt(s, host, port, n) == AddedAfter(s.ends, insertions, n)
  {
    var a, b := Pending(insertions, HostsBackup), Pending(insertions, Hosts);
    assert a + [] == a && [] + b == b;
  }

  function AddedAfter(ends: map<Section, nat>, insertions: map<Section, seq<Line>>, n: nat): seq<Line> {
    if HostsBackup in ends && ends[HostsBackup] == n then Pending(insertions, HostsBackup)
    else if Hosts in ends && ends[Hosts] == n then Pending(insertions, Hosts)
    else []
  }

  lemma {:induction false} InsertedIsWoven(
    s: Survey, insertions: map<Section, seq<Line>>, host: string, port: nat, body: seq<Line>, sections: seq<Section>)
    requires Sound(s) && |body| == |s.sections| && Collected(s, host, port, s.order, insertions)
    requires sections == SectionsByEnd(s.ends)
    ensures
      Weave(s, host, port, body)
      == if sections == [] then body
         else if |sections| == 1 then InsertAt(body, s.ends[sections[0]], Pending(insertions, sections[0]))
         else InsertAt(InsertAt(body, s.ends[sections[0]], Pending(insertions, sections[0])),
                       s.ends[sections[1]], Pending(insertions, sections[1]))
  {
    var blocks := Blocks(s, host, port, |body|);
    WeaveIsWoven(s, host, port, body);
    forall n | 0 <= n < |body| ensures blocks[n] == AddedAfter(s.ends, insertions, n + 1) {
      LinesAtEnd(s, insertions, host, port, n + 1);
    }
    BlocksInserted(s, insertions, body, sections, blocks);
  }

  lemma {:induction false} BlocksInserted(
    s: Survey, insertions: map<Section, seq<Line>>, body: seq<Line>, sections: seq<Section>, blocks: seq<seq<Line>>)
    requires SoundEnds(s) && |body| == |s.sections| == |blocks| && sections == SectionsByEnd(s.ends)
    requires forall n | 0 <= n < |body| :: blocks[n] == AddedAfter(s.ends, insertions, n + 1)
    ensures
      Woven(body, blocks)
      == if sections == [] then body
         else if |sections| == 1 then InsertAt(body, s.ends[sections[0]], Pending(insertions, sections[0]))
         else InsertAt(InsertAt(body, s.ends[sections[0]], Pending(insertions, sections[0])),
                       s.ends[sections[1]], Pending(insertions, sections[1]))
  {
    if sections == [] {
      WovenNothing(body, blocks);
    } else if |sections| == 1 {
      WovenOnce(body, blocks, s.ends[sections[0]]);
    } else {
      WovenTwice(body, blocks, s.ends[sections[1]], s.ends[sections[0]]);
    }
  }

  /** There is something to edit or insert exactly when the file changes. */
  lemma {:induction false} UpdatedIffChanged(lines: seq<Line>, insertions: map<Section, seq<Line>>, host: string, port: nat)
    requires |SurveyOf(lines).entries| == |lines| && Collected(SurveyOf(lines), host, port, SurveyOf(lines).order, insertions)
    ensures Rewritten(lines, host, port) != lines <==>
      || EditedLines(SurveyOf(lines), host, port, lines) != lines
      || Pending(insertions, HostsBackup) + Pending(insertions, Hosts) != []
  {
    var s, c := SurveyOf(lines), Read(lines);
    SurveyIsSound(lines);
    SurveyAgrees(lines);
    if Rewritten(lines, host, port) == lines {
      RewriteRenames(lines, host, port);
      NothingEdited(s, host, port, c, lines);
      assert RequiredKeys(c.pinned) <= Renamed(c, host, port).lines.Keys;
      NoSectionLines(s, host, port, HostsBackup, s.order);
      NoSectionLines(s, host, port, Hosts, s.order);
    } else if Pending(insertions, HostsBackup) + Pending(insertions, Hosts) == [] {
      var body := EditedLines(s, host, port, lines);
      WeaveIsWoven(s, host, port, body);
      WovenNothing(body, Blocks(s, host, port, |body|));
    }
  }

  /**
   * The whole rewrite of a file, as lines of text: what it leaves is `Rewritten`, and it reports
   * an update exactly when it changes something.
   */
  method RewriteSettings(raws: seq<string>, host: string, port: nat) returns (rewritten: seq<string>, updated: bool)
    requires Trimmed(host)
    ensures rewritten == Raws(Rewritten(Lines(raws), host, port))
    ensures Lines(rewritten) == Rewritten(Lines(raws), host, port)
    ensures updated <==> rewritten != raws
  {
    var lines := Lines(raws);
    ghost var s := SurveyOf(lines);
    SurveyLength(lines);
    SurveyIsSound(lines);
    RewriteFaithful(lines, host, port);
    assert Raws(lines) == raws;
    var ends, order, index, paired := SurveyLines(lines);
    var edited, insertions;
    edited, insertions, updated := EditRecords(s, order, index, paired, host, port, lines);
    var woven := InsertLines(s, ends, insertions, host, port, edited);
    UpdatedIffChanged(lines, insertions, host, port);
    if !updated {
      return raws, false;
    }
    rewritten := Raws(woven);
  }
}
