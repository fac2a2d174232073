/** The rewriter's edits mean exactly the renaming of the paired hosts, and nothing is left to edit after them. */
module WorkspaceProofs {
  import opened Wrappers
  import opened Text
  import opened WorkspaceModel

  // ------------------------------------------------------------------ rendered lines read back

  predicate PlainField(f: string) {
    f != "" && forall i | 0 <= i < |f| :: IsWordChar(f[i]) && LowerChar(f[i]) == f[i]
  }

  lemma FieldNamesReadBack(f: Field)
    requires !f.OtherField?
    ensures ToField(FieldName(f)) == f
  {
  }

  lemma FieldNamesArePlain(f: Field)
    requires !f.OtherField?
    ensures PlainField(FieldName(f)) && ToField(FieldName(f)) == f
  {
    FieldNamesReadBack(f);
    PlainNames(f);
  }

  lemma PlainNames(f: Field)
    requires !f.OtherField?
    ensures PlainField(FieldName(f))
  {
  }

  lemma {:induction false} IndexOfAt(s: string, c: char, i: nat)
    requires i < |s| && s[i] == c && forall j | 0 <= j < i :: s[j] != c
    ensures IndexOf(s, c) == i
  {
  }

  lemma {:induction false} SeparatorIndexAt(s: string, i: nat)
    requires i < |s| && s[i] == '\\' && forall j | 0 <= j < i :: s[j] != '/' && s[j] != '\\'
    ensures SeparatorIndex(s) == i
  {
  }

  lemma {:induction false} ParseRenderedKey(index: nat, field: string)
    requires PlainField(field)
    ensures ParseKey(NatToString(index) + "\\" + field) == Some(HostField(index, ToField(field)))
  {
    var digits := NatToString(index);
    var key := digits + "\\" + field;
    SeparatorIndexAt(key, |digits|);
    assert key[..|digits|] == digits && key[|digits| + 1..] == field;
    assert Lower(field) == field;
    ParseNatToString(index);
  }

  lemma NoHeader(line: string)
    requires line != "" && line[0] != '[' && line[0] != '#' && line[0] != ';'
    ensures StrippedShape(line) == SettingShape(line)
  {
  }

  lemma {:induction false} SettingAt(line: string, n: nat)
    requires n < |line| && IndexOf(line, '=') == n
    ensures SettingShape(line) == KeyedSetting(Strip(line[..n]), Strip(line[n + 1..]))
  {
  }

  lemma {:induction false} SettingLine(name: string, tail: string, line: string)
    requires line == name + "=" + tail
    requires forall j | 0 <= j < |name| :: name[j] != '='
    ensures IndexOf(line, '=') == |name| < |line| && line[..|name|] == name && line[|name| + 1..] == tail
  {
    IndexOfAt(line, '=', |name|);
  }

  lemma SettingOf(name: string, tail: string, line: string)
    requires name != "" && name[0] != '[' && name[0] != '#' && name[0] != ';'
    requires forall j | 0 <= j < |name| :: name[j] != '='
    requires line == name + "=" + tail
    ensures StrippedShape(line) == KeyedSetting(Strip(name), Strip(tail))
  {
    SettingLine(name, tail, line);
    NoHeader(line);
    SettingAt(line, |name|);
  }

  /** The shape of a rendered line, whatever the value. */
  lemma RenderShape(name: string, value: string)
    requires name != "" && !IsSpace(name[0]) && !IsSpace(name[|name| - 1])
    requires name[0] != '[' && name[0] != '#' && name[0] != ';'
    requires forall j | 0 <= j < |name| :: name[j] != '='
    ensures Shape(name + "=" + value) == Setting(Lower(name), Strip(value), ParseKey(name))
  {
    StripAppend(name + "=", value);
    SettingOf(name, TrimRight(value), name + "=" + TrimRight(value));
    StripTrimmed(name);
    StripTrimRight(value);
  }

  lemma {:induction false} RenderedNameIsPlain(index: nat, field: string)
    requires PlainField(field)
    ensures var name := NatToString(index) + "\\" + field;
            && IsDigit(name[0]) && IsWordChar(name[|name| - 1])
            && (forall j | 0 <= j < |name| :: name[j] != '=')
            && Lower(name) == name
  {
    var digits := NatToString(index);
    var name := digits + "\\" + field;
    assert name[0] == digits[0] && name[|name| - 1] == field[|field| - 1];
    forall j | 0 <= j < |name| ensures name[j] != '=' && LowerChar(name[j]) == name[j] {
      if j < |digits| {
        assert name[j] == digits[j];
      } else if j > |digits| {
        assert name[j] == field[j - |digits| - 1];
      }
    }
  }

  /** A rendered line reads back as its own key with its own value. */
  lemma RenderReadsBack(k: EntryKey, value: string)
    requires !k.field.OtherField? && Trimmed(value)
    ensures Shape(Render(k, value)) == Setting(RenderedName(k), value, Some(HostField(k.record.index, k.field)))
  {
    var field := FieldName(k.field);
    FieldNamesArePlain(k.field);
    RenderedNameIsPlain(k.record.index, field);
    RenderShape(RenderedName(k), value);
    ParseRenderedKey(k.record.index, field);
    StripTrimmed(value);
  }

  // ------------------------------------------------------------------ the bookkeeping is right

  /** The bookkeeping hangs together. */
  ghost predicate Sound(s: Survey) {
    && |s.entries| == |s.sections|
    && SoundIndex(s)
    && SoundOrder(s)
    && SoundEnds(s)
  }

  /** `index` gives the last line of each entry. */
  ghost predicate SoundIndex(s: Survey) {
    && (forall k | k in s.index :: s.index[k] < |s.entries| && s.entries[s.index[k]] == Some(k))
    && (forall i | 0 <= i < |s.entries| && s.entries[i].Some? ::
          s.entries[i].value in s.index && i <= s.index[s.entries[i].value])
  }

  /** Every host is listed, and its section has an end. */
  ghost predicate SoundOrder(s: Survey) {
    && (forall k | k in s.index :: k.record in s.order && k.record.section in s.ends)
    && (forall r | r in s.paired :: EntryKey(r, SrvCert) in s.index)
  }

  /** The line before the end of a section stands in that section. */
  ghost predicate EndsAt(s: Survey, x: Section)
    requires x in s.ends
  {
    IsHostSection(x) && 0 < s.ends[x] <= |s.sections| && s.sections[s.ends[x] - 1] == x
  }

  ghost predicate SoundEnds(s: Survey) {
    && (IsHostSection(s.Active()) ==> s.Active() in s.ends)
    && (forall x | x in s.ends :: EndsAt(s, x))
  }

  ghost predicate Placed(s: Survey, e: LineEffect) {
    && (e.Sets? ==> e.key.record.section == s.Active() && IsHostSection(s.Active()))
    && (e.Sets? && e.pins ==> e.key.field.SrvCert?)
  }

  lemma NoteSoundIndex(s: Survey, e: LineEffect)
    requires |s.entries| == |s.sections| && SoundIndex(s)
    ensures SoundIndex(Note(s, e))
  {
    var t := Note(s, e);
    var n := |s.entries|;
    forall k | k in t.index ensures t.index[k] < n + 1 && t.entries[t.index[k]] == Some(k) {
      if !(e.Sets? && e.key == k) {
        assert k in s.index && t.index[k] == s.index[k];
      }
    }
    forall i | 0 <= i < n + 1 && t.entries[i].Some?
      ensures t.entries[i].value in t.index && i <= t.index[t.entries[i].value]
    {
      if i < n {
        assert t.entries[i] == s.entries[i];
      }
    }
  }

  lemma NoteSoundOrder(s: Survey, e: LineEffect)
    requires Placed(s, e) && SoundOrder(s)
    ensures SoundOrder(Note(s, e))
  {
    var t := Note(s, e);
    forall k | k in t.index ensures k.record in t.order && k.record.section in t.ends {
      if !(e.Sets? && e.key == k) {
        assert k in s.index;
      }
    }
  }

  lemma NoteSoundEnds(s: Survey, e: LineEffect)
    requires SoundEnds(s)
    ensures SoundEnds(Note(s, e))
  {
    var t := Note(s, e);
    forall x | x in t.ends ensures EndsAt(t, x) {
      NoteEndsAt(s, e, x);
    }
  }

  lemma NoteEndsAt(s: Survey, e: LineEffect, x: Section)
    requires SoundEnds(s) && x in Note(s, e).ends
    ensures EndsAt(Note(s, e), x)
  {
    var t := Note(s, e);
    if x in s.ends && t.ends[x] == s.ends[x] {
      assert t.sections[t.ends[x] - 1] == s.sections[s.ends[x] - 1];
    }
  }

  lemma NoteSound(s: Survey, e: LineEffect)
    requires Sound(s) && Placed(s, e)
    ensures Sound(Note(s, e))
  {
    NoteSoundIndex(s, e);
    NoteSoundOrder(s, e);
    NoteSoundEnds(s, e);
  }

  lemma {:induction false} SurveyIsSound(lines: seq<Line>)
    ensures Sound(SurveyOf(lines))
  {
    if lines != [] {
      var before := lines[..|lines| - 1];
      SurveyIsSound(before);
      NoteSound(SurveyOf(before), EffectOf(SurveyOf(before).Active(), lines[|lines| - 1]));
    }
  }

  /** What the bookkeeping of a file has to do with its meaning. */
  ghost predicate Agrees(s: Survey, c: Contents, lines: seq<Line>) {
    && |s.entries| == |s.sections| == |lines|
    && s.Active() == c.section
    && s.paired == c.pinned
    && s.index.Keys == c.lines.Keys
    && forall k | k in s.index :: s.index[k] < |lines| && lines[s.index[k]] == c.lines[k]
  }

  lemma NoteAgrees(s: Survey, c: Contents, e: LineEffect, lines: seq<Line>, line: Line)
    requires Agrees(s, c, lines)
    ensures Agrees(Note(s, e), Apply(c, e, line), lines + [line])
  {
    var s', c', lines' := Note(s, e), Apply(c, e, line), lines + [line];
    assert |s.sections| == |lines|;
    forall k | k in s'.index ensures s'.index[k] < |lines'| && lines'[s'.index[k]] == c'.lines[k] {
      if !(e.Sets? && k == e.key) {
        assert k in s.index && s'.index[k] == s.index[k];
      }
    }
  }

  ghost predicate FileAgrees(lines: seq<Line>) {
    Agrees(SurveyOf(lines), Read(lines), lines)
  }

  lemma {:induction false} SurveyAgrees(lines: seq<Line>)
    ensures FileAgrees(lines)
  {
    if lines != [] {
      var before, line := lines[..|lines| - 1], lines[|lines| - 1];
      assert before + [line] == lines;
      SurveyAgrees(before);
      SurveySnoc(before, line);
      ReadSnoc(EMPTY, before, line);
      NoteAgrees(SurveyOf(before), Read(before), EffectOf(SurveyOf(before).Active(), line), before, line);
    }
  }

  /** The bookkeeping of more lines. */
  ghost predicate Extends(t: Survey, s: Survey) {
    s.entries <= t.entries && s.sections <= t.sections
  }

  lemma NoteExtends(t: Survey, s: Survey, e: LineEffect)
    requires Extends(t, s)
    ensures Extends(Note(t, e), s)
  {
    var n := Note(t, e);
    assert n.entries[..|t.entries|] == t.entries && n.sections[..|t.sections|] == t.sections;
  }

  lemma {:induction false} SurveyExtends(a: seq<Line>, b: seq<Line>)
    ensures Extends(SurveyOf(a + b), SurveyOf(a))
  {
    if b == [] {
      assert a + b == a;
    } else {
      var before, line := b[..|b| - 1], b[|b| - 1];
      SurveyExtends(a, before);
      assert a + before + [line] == a + b;
      var t := SurveyOf(a + before);
      NoteExtends(t, SurveyOf(a), EffectOf(t.Active(), line));
      SurveySnoc(a + before, line);
    }
  }

  lemma NoteLast(s: Survey, e: LineEffect, t: Survey)
    requires |s.entries| == |s.sections| && Extends(t, Note(s, e))
    ensures var n := |s.entries|;
            && n < |t.entries| && n < |t.sections|
            && t.entries[n] == (if e.Sets? then Some(e.key) else None)
            && t.sections[n] == (if e.Enters? then e.section else s.Active())
  {
    var n := |s.entries|;
    assert Note(s, e).entries[n] == t.entries[n] && Note(s, e).sections[n] == t.sections[n];
  }

  lemma {:induction false} SurveyBeginning(lines: seq<Line>, before: seq<Line>, line: Line, rest: seq<Line>)
    requires lines == before + [line] + rest
    ensures var s := SurveyOf(before); Extends(SurveyOf(lines), Note(s, EffectOf(s.Active(), line)))
  {
    SurveySnoc(before, line);
    SurveyExtends(before + [line], rest);
  }

  /** The effect of line `n`, seen in the bookkeeping of the whole file. */
  lemma {:induction false} EffectAt(lines: seq<Line>, n: nat)
    requires n < |lines|
    ensures var c, s := Read(lines[..n]), SurveyOf(lines);
            var e := EffectOf(c.section, lines[n]);
            && n < |s.entries| && n < |s.sections|
            && s.entries[n] == (if e.Sets? then Some(e.key) else None)
            && s.sections[n] == (if e.Enters? then e.section else c.section)
  {
    SurveyAgrees(lines[..n]);
    SurveyBeginning(lines, lines[..n], lines[n], lines[n + 1..]);
    NoteLast(SurveyOf(lines[..n]), EffectOf(Read(lines[..n]).section, lines[n]), SurveyOf(lines));
  }

  // ------------------------------------------------------------------ the edited lines

  predicate Done(s: Survey, host: string, port: nat, k: EntryKey, n: nat) {
    k in s.index && s.index[k] < n && k.record in s.paired && Target(host, port, k.field).Some?
  }

  /** The contents of a prefix, with the edits that fall in it made. */
  function HalfEdited(s: Survey, host: string, port: nat, c: Contents, n: nat): Contents {
    c.(lines := map k | k in c.lines :: if Done(s, host, port, k, n) then TargetLine(host, port, k) else c.lines[k])
  }

  lemma HalfEditedStep(s: Survey, host: string, port: nat, c: Contents, n: nat, e: LineEffect, line: Line)
    requires Sound(s) && n < |s.entries|
    requires s.entries[n] == (if e.Sets? then Some(e.key) else None)
    ensures Apply(HalfEdited(s, host, port, c, n), e, EditedLine(s, host, port, n, line))
         == HalfEdited(s, host, port, Apply(c, e, line), n + 1)
  {
    var d := Apply(HalfEdited(s, host, port, c, n), e, EditedLine(s, host, port, n, line));
    var d' := HalfEdited(s, host, port, Apply(c, e, line), n + 1);
    assert d.lines.Keys == d'.lines.Keys;
    forall k | k in d.lines ensures d.lines[k] == d'.lines[k] {
      if !(e.Sets? && e.key == k) {
        assert k in s.index ==> s.index[k] != n;
      }
    }
    assert d.lines == d'.lines;
  }

  lemma TargetLineEffect(host: string, port: nat, k: EntryKey)
    requires Target(host, port, k.field).Some? && IsHostSection(k.record.section)
    ensures EffectOf(k.record.section, TargetLine(host, port, k)) == Sets(k, false)
  {
  }

  /** An edited line does what the line before it did. */
  lemma EditKeepsEffect(s: Survey, host: string, port: nat, n: nat, section: Section, line: Line)
    requires n < |s.entries|
    requires var e := EffectOf(section, line); s.entries[n] == (if e.Sets? then Some(e.key) else None)
    ensures EffectOf(section, EditedLine(s, host, port, n, line)) == EffectOf(section, line)
  {
    if Edited(s, host, port, n) {
      TargetLineEffect(host, port, s.entries[n].value);
    }
  }

  lemma {:induction false} ReadEdited(lines: seq<Line>, host: string, port: nat, n: nat)
    requires n <= |lines| == |SurveyOf(lines).entries|
    ensures Read(EditedLines(SurveyOf(lines), host, port, lines)[..n])
         == HalfEdited(SurveyOf(lines), host, port, Read(lines[..n]), n)
  {
    if n > 0 {
      var s := SurveyOf(lines);
      var body := EditedLines(s, host, port, lines);
      var m := n - 1;
      ReadEdited(lines, host, port, m);
      ReadNext(body, m);
      ReadNext(lines, m);
      SurveyIsSound(lines);
      EffectAt(lines, m);
      var c := Read(lines[..m]);
      EditKeepsEffect(s, host, port, m, c.section, lines[m]);
      HalfEditedStep(s, host, port, c, m, EffectOf(c.section, lines[m]), lines[m]);
    }
  }

  // ------------------------------------------------------------------ the added lines

  function AddedLines(s: Survey, host: string, port: nat, keys: set<EntryKey>): map<EntryKey, Line> {
    map k | k in keys && k !in s.index && Target(host, port, k.field).Some? :: TargetLine(host, port, k)
  }

  function KeysOf(record: RecordKey, fields: seq<Field>): set<EntryKey> {
    set f | f in fields :: EntryKey(record, f)
  }

  lemma AddedKey(s: Survey, host: string, port: nat, base: map<EntryKey, Line>, keys: set<EntryKey>, k: EntryKey)
    requires k !in s.index && Target(host, port, k.field).Some?
    ensures base + AddedLines(s, host, port, keys + {k})
         == (base + AddedLines(s, host, port, keys))[k := TargetLine(host, port, k)]
  {
  }

  /** The contents `c` with the lines of some keys added. */
  function WithAdded(s: Survey, host: string, port: nat, c: Contents, keys: set<EntryKey>): Contents {
    c.(lines := c.lines + AddedLines(s, host, port, keys))
  }

  lemma WithNone(s: Survey, host: string, port: nat, c: Contents)
    ensures WithAdded(s, host, port, c, {}) == c
  {
    assert c.lines + AddedLines(s, host, port, {}) == c.lines;
  }

  lemma WithPresent(s: Survey, host: string, port: nat, c: Contents, keys: set<EntryKey>, k: EntryKey)
    requires k in s.index
    ensures WithAdded(s, host, port, c, keys + {k}) == WithAdded(s, host, port, c, keys)
  {
    assert AddedLines(s, host, port, keys + {k}) == AddedLines(s, host, port, keys);
  }

  lemma MergeTwice(m: map<EntryKey, Line>, a: map<EntryKey, Line>, b: map<EntryKey, Line>)
    ensures m + a + b == m + (a + b)
  {
  }

  lemma AddedUnion(s: Survey, host: string, port: nat, a: set<EntryKey>, b: set<EntryKey>)
    ensures AddedLines(s, host, port, a) + AddedLines(s, host, port, b) == AddedLines(s, host, port, a + b)
  {
  }

  lemma WithUnion(s: Survey, host: string, port: nat, c: Contents, a: set<EntryKey>, b: set<EntryKey>)
    ensures WithAdded(s, host, port, WithAdded(s, host, port, c, a), b) == WithAdded(s, host, port, c, a + b)
  {
    AddedUnion(s, host, port, a, b);
    MergeTwice(c.lines, AddedLines(s, host, port, a), AddedLines(s, host, port, b));
  }

  lemma {:induction false} ReadTargetLine(
    s: Survey, host: string, port: nat, c: Contents, lines: seq<Line>, keys: set<EntryKey>, k: EntryKey)
    requires IsHostSection(k.record.section) && c.section == k.record.section
    requires k !in s.index && Target(host, port, k.field).Some?
    requires ReadFrom(c, lines) == WithAdded(s, host, port, c, keys)
    ensures ReadFrom(c, lines + [TargetLine(host, port, k)]) == WithAdded(s, host, port, c, keys + {k})
  {
    ReadSnoc(c, lines, TargetLine(host, port, k));
    TargetLineEffect(host, port, k);
    AddedKey(s, host, port, c.lines, keys, k);
  }

  lemma {:induction false} ReadMissing(
    s: Survey, host: string, port: nat, c: Contents, record: RecordKey, fields: seq<Field>)
    requires forall f | f in fields :: f in REQUIRED
    requires IsHostSection(c.section) && record.section == c.section
    ensures ReadFrom(c, MissingLines(s, host, port, record, fields))
         == WithAdded(s, host, port, c, KeysOf(record, fields))
  {
    if fields == [] {
      WithNone(s, host, port, c);
    } else {
      var f, before := fields[|fields| - 1], fields[..|fields| - 1];
      ReadMissing(s, host, port, c, record, before);
      assert f in fields && f in REQUIRED;
      assert KeysOf(record, fields) == KeysOf(record, before) + {EntryKey(record, f)};
      ReadField(s, host, port, c, MissingLines(s, host, port, record, before), KeysOf(record, before), EntryKey(record, f));
    }
  }

  lemma {:induction false} ReadField(
    s: Survey, host: string, port: nat, c: Contents, lines: seq<Line>, keys: set<EntryKey>, k: EntryKey)
    requires IsHostSection(k.record.section) && c.section == k.record.section
    requires Target(host, port, k.field).Some?
    requires ReadFrom(c, lines) == WithAdded(s, host, port, c, keys)
    ensures ReadFrom(c, lines + (if k in s.index then [] else [TargetLine(host, port, k)]))
         == WithAdded(s, host, port, c, keys + {k})
  {
    if k in s.index {
      assert lines + [] == lines;
      WithPresent(s, host, port, c, keys, k);
    } else {
      ReadTargetLine(s, host, port, c, lines, keys, k);
    }
  }

  function KeysIn(s: Survey, section: Section, order: seq<RecordKey>): set<EntryKey> {
    set r, f | r in order && r.section == section && r in s.paired && f in REQUIRED :: EntryKey(r, f)
  }

  lemma KeysInLast(s: Survey, section: Section, order: seq<RecordKey>)
    requires order != []
    ensures var r, before := order[|order| - 1], order[..|order| - 1];
            KeysIn(s, section, order) == KeysIn(s, section, before)
              + (if r.section == section && r in s.paired then KeysOf(r, REQUIRED) else {})
  {
    var r, before := order[|order| - 1], order[..|order| - 1];
    assert order == before + [r];
  }

  lemma {:induction false} ReadSection(
    s: Survey, host: string, port: nat, c: Contents, section: Section, order: seq<RecordKey>)
    requires IsHostSection(section) && c.section == section
    ensures ReadFrom(c, SectionLines(s, host, port, section, order))
         == WithAdded(s, host, port, c, KeysIn(s, section, order))
  {
    if order == [] {
      WithNone(s, host, port, c);
    } else {
      var r, before := order[|order| - 1], order[..|order| - 1];
      ReadSection(s, host, port, c, section, before);
      KeysInLast(s, section, order);
      ReadRecord(s, host, port, c, SectionLines(s, host, port, section, before), KeysIn(s, section, before), r);
    }
  }

  lemma {:induction false} ReadRecord(
    s: Survey, host: string, port: nat, c: Contents, lines: seq<Line>, keys: set<EntryKey>, r: RecordKey)
    requires IsHostSection(c.section)
    requires ReadFrom(c, lines) == WithAdded(s, host, port, c, keys)
    ensures
      var here := r.section == c.section && r in s.paired;
      ReadFrom(c, lines + (if here then MissingLines(s, host, port, r, REQUIRED) else []))
      == WithAdded(s, host, port, c, keys + (if here then KeysOf(r, REQUIRED) else {}))
  {
    if r.section == c.section && r in s.paired {
      ReadMissing(s, host, port, WithAdded(s, host, port, c, keys), r, REQUIRED);
      ReadFromAppend(c, lines, MissingLines(s, host, port, r, REQUIRED));
      WithUnion(s, host, port, c, keys, KeysOf(r, REQUIRED));
    } else {
      assert lines + [] == lines && keys + {} == keys;
    }
  }

  // ------------------------------------------------------------------ edits and additions together

  /** The keys added after the first `n` lines or before. */
  function KeysBefore(s: Survey, n: nat): set<EntryKey> {
    set r, f | r in s.paired && r.section in s.ends && s.ends[r.section] <= n && f in REQUIRED :: EntryKey(r, f)
  }

  /** An added key is none that the file sets, so the order of the two does not matter. */
  lemma WithLater(s: Survey, host: string, port: nat, c: Contents, keys: set<EntryKey>, e: LineEffect, line: Line)
    requires e.Sets? ==> e.key in s.index
    ensures Apply(WithAdded(s, host, port, c, keys), e, line) == WithAdded(s, host, port, Apply(c, e, line), keys)
  {
    if e.Sets? {
      MergeLater(c.lines, AddedLines(s, host, port, keys), e.key, line);
    }
  }

  lemma MergeLater<K, V>(m: map<K, V>, added: map<K, V>, k: K, v: V)
    requires k !in added
    ensures (m + added)[k := v] == m[k := v] + added
  {
  }

  /** The keys of one section, at the place where it ends. */
  function KeysAt(s: Survey, section: Section, n: nat): set<EntryKey> {
    if section in s.ends && s.ends[section] == n then KeysIn(s, section, s.order) else {}
  }

  lemma KeysBeforeStep(s: Survey, n: nat)
    requires SoundOrder(s) && SoundEnds(s)
    ensures KeysBefore(s, n + 1) == KeysBefore(s, n) + KeysAt(s, HostsBackup, n + 1) + KeysAt(s, Hosts, n + 1)
  {
    forall r | r in s.paired ensures r in s.order && r.section in s.ends {
      assert EntryKey(r, SrvCert) in s.index;
    }
  }

  /** What `LinesAt` adds is read in the section it belongs to. */
  lemma {:induction false} ReadAdditions(s: Survey, host: string, port: nat, c: Contents, n: nat)
    requires SoundEnds(s) && 0 < n <= |s.sections| && c.section == s.sections[n - 1]
    ensures ReadFrom(c, LinesAt(s, host, port, n))
         == WithAdded(s, host, port, c, KeysAt(s, HostsBackup, n) + KeysAt(s, Hosts, n))
  {
    var backup, hosts := KeysAt(s, HostsBackup, n), KeysAt(s, Hosts, n);
    if HostsBackup in s.ends && s.ends[HostsBackup] == n {
      var lines := SectionLines(s, host, port, HostsBackup, s.order);
      assert lines + [] == lines && backup + {} == backup;
      ReadSection(s, host, port, c, HostsBackup, s.order);
    } else if Hosts in s.ends && s.ends[Hosts] == n {
      var lines := SectionLines(s, host, port, Hosts, s.order);
      assert [] + lines == lines && {} + hosts == hosts;
      ReadSection(s, host, port, c, Hosts, s.order);
    } else {
      WithNone(s, host, port, c);
    }
  }

  /** Reading a prefix of the woven file: the edited lines, and the additions that fall in it. */
  lemma {:induction false} ReadWoven(lines: seq<Line>, host: string, port: nat, n: nat)
    requires n <= |lines| == |SurveyOf(lines).entries|
    ensures
      var s := SurveyOf(lines);
      var body := EditedLines(s, host, port, lines);
      Read(Weave(s, host, port, body[..n])) == WithAdded(s, host, port, Read(body[..n]), KeysBefore(s, n))
  {
    var s := SurveyOf(lines);
    SurveyIsSound(lines);
    if n == 0 {
      assert KeysBefore(s, 0) == {};
      WithNone(s, host, port, EMPTY);
    } else {
      var body := EditedLines(s, host, port, lines);
      var m := n - 1;
      ReadWoven(lines, host, port, m);
      assert body[..n][..m] == body[..m];
      EffectInEdited(lines, host, port, m);
      ReadNext(body, m);
      WeaveStep(s, host, port, Weave(s, host, port, body[..m]), Read(body[..m]), body[m], m);
    }
  }

  /** The effect of line `n` of the edited file, seen in the bookkeeping of the file. */
  lemma {:induction false} EffectInEdited(lines: seq<Line>, host: string, port: nat, n: nat)
    requires n < |lines| == |SurveyOf(lines).entries|
    ensures
      var s := SurveyOf(lines);
      var body := EditedLines(s, host, port, lines);
      var section := Read(body[..n]).section;
      var e := EffectOf(section, body[n]);
      && n < |s.sections|
      && s.sections[n] == (if e.Enters? then e.section else section)
      && s.entries[n] == (if e.Sets? then Some(e.key) else None)
  {
    EffectAt(lines, n);
    ReadEdited(lines, host, port, n);
    EditKeepsEffect(SurveyOf(lines), host, port, n, Read(lines[..n]).section, lines[n]);
  }

  lemma WeaveLine(s: Survey, host: string, port: nat, woven: seq<Line>, c: Contents, line: Line, n: nat)
    requires Sound(s) && n < |s.sections|
    requires Read(woven) == WithAdded(s, host, port, c, KeysBefore(s, n))
    requires
      var e := EffectOf(c.section, line);
      && s.sections[n] == (if e.Enters? then e.section else c.section)
      && s.entries[n] == (if e.Sets? then Some(e.key) else None)
    ensures Read(woven + [line]) == WithAdded(s, host, port, Apply(c, EffectOf(c.section, line), line), KeysBefore(s, n))
  {
    var e := EffectOf(c.section, line);
    ReadSnoc(EMPTY, woven, line);
    assert e.Sets? ==> s.entries[n].Some?;
    WithLater(s, host, port, c, KeysBefore(s, n), e, line);
  }

  /** The additions after line `n` add the keys that are placed there. */
  lemma WeaveAdditions(s: Survey, host: string, port: nat, woven: seq<Line>, d: Contents, n: nat)
    requires Sound(s) && n < |s.sections|
    requires Read(woven) == WithAdded(s, host, port, d, KeysBefore(s, n)) && d.section == s.sections[n]
    ensures Read(woven + LinesAt(s, host, port, n + 1)) == WithAdded(s, host, port, d, KeysBefore(s, n + 1))
  {
    var keys := KeysBefore(s, n);
    var backup, hosts := KeysAt(s, HostsBackup, n + 1), KeysAt(s, Hosts, n + 1);
    ReadFromAppend(EMPTY, woven, LinesAt(s, host, port, n + 1));
    ReadAdditions(s, host, port, WithAdded(s, host, port, d, keys), n + 1);
    WithUnion(s, host, port, d, keys, backup + hosts);
    KeysBeforeStep(s, n);
    assert keys + backup + hosts == keys + (backup + hosts);
  }

  lemma WeaveStep(s: Survey, host: string, port: nat, woven: seq<Line>, c: Contents, line: Line, n: nat)
    requires Sound(s) && n < |s.sections|
    requires Read(woven) == WithAdded(s, host, port, c, KeysBefore(s, n))
    requires
      var e := EffectOf(c.section, line);
      && s.sections[n] == (if e.Enters? then e.section else c.section)
      && s.entries[n] == (if e.Sets? then Some(e.key) else None)
    ensures
      Read(woven + [line] + LinesAt(s, host, port, n + 1))
      == WithAdded(s, host, port, Apply(c, EffectOf(c.section, line), line), KeysBefore(s, n + 1))
  {
    WeaveLine(s, host, port, woven, c, line, n);
    WeaveAdditions(s, host, port, woven + [line], Apply(c, EffectOf(c.section, line), line), n);
  }

  /**
   * The rewritten file means the renaming of its paired hosts: this is the whole effect of the
   * line edits and insertions, for every file.
   */
  lemma RewriteRenames(lines: seq<Line>, host: string, port: nat)
    ensures Read(Rewritten(lines, host, port)) == Renamed(Read(lines), host, port)
  {
    SurveyLength(lines);
    SurveyIsSound(lines);
    SurveyAgrees(lines);
    var s := SurveyOf(lines);
    var n := |lines|;
    ReadWoven(lines, host, port, n);
    ReadEdited(lines, host, port, n);
    var body := EditedLines(s, host, port, lines);
    assert lines[..n] == lines && body[..n] == body;
    HalfPlusAdded(s, host, port, Read(lines), n);
  }

  lemma AllKeysAdded(s: Survey, n: nat)
    requires SoundOrder(s) && SoundEnds(s) && n == |s.sections|
    ensures KeysBefore(s, n) == RequiredKeys(s.paired)
  {
    forall r | r in s.paired ensures r.section in s.ends {
      assert EntryKey(r, SrvCert) in s.index;
    }
  }

  lemma HalfPlusAddedAt(s: Survey, host: string, port: nat, c: Contents, n: nat, k: EntryKey)
    requires SoundIndex(s) && s.index.Keys == c.lines.Keys && s.paired == c.pinned && n == |s.entries|
    requires k in c.lines.Keys + RequiredKeys(c.pinned)
    ensures
      var merged := HalfEdited(s, host, port, c, n).lines + AddedLines(s, host, port, RequiredKeys(c.pinned));
      k in merged && merged[k] == Renamed(c, host, port).lines[k]
  {
    if k in s.index {
      assert s.index[k] < n;
    } else {
      assert k.field in REQUIRED && k.record in c.pinned;
    }
  }

  lemma HalfPlusAddedLines(s: Survey, host: string, port: nat, c: Contents, n: nat)
    requires SoundIndex(s) && s.index.Keys == c.lines.Keys && s.paired == c.pinned && n == |s.entries|
    ensures HalfEdited(s, host, port, c, n).lines + AddedLines(s, host, port, RequiredKeys(c.pinned))
         == Renamed(c, host, port).lines
  {
    var merged := HalfEdited(s, host, port, c, n).lines + AddedLines(s, host, port, RequiredKeys(c.pinned));
    var renamed := Renamed(c, host, port).lines;
    forall k | k in renamed ensures k in merged && merged[k] == renamed[k] {
      HalfPlusAddedAt(s, host, port, c, n, k);
    }
    assert merged.Keys <= renamed.Keys;
  }

  lemma HalfPlusAdded(s: Survey, host: string, port: nat, c: Contents, n: nat)
    requires Sound(s) && s.index.Keys == c.lines.Keys && s.paired == c.pinned && n == |s.sections|
    ensures WithAdded(s, host, port, HalfEdited(s, host, port, c, n), KeysBefore(s, n)) == Renamed(c, host, port)
  {
    AllKeysAdded(s, n);
    HalfPlusAddedLines(s, host, port, c, n);
  }

  // ------------------------------------------------------------------ nothing is left to do

  lemma RenamedTwice(c: Contents, host: string, port: nat)
    ensures Renamed(Renamed(c, host, port), host, port) == Renamed(c, host, port)
  {
    var d := Renamed(c, host, port);
    assert Renamed(d, host, port).lines == d.lines;
  }

  lemma {:induction false} NoMissingLines(s: Survey, host: string, port: nat, record: RecordKey, fields: seq<Field>)
    requires forall f | f in fields :: f in REQUIRED && EntryKey(record, f) in s.index
    ensures MissingLines(s, host, port, record, fields) == []
  {
    if fields != [] {
      NoMissingLines(s, host, port, record, fields[..|fields| - 1]);
      assert fields[|fields| - 1] in fields;
    }
  }

  lemma {:induction false} NoSectionLines(s: Survey, host: string, port: nat, section: Section, order: seq<RecordKey>)
    requires RequiredKeys(s.paired) <= s.index.Keys
    ensures SectionLines(s, host, port, section, order) == []
  {
    if order != [] {
      NoSectionLines(s, host, port, section, order[..|order| - 1]);
      var r := order[|order| - 1];
      if r in s.paired {
        forall f | f in REQUIRED ensures EntryKey(r, f) in s.index {
          assert EntryKey(r, f) in RequiredKeys(s.paired);
        }
        NoMissingLines(s, host, port, r, REQUIRED);
      }
    }
  }

  lemma {:induction false} WeaveNothing(s: Survey, host: string, port: nat, body: seq<Line>)
    requires RequiredKeys(s.paired) <= s.index.Keys
    ensures Weave(s, host, port, body) == body
  {
    NoSectionLines(s, host, port, HostsBackup, s.order);
    NoSectionLines(s, host, port, Hosts, s.order);
    if body != [] {
      WeaveNothing(s, host, port, body[..|body| - 1]);
    }
  }

  lemma NothingEdited(s: Survey, host: string, port: nat, c: Contents, lines: seq<Line>)
    requires Sound(s) && Agrees(s, c, lines) && Renamed(c, host, port) == c
    ensures EditedLines(s, host, port, lines) == lines
  {
    forall i | 0 <= i < |lines| ensures EditedLine(s, host, port, i, lines[i]) == lines[i] {
      if Edited(s, host, port, i) {
        var k := s.entries[i].value;
        assert lines[s.index[k]] == c.lines[k];
        assert Renamed(c, host, port).lines[k] == TargetLine(host, port, k);
      }
    }
  }

  /** A file whose meaning the renaming leaves alone is left alone line for line. */
  lemma NothingToRename(lines: seq<Line>, host: string, port: nat)
    requires Renamed(Read(lines), host, port) == Read(lines)
    ensures Rewritten(lines, host, port) == lines
  {
    SurveyLength(lines);
    SurveyIsSound(lines);
    SurveyAgrees(lines);
    var s, c := SurveyOf(lines), Read(lines);
    NothingEdited(s, host, port, c, lines);
    assert RequiredKeys(c.pinned) <= Renamed(c, host, port).lines.Keys;
    WeaveNothing(s, host, port, lines);
  }

  /** A second pass changes no line, whatever the file. */
  lemma RewriteIsIdempotent(lines: seq<Line>, host: string, port: nat)
    ensures Rewritten(Rewritten(lines, host, port), host, port) == Rewritten(lines, host, port)
  {
    RewriteRenames(lines, host, port);
    RenamedTwice(Read(lines), host, port);
    NothingToRename(Rewritten(lines, host, port), host, port);
  }

  // ------------------------------------------------------------------ lines and their text

  /** A line is what its text says. */
  predicate IsFaithful(line: Line) {
    line.shape == Shape(line.raw)
  }

  ghost predicate Faithful(lines: seq<Line>) {
    forall i | 0 <= i < |lines| :: IsFaithful(lines[i])
  }

  lemma FaithfulAppend(a: seq<Line>, b: seq<Line>)
    requires Faithful(a) && Faithful(b)
    ensures Faithful(a + b)
  {
  }

  lemma TargetLineFaithful(host: string, port: nat, k: EntryKey)
    requires Trimmed(host) && Target(host, port, k.field).Some?
    ensures Faithful([TargetLine(host, port, k)])
  {
    NumberIsTrimmed(port);
    RenderReadsBack(k, Target(host, port, k.field).value);
  }

  lemma {:induction false} NumberIsTrimmed(n: nat)
    ensures Trimmed(NatToString(n))
  {
    var digits := NatToString(n);
    assert IsDigit(digits[0]) && IsDigit(digits[|digits| - 1]);
  }

  lemma {:induction false} MissingLinesFaithful(s: Survey, host: string, port: nat, record: RecordKey, fields: seq<Field>)
    requires Trimmed(host) && forall f | f in fields :: f in REQUIRED
    ensures Faithful(MissingLines(s, host, port, record, fields))
  {
    if fields != [] {
      var f, before := fields[|fields| - 1], fields[..|fields| - 1];
      MissingLinesFaithful(s, host, port, record, before);
      assert f in fields && f in REQUIRED;
      var k := EntryKey(record, f);
      TargetLineFaithful(host, port, k);
      FaithfulAppend(MissingLines(s, host, port, record, before),
                     if k in s.index then [] else [TargetLine(host, port, k)]);
    }
  }

  lemma {:induction false} SectionLinesFaithful(s: Survey, host: string, port: nat, section: Section, order: seq<RecordKey>)
    requires Trimmed(host)
    ensures Faithful(SectionLines(s, host, port, section, order))
  {
    if order != [] {
      var before, r := order[..|order| - 1], order[|order| - 1];
      SectionLinesFaithful(s, host, port, section, before);
      MissingLinesFaithful(s, host, port, r, REQUIRED);
      FaithfulAppend(SectionLines(s, host, port, section, before),
                     if r.section == section && r in s.paired then MissingLines(s, host, port, r, REQUIRED) else []);
    }
  }

  lemma FaithfulParts(lines: seq<Line>)
    requires lines != [] && Faithful(lines)
    ensures Faithful(lines[..|lines| - 1]) && Faithful([lines[|lines| - 1]])
  {
  }

  lemma LinesAtFaithful(s: Survey, host: string, port: nat, n: nat)
    requires Trimmed(host)
    ensures Faithful(LinesAt(s, host, port, n))
  {
    SectionLinesFaithful(s, host, port, HostsBackup, s.order);
    SectionLinesFaithful(s, host, port, Hosts, s.order);
  }

  lemma {:induction false} WeaveFaithful(s: Survey, host: string, port: nat, body: seq<Line>)
    requires Trimmed(host) && Faithful(body)
    ensures Faithful(Weave(s, host, port, body))
  {
    if body != [] {
      var before, last := body[..|body| - 1], [body[|body| - 1]];
      FaithfulParts(body);
      WeaveFaithful(s, host, port, before);
      LinesAtFaithful(s, host, port, |body|);
      FaithfulAppend(Weave(s, host, port, before), last);
      FaithfulAppend(Weave(s, host, port, before) + last, LinesAt(s, host, port, |body|));
    }
  }

  /** The rewritten lines are what a reader of the rewritten text sees. */
  lemma RewriteFaithful(lines: seq<Line>, host: string, port: nat)
    requires Trimmed(host) && Faithful(lines)
    ensures Lines(Raws(Rewritten(lines, host, port))) == Rewritten(lines, host, port)
  {
    SurveyLength(lines);
    var s := SurveyOf(lines);
    var body := EditedLines(s, host, port, lines);
    forall i | 0 <= i < |lines| ensures IsFaithful(body[i]) {
      if Edited(s, host, port, i) {
        var line := TargetLine(host, port, s.entries[i].value);
        TargetLineFaithful(host, port, s.entries[i].value);
        assert IsFaithful([line][0]);
      }
    }
    WeaveFaithful(s, host, port, body);
    var r := Rewritten(lines, host, port);
    forall i | 0 <= i < |r| ensures Classified(r[i].raw) == r[i] {
      assert IsFaithful(r[i]);
    }
  }
}
