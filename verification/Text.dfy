/** The Python string operations that the settings code is written with. */
module Text {
  /** The characters that `str.strip` removes. */
  predicate IsSpace(c: char) {
    || '\t' <= c <= '\r'
    || '\U{1c}' <= c <= ' '
    || c == '\U{85}' || c == '\U{a0}' || c == '\U{1680}'
    || '\U{2000}' <= c <= '\U{200a}'
    || c == '\U{2028}' || c == '\U{2029}' || c == '\U{202f}' || c == '\U{205f}' || c == '\U{3000}'
  }

  /** The characters at which `str.splitlines` ends a line. */
  predicate IsLineEnd(c: char) {
    || '\n' <= c <= '\r'
    || '\U{1c}' <= c <= '\U{1e}'
    || c == '\U{85}' || c == '\U{2028}' || c == '\U{2029}'
  }

  predicate NoSpace(s: string) {
    forall i | 0 <= i < |s| :: !IsSpace(s[i])
  }

  predicate OneLine(s: string) {
    forall i | 0 <= i < |s| :: !IsLineEnd(s[i])
  }

  function TrimLeft(s: string): (r: string)
    ensures r == "" || !IsSpace(r[0])
    ensures |r| <= |s|
  {
    if s != "" && IsSpace(s[0]) then TrimLeft(s[1..]) else s
  }

  function TrimRight(s: string): (r: string)
    ensures r == "" || !IsSpace(r[|r| - 1])
    ensures r <= s
  {
    if s != "" && IsSpace(s[|s| - 1]) then TrimRight(s[..|s| - 1]) else s
  }

  function Strip(s: string): (r: string)
    ensures Trimmed(r) && |r| <= |s|
  {
    TrimRight(TrimLeft(s))
  }

  /** No white space at either end. */
  predicate Trimmed(s: string) {
    s == "" || (!IsSpace(s[0]) && !IsSpace(s[|s| - 1]))
  }

  lemma StripTrimmed(s: string)
    requires Trimmed(s)
    ensures Strip(s) == s
  {
  }

  lemma NoSpaceIsTrimmed(s: string)
    requires NoSpace(s)
    ensures Trimmed(s) && Strip(s) == s
  {
    StripTrimmed(s);
  }

  /** Stripping a text that starts with something else only trims its right end. */
  lemma {:induction false} StripAppend(a: string, b: string)
    requires a != "" && !IsSpace(a[0]) && !IsSpace(a[|a| - 1])
    ensures Strip(a + b) == a + TrimRight(b)
  {
    assert (a + b)[0] == a[0];
    TrimRightAppend(a, b);
  }

  lemma {:induction false} TrimRightAppend(a: string, b: string)
    requires a != "" && !IsSpace(a[|a| - 1])
    ensures TrimRight(a + b) == a + TrimRight(b)
  {
    if b == "" {
      assert a + b == a;
    } else {
      assert (a + b)[..|a + b| - 1] == a + b[..|b| - 1];
      TrimRightAppend(a, b[..|b| - 1]);
    }
  }

  /** What `value.strip()` leaves of a value whose line was stripped first. */
  lemma {:induction false} StripTrimRight(b: string)
    ensures Strip(TrimRight(b)) == Strip(b)
  {
    if b != "" && IsSpace(b[0]) {
      StripTrimRight(b[1..]);
      if TrimRight(b) == "" {
        TrimRightBlank(b);
        TrimRightBlank(b[1..]);
      } else {
        TrimRightHead(b);
      }
    } else if b != "" {
      assert b == [b[0]] + b[1..];
      TrimRightAppend([b[0]], b[1..]);
      StripTrimmed(TrimRight(b));
    }
  }

  lemma {:induction false} TrimRightBlank(b: string)
    requires TrimRight(b) == ""
    ensures b != "" ==> TrimRight(b[1..]) == ""
  {
    if |b| > 1 {
      assert b[1..][..|b| - 2] == b[..|b| - 1][1..];
      TrimRightBlank(b[..|b| - 1]);
    }
  }

  lemma {:induction false} TrimRightHead(b: string)
    requires TrimRight(b) != ""
    ensures TrimRight(b) == [b[0]] + TrimRight(b[1..])
  {
    if |b| == 1 {
      assert b == [b[0]] + b[1..];
    } else if IsSpace(b[|b| - 1]) {
      assert b[1..][..|b| - 2] == b[..|b| - 1][1..];
      TrimRightHead(b[..|b| - 1]);
    } else {
      assert b == [b[0]] + b[1..];
    }
  }

  /** Case folding, for ASCII letters. */
  function LowerChar(c: char): char {
    if 'A' <= c <= 'Z' then c - 'A' + 'a' else c
  }

  function Lower(s: string): (r: string)
    ensures |r| == |s|
    ensures forall i | 0 <= i < |s| :: r[i] == LowerChar(s[i])
  {
    seq(|s|, i requires 0 <= i < |s| => LowerChar(s[i]))
  }

  /** The index of the first `c`, or the length: `str.partition` cuts there. */
  function IndexOf(s: string, c: char): (i: nat)
    ensures i <= |s|
    ensures forall j | 0 <= j < i :: s[j] != c
    ensures i < |s| ==> s[i] == c
  {
    if s == "" || s[0] == c then 0 else 1 + IndexOf(s[1..], c)
  }

  predicate IsDigit(c: char) { '0' <= c <= '9' }

  predicate IsWordChar(c: char) {
    IsDigit(c) || 'A' <= c <= 'Z' || 'a' <= c <= 'z' || c == '_'
  }

  predicate AllDigits(s: string) {
    forall i | 0 <= i < |s| :: IsDigit(s[i])
  }

  predicate AllWordChars(s: string) {
    forall i | 0 <= i < |s| :: IsWordChar(s[i])
  }

  /** `int(...)` of a digit string. */
  function ParseNat(s: string): nat
    requires AllDigits(s)
  {
    if s == "" then 0
    else
      ParseNat(s[..|s| - 1]) * 10 + (s[|s| - 1] - '0') as nat
  }

  /** `str(...)` of a non-negative integer. */
  function NatToString(n: nat): (r: string)
    ensures r != "" && AllDigits(r)
  {
    if n < 10 then [DigitChar(n)] else NatToString(n / 10) + [DigitChar(n % 10)]
  }

  function DigitChar(n: nat): (c: char)
    requires n < 10
    ensures IsDigit(c) && (c - '0') as nat == n
  {
    '0' + n as char
  }

  lemma {:induction false} ParseNatToString(n: nat)
    ensures ParseNat(NatToString(n)) == n
  {
    var r := NatToString(n);
    if n < 10 {
      assert r[..|r| - 1] == "";
    } else {
      ParseNatToString(n / 10);
      assert r[..|r| - 1] == NatToString(n / 10);
    }
  }

  predicate StartsWith(s: string, prefix: string) {
    prefix <= s
  }

  predicate EndsWith(s: string, suffix: string) {
    |suffix| <= |s| && s[|s| - |suffix|..] == suffix
  }
}
