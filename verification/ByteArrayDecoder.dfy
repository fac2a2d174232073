/** Certificates are stored as escaped `@ByteArray(...)` texts; this is the decoder and what it inverts. */
module ByteArrayDecoder {
  import opened Wrappers
  import opened Text

  const WRAPPER := "@ByteArray("

  predicate IsHex(c: char) {
    '0' <= c <= '9' || 'a' <= c <= 'f' || 'A' <= c <= 'F'
  }

  function HexValue(c: char): (n: nat)
    requires IsHex(c)
    ensures n < 16
  {
    if c <= '9' then (c - '0') as nat
    else if c <= 'F' then 10 + (c - 'A') as nat
    else 10 + (c - 'a') as nat
  }

  predicate IsHexEscape(s: string) {
    4 <= |s| && s[1] == 'x' && IsHex(s[2]) && IsHex(s[3])
  }

  /** How many characters an escape takes, and what it stands for. The text starts with a backslash. */
  function EscapeLength(s: string): (n: nat)
    requires 2 <= |s|
    ensures 2 <= n <= |s|
  {
    if IsHexEscape(s) then 4 else 2
  }

  function EscapedChar(s: string): char
    requires 2 <= |s|
  {
    if s[1] == 'n' then '\n'
    else if s[1] == 'r' then '\r'
    else if s[1] == 't' then '\t'
    else if IsHexEscape(s) then (16 * HexValue(s[2]) + HexValue(s[3])) as char
    else s[1]
  }

  /** The text an escaped text stands for. A backslash at the very end stands for itself. */
  function Unescape(s: string): string {
    if s == "" then ""
    else if s[0] != '\\' || |s| == 1 then [s[0]] + Unescape(s[1..])
    else [EscapedChar(s)] + Unescape(s[EscapeLength(s)..])
  }

  predicate IsQuoted(s: string) {
    |s| >= 2 && s[0] == s[|s| - 1] && (s[0] == '\'' || s[0] == '"')
  }

  function Unquote(s: string): string {
    if IsQuoted(s) then Strip(s[1..|s| - 1]) else s
  }

  predicate IsWrapped(s: string) {
    StartsWith(s, WRAPPER) && EndsWith(s, ")")
  }

  function Unwrap(s: string): string {
    if IsWrapped(s) then
      assert s[|WRAPPER| - 1] == '(' && s[|s| - 1] == ')';
      s[|WRAPPER|..|s| - 1]
    else s
  }

  function NonEmpty(s: string): Option<string> {
    if s == "" then None else Some(s)
  }

  function Decoded(value: string): Option<string> {
    var encoded := Unquote(Strip(value));
    if encoded == "" then None else NonEmpty(Strip(Unescape(Unwrap(encoded))))
  }

  lemma {:induction false} UnescapePlain(s: string)
    requires s != "" && (s[0] != '\\' || |s| == 1)
    ensures Unescape(s) == [s[0]] + Unescape(s[1..])
  {
  }

  lemma {:induction false} UnescapeEscape(s: string)
    requires 2 <= |s| && s[0] == '\\'
    ensures Unescape(s) == [EscapedChar(s)] + Unescape(s[EscapeLength(s)..])
  {
  }

  /** The decoding loop: the index advances with every round, by one, two or four characters. */
  method UnescapeText(encoded: string) returns (decoded: string)
    ensures decoded == Unescape(encoded)
  {
    decoded := "";
    var index := 0;
    assert encoded[0..] == encoded;
    while index < |encoded|
      invariant index <= |encoded|
      invariant decoded + Unescape(encoded[index..]) == Unescape(encoded)
      decreases |encoded| - index
    {
      var character, length := ReadUnit(encoded, index);
      OneMore(decoded, character, Unescape(encoded[index + length..]));
      decoded := decoded + [character];
      index := index + length;
    }
  }

  lemma OneMore(decoded: string, character: char, rest: string)
    ensures decoded + ([character] + rest) == decoded + [character] + rest
  {
  }

  /** One round: a character as it is, a backslash at the very end, or an escape. */
  method ReadUnit(encoded: string, index: nat) returns (character: char, length: nat)
    requires index < |encoded|
    ensures 0 < length <= |encoded| - index
    ensures Unescape(encoded[index..]) == [character] + Unescape(encoded[index + length..])
  {
    character, length := encoded[index], 1;
    if character != '\\' || index + 1 >= |encoded| {
      UnescapePlain(encoded[index..]);
      assert encoded[index..][1..] == encoded[index + 1..];
    } else {
      character, length := ReadEscape(encoded, index + 1);
      length := length + 1;
    }
  }

  /** The chain of escape cases: the character that the escape stands for and how long its name is. */
  method ReadEscape(encoded: string, index: nat) returns (character: char, length: nat)
    requires 0 < index < |encoded| && encoded[index - 1] == '\\'
    ensures 0 < length <= |encoded| - index
    ensures Unescape(encoded[index - 1..]) == [character] + Unescape(encoded[index + length..])
  {
    var escape := encoded[index];
    ghost var rest := encoded[index - 1..];
    UnescapeEscape(rest);
    assert rest[1] == escape;
    if escape == 'n' {
      character, length := '\n', 1;
    } else if escape == 'r' {
      character, length := '\r', 1;
    } else if escape == 't' {
      character, length := '\t', 1;
    } else if escape == '\\' {
      character, length := '\\', 1;
    } else if escape == 'x' && index + 2 < |encoded| && IsHex(encoded[index + 1]) && IsHex(encoded[index + 2]) {
      assert rest[2] == encoded[index + 1] && rest[3] == encoded[index + 2];
      character, length := (16 * HexValue(encoded[index + 1]) + HexValue(encoded[index + 2])) as char, 3;
    } else {
      assert 4 <= |rest| ==> rest[2] == encoded[index + 1] && rest[3] == encoded[index + 2];
      character, length := escape, 1;
    }
    assert rest[length + 1..] == encoded[index + length..];
  }

  method StripQuotes(stripped: string) returns (encoded: string)
    ensures encoded == Unquote(stripped)
  {
    encoded := stripped;
    if |encoded| >= 2 && encoded[0] == encoded[|encoded| - 1] && (encoded[0] == '\'' || encoded[0] == '"') {
      encoded := Strip(encoded[1..|encoded| - 1]);
    }
  }

  method DecodeByteArray(value: string) returns (r: Option<string>)
    ensures r == Decoded(value)
  {
    var encoded := StripQuotes(Strip(value));
    if encoded == "" {
      return None;
    }
    encoded := Unwrap(encoded);
    var decoded := UnescapeText(encoded);
    r := NonEmpty(Strip(decoded));
  }

  // ------------------------------------------------------------------ what decoding inverts

  /** One way to write a character: as itself, escaped, or by its code. */
  predicate Writes(unit: string, c: char) {
    || (unit == [c] && c != '\\')
    || (unit == "\\n" && c == '\n')
    || (unit == "\\r" && c == '\r')
    || (unit == "\\t" && c == '\t')
    || (unit == ['\\', c] && c != 'n' && c != 'r' && c != 't' && c != 'x')
    || (|unit| == 4 && unit[0] == '\\' && IsHexEscape(unit) && (16 * HexValue(unit[2]) + HexValue(unit[3])) as char == c)
  }

  /** A text written character by character, each in any of the ways. */
  ghost predicate Encodes(units: seq<string>, s: string) {
    |units| == |s| && forall i | 0 <= i < |s| :: Writes(units[i], s[i])
  }

  function Concat(units: seq<string>): string {
    if units == [] then "" else units[0] + Concat(units[1..])
  }

  lemma {:induction false} UnescapeUnit(unit: string, c: char, rest: string)
    requires Writes(unit, c)
    ensures Unescape(unit + rest) == [c] + Unescape(rest)
  {
    assert (unit + rest)[|unit|..] == rest;
    if |unit| > 1 {
      assert unit[0] == '\\';
      assert IsHexEscape(unit) ==> IsHexEscape(unit + rest);
    }
  }

  /** Unescaping undoes every way of escaping. */
  lemma {:induction false} UnescapeInverts(units: seq<string>, s: string)
    requires Encodes(units, s)
    ensures Unescape(Concat(units)) == s
  {
    if s != "" {
      UnescapeInverts(units[1..], s[1..]);
      UnescapeUnit(units[0], s[0], Concat(units[1..]));
    }
  }

  lemma WrapperEnds(encoded: string)
    ensures
      var wrapped := WRAPPER + encoded + ")";
      Trimmed(wrapped) && wrapped[0] == '@' && wrapped[|wrapped| - 1] == ')' && Unwrap(wrapped) == encoded
  {
    var wrapped := WRAPPER + encoded + ")";
    assert |WRAPPER| == 11 && WRAPPER[0] == '@';
    assert wrapped[..11] == WRAPPER && wrapped[|wrapped| - 1..] == ")";
    assert wrapped[11..|wrapped| - 1] == encoded;
  }

  lemma QuotedShape(wrapped: string, q: char)
    requires q == '\'' || q == '"'
    ensures
      var value := [q] + wrapped + [q];
      IsQuoted(value) && Trimmed(value) && value[1..|value| - 1] == wrapped
  {
  }

  lemma UnquoteQuoted(value: string, wrapped: string)
    requires IsQuoted(value) && Trimmed(wrapped) && value[1..|value| - 1] == wrapped
    ensures Unquote(value) == wrapped
  {
    StripTrimmed(wrapped);
  }

  lemma UnquoteBare(value: string)
    requires !IsQuoted(value)
    ensures Unquote(value) == value
  {
  }

  lemma {:induction false} DecodedVia(value: string, wrapped: string, inner: string, s: string)
    requires Strip(value) == value && Unquote(value) == wrapped && wrapped != ""
    requires Unwrap(wrapped) == inner && Unescape(inner) == s && Strip(s) == s && s != ""
    ensures Decoded(value) == Some(s)
  {
  }

  lemma {:induction false} DecodeWrapped(value: string, inner: string, s: string)
    requires Trimmed(value) && Trimmed(s) && s != ""
    requires Unquote(value) != "" && Unwrap(Unquote(value)) == inner && Unescape(inner) == s
    ensures Decoded(value) == Some(s)
  {
    assert Strip(value) == value by { StripTrimmed(value); }
    assert Strip(s) == s by { StripTrimmed(s); }
    DecodedVia(value, Unquote(value), inner, s);
  }

  /**
   * Decoding gives back every text without white space at its ends from each of its escaped
   * forms, wrapped in `@ByteArray(...)`.
   */
  lemma {:induction false} DecodeInverts(units: seq<string>, s: string)
    requires Encodes(units, s) && s != "" && Trimmed(s)
    ensures Decoded(WRAPPER + Concat(units) + ")") == Some(s)
  {
    var wrapped := WRAPPER + Concat(units) + ")";
    assert Trimmed(wrapped) && Unquote(wrapped) == wrapped by {
      WrapperEnds(Concat(units));
      UnquoteBare(wrapped);
    }
    assert Unwrap(wrapped) == Concat(units) && wrapped != "" by { WrapperEnds(Concat(units)); }
    UnescapeInverts(units, s);
    DecodeWrapped(wrapped, Concat(units), s);
  }

  lemma {:induction false} QuotedDecodes(wrapped: string, inner: string, s: string, q: char)
    requires Trimmed(wrapped) && wrapped != "" && Unwrap(wrapped) == inner && Unescape(inner) == s
    requires s != "" && Trimmed(s) && (q == '\'' || q == '"')
    ensures Decoded([q] + wrapped + [q]) == Some(s)
  {
    var value := [q] + wrapped + [q];
    QuotedShape(wrapped, q);
    UnquoteQuoted(value, wrapped);
    DecodeWrapped(value, inner, s);
  }

  /** The same in either kind of quotes. */
  lemma {:induction false} DecodeInvertsQuoted(units: seq<string>, s: string, q: char)
    requires Encodes(units, s) && s != "" && Trimmed(s)
    requires q == '\'' || q == '"'
    ensures Decoded([q] + (WRAPPER + Concat(units) + ")") + [q]) == Some(s)
  {
    WrapperEnds(Concat(units));
    UnescapeInverts(units, s);
    QuotedDecodes(WRAPPER + Concat(units) + ")", Concat(units), s, q);
  }

  /** The escapes Qt writes for text: short forms for the control characters, a backslash before itself and quotes. */
  function EscapeChar(c: char): string {
    if c == '\n' then "\\n"
    else if c == '\r' then "\\r"
    else if c == '\t' then "\\t"
    else if c == '\\' || c == '"' then ['\\', c]
    else [c]
  }

  function EscapeUnits(s: string): seq<string> {
    seq(|s|, i requires 0 <= i < |s| => EscapeChar(s[i]))
  }

  /** The usual encoder is one of the ways. */
  lemma EscapeEncodes(s: string)
    ensures Encodes(EscapeUnits(s), s)
  {
  }
}
