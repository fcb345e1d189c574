/**
 * String helpers shared by the model: Kotlin's decimal rendering of an
 * integer (`Long.toString` / string templates), `isBlank`, ASCII
 * `uppercase`, and the plural suffix used by the UI labels.
 */
module Text {

  function Digit(d: nat): char
    requires d < 10
  {
    "0123456789"[d]
  }

  predicate IsDigit(c: char) {
    '0' <= c <= '9'
  }

  /** Decimal digits of `n`, most significant first, no leading zero. */
  function NatToString(n: nat): (s: string)
    ensures |s| >= 1
    ensures forall i :: 0 <= i < |s| ==> IsDigit(s[i])
  {
    if n < 10 then [Digit(n)] else NatToString(n / 10) + [Digit(n % 10)]
  }

  /** Kotlin's rendering of a (Long or Int) value inside a string template. */
  function IntToString(i: int): (s: string)
    ensures |s| >= 1
  {
    if i < 0 then "-" + NatToString(-i) else NatToString(i)
  }

  /** Reads back a string of decimal digits. */
  function ParseDigits(s: string): nat
    requires forall i :: 0 <= i < |s| ==> IsDigit(s[i])
  {
    if s == [] then 0
    else
      assert IsDigit(s[|s| - 1]);
      10 * ParseDigits(s[..|s| - 1]) + (s[|s| - 1] as int - '0' as int)
  }

  /** Text `ParseInt` accepts: an optional minus sign, then digits. */
  predicate IsIntText(s: string) {
    |s| >= 1 && (s[0] == '-' || IsDigit(s[0])) && forall i :: 1 <= i < |s| ==> IsDigit(s[i])
  }

  /** Reads back an optionally negative decimal integer. */
  function ParseInt(s: string): int
    requires |s| >= 1
    requires s[0] == '-' || IsDigit(s[0])
    requires forall i :: 1 <= i < |s| ==> IsDigit(s[i])
  {
    if s[0] == '-' then 0 - ParseDigits(s[1..]) as int else ParseDigits(s)
  }

  lemma {:induction false} NatToStringRoundTrip(n: nat)
    ensures ParseDigits(NatToString(n)) == n
  {
    if n >= 10 {
      NatToStringRoundTrip(n / 10);
      var s := NatToString(n);
      assert s[..|s| - 1] == NatToString(n / 10);
    }
  }

  /** The integer printed by a string template is recovered exactly. */
  lemma IntToStringRoundTrip(i: int)
    ensures var s := IntToString(i);
      (s[0] == '-' || IsDigit(s[0])) && (forall k :: 1 <= k < |s| ==> IsDigit(s[k]))
      && ParseInt(s) == i
  {
    NatToStringRoundTrip(if i < 0 then -i else i);
    if i < 0 {
      assert IntToString(i)[1..] == NatToString(-i);
    }
  }

  /** Kotlin `Char.isWhitespace()`: Java whitespace or a Unicode space separator. */
  predicate IsWhitespace(c: char) {
    c == ' ' || c == '\t' || c == '\n' || c == '\U{B}' || c == '\U{C}' || c == '\r'
    || ('\U{1C}' <= c <= '\U{1F}')
    || c == '\U{A0}' || c == '\U{1680}' || ('\U{2000}' <= c <= '\U{200A}')
    || c == '\U{2028}' || c == '\U{2029}' || c == '\U{202F}' || c == '\U{205F}' || c == '\U{3000}'
  }

  /** Kotlin `CharSequence.isBlank()`: empty or whitespace only. */
  predicate IsBlank(s: string) {
    forall i :: 0 <= i < |s| ==> IsWhitespace(s[i])
  }

  function UpperChar(c: char): char {
    if 'a' <= c <= 'z' then (c as int - 32) as char else c
  }

  /** Kotlin `String.uppercase()`, restricted to ASCII letters. */
  function Upper(s: string): (u: string)
    ensures |u| == |s|
    ensures forall i :: 0 <= i < |s| ==> u[i] == UpperChar(s[i])
  {
    if s == [] then [] else [UpperChar(s[0])] + Upper(s[1..])
  }

  /** Upper-casing twice is upper-casing once. */
  lemma UpperIdempotent(s: string)
    ensures Upper(Upper(s)) == Upper(s)
  {
    var u := Upper(s);
    assert forall i :: 0 <= i < |u| ==> Upper(u)[i] == u[i];
  }

  /** The "s" appended by the UI labels when a count calls for a plural. */
  function PluralS(plural: bool): string {
    if plural then "s" else ""
  }

  // ---- lines of a text ----

  /** A line: text without a line break. */
  predicate NoBreak(line: string) {
    forall i :: 0 <= i < |line| ==> line[i] != '\n'
  }

  /** The index of the first line break in `s`, or `|s|` when there is none. */
  function LineEnd(s: string): (i: nat)
    ensures i <= |s|
    ensures i < |s| ==> s[i] == '\n'
    ensures NoBreak(s[..i])
  {
    if s == [] || s[0] == '\n' then 0
    else
      var j := LineEnd(s[1..]);
      assert s[..j + 1] == [s[0]] + s[1..][..j];
      j + 1
  }

  /** The lines of a text, each without its break; text after the last
      break, when there is any, is a last line of its own. */
  function Lines(s: string): seq<string>
    decreases |s|
  {
    if s == [] then []
    else
      var i := LineEnd(s);
      if i == |s| then [s] else [s[..i]] + Lines(s[i + 1..])
  }

  /** Kotlin's `appendLine` over a list of lines: each line followed by a break. */
  function Unlines(ls: seq<string>): string {
    if ls == [] then "" else ls[0] + "\n" + Unlines(ls[1..])
  }

  /** Reading back a line written before a break. */
  lemma LinesAfter(line: string, t: string)
    requires NoBreak(line)
    ensures Lines(line + "\n" + t) == [line] + Lines(t)
  {
    var s := line + "\n" + t;
    assert s[|line|] == '\n';
    assert forall j :: 0 <= j < |line| ==> s[j] == line[j] && s[j] != '\n';
    var i := LineEnd(s);
    assert i == |line| by {
      assert NoBreak(s[..i]);
      assert forall j :: 0 <= j < i ==> s[..i][j] == s[j];
    }
    assert s[..i] == line;
    assert s[i + 1..] == t;
  }

  /** Reading back every line written with `Unlines`. */
  lemma {:induction false} LinesOfUnlines(ls: seq<string>, t: string)
    requires forall k :: 0 <= k < |ls| ==> NoBreak(ls[k])
    ensures Lines(Unlines(ls) + t) == ls + Lines(t)
  {
    if ls != [] {
      var rest := Unlines(ls[1..]) + t;
      calc {
        Lines(Unlines(ls) + t);
        { assert Unlines(ls) + t == ls[0] + "\n" + rest; }
        Lines(ls[0] + "\n" + rest);
        { LinesAfter(ls[0], rest); }
        [ls[0]] + Lines(rest);
        { LinesOfUnlines(ls[1..], t); }
        [ls[0]] + (ls[1..] + Lines(t));
        { assert ls == [ls[0]] + ls[1..]; }
        ls + Lines(t);
      }
    } else {
      assert Unlines(ls) + t == t;
    }
  }

  lemma NoBreakJoin(a: string, b: string)
    requires NoBreak(a) && NoBreak(b)
    ensures NoBreak(a + b)
  {
    assert forall i :: |a| <= i < |a + b| ==> (a + b)[i] == b[i - |a|];
  }

  /** A line made of `prefix` and a count in decimal that reads back. */
  predicate CountLine(line: string, prefix: string, n: nat) {
    && |line| > |prefix| && line[..|prefix|] == prefix
    && (forall i :: 0 <= i < |line| - |prefix| ==> IsDigit(line[|prefix|..][i]))
    && ParseDigits(line[|prefix|..]) == n
  }

  lemma CountLineOf(prefix: string, n: nat)
    ensures CountLine(prefix + NatToString(n), prefix, n)
    ensures NoBreak(prefix) ==> NoBreak(prefix + NatToString(n))
  {
    var line := prefix + NatToString(n);
    assert line[..|prefix|] == prefix;
    assert line[|prefix|..] == NatToString(n);
    NatToStringRoundTrip(n);
    if NoBreak(prefix) {
      NoBreakJoin(prefix, NatToString(n));
    }
  }
}
