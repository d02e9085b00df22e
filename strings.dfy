/** Character classes and string helpers with Python's meaning: whitespace is the set that
    str.isspace(), str.strip(), str.split() and the regex class \s agree on; case mapping,
    digits and letters are the ASCII ones. */
module Strings {

  /** Python's whitespace characters (str.isspace). */
  predicate IsSpace(c: char) {
    || c == ' ' || '\t' <= c <= '\r' || '\U{1C}' <= c <= '\U{1F}'
    || c == '\U{85}' || c == '\U{A0}' || c == '\U{1680}'
    || '\U{2000}' <= c <= '\U{200A}' || c == '\U{2028}' || c == '\U{2029}'
    || c == '\U{202F}' || c == '\U{205F}' || c == '\U{3000}'
  }

  predicate IsDigit(c: char) { '0' <= c <= '9' }

  predicate IsUpper(c: char) { 'A' <= c <= 'Z' }

  predicate IsLowerLetter(c: char) { 'a' <= c <= 'z' }

  predicate IsLetter(c: char) { IsUpper(c) || IsLowerLetter(c) }

  /** Word characters of the regex boundary \b: [A-Za-z0-9_]. */
  predicate IsWordChar(c: char) { IsLetter(c) || IsDigit(c) || c == '_' }

  function LowerChar(c: char): (r: char)
    ensures !IsUpper(r)
    ensures IsLetter(c) <==> IsLowerLetter(r)
    ensures !IsUpper(c) ==> r == c
  {
    if IsUpper(c) then (c as int + 32) as char else c
  }

  /** str.lower() on ASCII. */
  function Lower(s: string): (r: string)
    ensures |r| == |s|
    ensures forall i | 0 <= i < |s| :: r[i] == LowerChar(s[i])
  {
    seq(|s|, i requires 0 <= i < |s| => LowerChar(s[i]))
  }

  lemma LowerConcat(a: string, b: string)
    ensures Lower(a + b) == Lower(a) + Lower(b)
  {
  }

  /** `needle` occurs in `hay` starting at index i. */
  predicate OccursAt(hay: string, needle: string, i: nat) {
    i + |needle| <= |hay| && hay[i..i + |needle|] == needle
  }

  /** Python's `needle in hay` for strings. */
  predicate Contains(hay: string, needle: string) {
    exists i | 0 <= i <= |hay| :: OccursAt(hay, needle, i)
  }

  function StripLeft(s: string): (r: string)
    ensures |r| <= |s| && r == s[|s| - |r|..]
    ensures r == [] || !IsSpace(r[0])
    ensures forall i | 0 <= i < |s| - |r| :: IsSpace(s[i])
  {
    if s != [] && IsSpace(s[0]) then StripLeft(s[1..]) else s
  }

  function StripRight(s: string): (r: string)
    ensures |r| <= |s| && r == s[..|r|]
    ensures r == [] || !IsSpace(r[|r| - 1])
    ensures forall i | |r| <= i < |s| :: IsSpace(s[i])
  {
    if s != [] && IsSpace(s[|s| - 1]) then StripRight(s[..|s| - 1]) else s
  }

  /** No whitespace at either end. */
  predicate Trimmed(s: string) {
    s == [] || (!IsSpace(s[0]) && !IsSpace(s[|s| - 1]))
  }

  /** str.strip(): the longest substring without whitespace at either end. */
  function Strip(s: string): string {
    StripRight(StripLeft(s))
  }

  /** The strip has no whitespace at either end and is a substring of its argument. */
  lemma StripSpec(s: string)
    ensures Trimmed(Strip(s))
    ensures Contains(s, Strip(s))
  {
    var l := StripLeft(s);
    var r := StripRight(l);
    var a := |s| - |l|;
    if r != [] {
      assert r[0] == l[0];
    }
    assert s[a..a + |r|] == s[a..][..|r|];
    assert OccursAt(s, r, a);
  }

  /** A string with no whitespace at either end is its own strip. */
  lemma StripIdentity(s: string)
    requires Trimmed(s)
    ensures Strip(s) == s
  {
  }

  /** str.split(sep) for a one-character separator: never empty, "" gives [""]. */
  function Split(s: string, sep: char): (r: seq<string>)
    ensures |r| >= 1
    ensures forall k | 0 <= k < |r| :: sep !in r[k]
  {
    if s == [] then [""]
    else
      var rest := Split(s[1..], sep);
      if s[0] == sep then [""] + rest
      else [[s[0]] + rest[0]] + rest[1..]
  }

  /** str.split() without arguments: the maximal runs of non-whitespace characters. */
  function Words(s: string): (r: seq<string>)
    ensures s != [] && !IsSpace(s[0]) ==> |r| > 0
  {
    if s == [] then []
    else
      var ws := Words(s[1..]);
      if IsSpace(s[0]) then ws
      else if |s| > 1 && !IsSpace(s[1]) then [[s[0]] + ws[0]] + ws[1..]
      else [[s[0]]] + ws
  }

  /** str(n) for a natural number: its decimal digits. */
  function NatToString(n: nat): string
    decreases n
  {
    var digit := [(('0' as int) + n % 10) as char];
    if n < 10 then digit else NatToString(n / 10) + digit
  }

  /** sep.join(xs). */
  function Join(xs: seq<string>, sep: string): string {
    if xs == [] then ""
    else if |xs| == 1 then xs[0]
    else xs[0] + sep + Join(xs[1..], sep)
  }
}
