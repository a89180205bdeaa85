/** Small building blocks shared by the dashboard model: an optional value,
    ASCII case mapping, joining and splitting on a one-character separator,
    the whitespace set of JavaScript's `String.prototype.trim`, and substring search. */
module Common {

  datatype Option<+T> = None | Some(value: T) {
    /** The value, or `default` when absent (JavaScript's `??`). */
    function GetOr(default: T): T {
      match this
      case Some(v) => v
      case None => default
    }
  }

  // ---------------------------------------------------------------------------
  // Case mapping (ASCII letters only)

  function LowerChar(c: char): char {
    if 'A' <= c <= 'Z' then (c as int + 32) as char else c
  }

  function UpperChar(c: char): char {
    if 'a' <= c <= 'z' then (c as int - 32) as char else c
  }

  /** `s.toLowerCase()`, restricted to ASCII letters. */
  function Lower(s: string): (r: string)
    ensures |r| == |s|
    ensures forall i :: 0 <= i < |s| ==> r[i] == LowerChar(s[i])
  {
    seq(|s|, i requires 0 <= i < |s| => LowerChar(s[i]))
  }

  /** `s.toUpperCase()`, restricted to ASCII letters. */
  function Upper(s: string): (r: string)
    ensures |r| == |s|
    ensures forall i :: 0 <= i < |s| ==> r[i] == UpperChar(s[i])
  {
    seq(|s|, i requires 0 <= i < |s| => UpperChar(s[i]))
  }

  predicate IsLowerCase(s: string) {
    forall i :: 0 <= i < |s| ==> !('A' <= s[i] <= 'Z')
  }

  lemma LowerIsLowerCase(s: string)
    ensures IsLowerCase(Lower(s))
    ensures Lower(Lower(s)) == Lower(s)
  {
  }

  /** Lower-casing never introduces a character that is not an upper-case letter. */
  lemma LowerKeepsOtherChars(s: string, c: char)
    requires !('A' <= c <= 'Z') && !('a' <= c <= 'z')
    ensures c in Lower(s) <==> c in s
  {
    if c in Lower(s) {
      var i :| 0 <= i < |s| && Lower(s)[i] == c;
      assert s[i] == c;
    }
    if c in s {
      var i :| 0 <= i < |s| && s[i] == c;
      assert Lower(s)[i] == c;
    }
  }

  // ---------------------------------------------------------------------------
  // Powers of two (`2 ** n`)

  function Pow2(n: nat): (r: nat)
    ensures r >= 1
  {
    if n == 0 then 1 else 2 * Pow2(n - 1)
  }

  lemma {:induction false} Pow2Monotone(m: nat, n: nat)
    requires m <= n
    ensures Pow2(m) <= Pow2(n)
  {
    if m < n { Pow2Monotone(m, n - 1); }
  }

  // ---------------------------------------------------------------------------
  // Searching, joining and splitting

  /** Position of the first `c` in `s`, if any. */
  function IndexOf(s: string, c: char): (r: Option<nat>)
    ensures r.Some? ==> r.value < |s| && s[r.value] == c && c !in s[..r.value]
    ensures r.None? <==> c !in s
  {
    if |s| == 0 then None
    else if s[0] == c then Some(0)
    else match IndexOf(s[1..], c)
      case None => None
      case Some(k) =>
        assert s[1..][..k] == s[1..k + 1];
        assert s[..k + 1] == [s[0]] + s[1..k + 1];
        Some(k + 1)
  }

  /** `parts.join(sep)` for a one-character separator. */
  function Join(parts: seq<string>, sep: char): string {
    if |parts| == 0 then ""
    else if |parts| == 1 then parts[0]
    else parts[0] + [sep] + Join(parts[1..], sep)
  }

  /** `s.split(sep)` for a one-character separator. */
  function Split(s: string, sep: char): (r: seq<string>)
    ensures |r| >= 1
    decreases |s|
  {
    match IndexOf(s, sep)
    case None => [s]
    case Some(i) => [s[..i]] + Split(s[i + 1..], sep)
  }

  /** Splitting a joined list gives the parts back, provided no part holds the separator. */
  lemma {:induction false} SplitJoin(parts: seq<string>, sep: char)
    requires |parts| >= 1
    requires forall k :: 0 <= k < |parts| ==> sep !in parts[k]
    ensures Split(Join(parts, sep), sep) == parts
  {
    if |parts| == 1 {
      assert IndexOf(parts[0], sep).None?;
    } else {
      var rest := Join(parts[1..], sep);
      var s := parts[0] + [sep] + rest;
      assert s[..|parts[0]|] == parts[0];
      assert s[|parts[0]| + 1..] == rest;
      assert sep !in s[..|parts[0]|];
      assert IndexOf(s, sep) == Some(|parts[0]|);
      SplitJoin(parts[1..], sep);
      assert [parts[0]] + parts[1..] == parts;
    }
  }

  // ---------------------------------------------------------------------------
  // Whitespace and trimming (ECMAScript WhiteSpace and LineTerminator)

  predicate IsWhitespace(c: char) {
    || c == '\t' || c == '\n' || c == '\r' || c == ' '
    || c == '\U{000B}' || c == '\U{000C}' || c == '\U{00A0}' || c == '\U{FEFF}'
    || c == '\U{1680}' || ('\U{2000}' <= c <= '\U{200A}')
    || c == '\U{2028}' || c == '\U{2029}' || c == '\U{202F}' || c == '\U{205F}'
    || c == '\U{3000}'
  }

  predicate IsBlank(s: string) {
    forall i :: 0 <= i < |s| ==> IsWhitespace(s[i])
  }

  /** Number of leading whitespace characters. */
  function LeadingSpace(s: string): (n: nat)
    ensures n <= |s|
    ensures IsBlank(s[..n])
    ensures n < |s| ==> !IsWhitespace(s[n])
  {
    if |s| == 0 || !IsWhitespace(s[0]) then 0
    else
      var k := LeadingSpace(s[1..]);
      assert s[..k + 1] == [s[0]] + s[1..][..k];
      k + 1
  }

  /** Number of trailing whitespace characters. */
  function TrailingSpace(s: string): (n: nat)
    ensures n <= |s|
    ensures IsBlank(s[|s| - n..])
    ensures n < |s| ==> !IsWhitespace(s[|s| - n - 1])
  {
    if |s| == 0 || !IsWhitespace(s[|s| - 1]) then 0
    else
      var init := s[..|s| - 1];
      var k := TrailingSpace(init);
      assert s[|s| - (k + 1)..] == init[|init| - k..] + [s[|s| - 1]];
      BlankAppend(init[|init| - k..], s[|s| - 1]);
      assert k < |init| ==> s[|s| - (k + 1) - 1] == init[|init| - k - 1];
      k + 1
  }

  lemma BlankAppend(a: string, c: char)
    requires IsBlank(a) && IsWhitespace(c)
    ensures IsBlank(a + [c])
  {
    forall i | 0 <= i < |a + [c]| ensures IsWhitespace((a + [c])[i]) {
      if i < |a| { assert (a + [c])[i] == a[i]; }
    }
  }

  /** `s.trim()`: the slice of `s` left once its blank prefix and blank suffix
      are dropped; it neither starts nor ends with whitespace and is empty
      exactly when `s` is blank. */
  function Trim(s: string): (r: string)
    ensures exists i, j :: 0 <= i <= j <= |s| && IsBlank(s[..i]) && IsBlank(s[j..]) && r == s[i..j]
    ensures |r| > 0 ==> !IsWhitespace(r[0]) && !IsWhitespace(r[|r| - 1])
    ensures r == "" <==> IsBlank(s)
  {
    var i := LeadingSpace(s);
    var j := TrailingSpace(s[i..]);
    assert s[i..][|s| - i - j..] == s[|s| - j..];
    assert j < |s| - i ==> s[i..][|s| - i - j - 1] == s[|s| - j - 1];
    TrimSlice(s, i, j);
    s[i..|s| - j]
  }

  /** `i` leading and `j` trailing whitespace characters, each run maximal,
      leave a slice with non-blank ends that is empty exactly for blank `s`. */
  lemma TrimSlice(s: string, i: nat, j: nat)
    requires i <= |s| && IsBlank(s[..i]) && (i < |s| ==> !IsWhitespace(s[i]))
    requires j <= |s| - i && IsBlank(s[|s| - j..]) && (j < |s| - i ==> !IsWhitespace(s[|s| - j - 1]))
    ensures var r := s[i..|s| - j];
      && (|r| > 0 ==> !IsWhitespace(r[0]) && !IsWhitespace(r[|r| - 1]))
      && (r == "" <==> IsBlank(s))
  {
    var r := s[i..|s| - j];
    if i == |s| {
      assert s[..i] == s;
    } else {
      assert r[0] == s[i];
      assert r[|r| - 1] == s[|s| - j - 1];
    }
  }

  // ---------------------------------------------------------------------------
  // Substrings

  /** `text.includes(query)`. */
  predicate Contains(text: string, query: string) {
    exists i :: 0 <= i <= |text| - |query| && OccursAt(text, query, i)
  }

  predicate OccursAt(text: string, query: string, i: int) {
    0 <= i <= |text| - |query| && text[i..i + |query|] == query
  }

  /** The first `n` elements, or all of them when there are fewer (`slice(0, n)`). */
  function Take<T>(s: seq<T>, n: nat): (r: seq<T>)
    ensures |r| == if |s| < n then |s| else n
    ensures r == s[..|r|]
  {
    if |s| <= n then s else s[..n]
  }
}
