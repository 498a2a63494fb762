/**
 * The two .NET string operations the analyzer relies on: `String.Trim()` and ordinal
 * case-insensitive equality. Trim uses the full `Char.IsWhiteSpace` set; the case fold is
 * ASCII-only, an approximation of the invariant upper-casing .NET performs.
 */
module DotNetText {

  /** `Char.IsWhiteSpace`: U+0009..U+000D, U+0085 and the space, line and paragraph separators. */
  predicate IsWhiteSpace(c: char) {
    var n := c as int;
    (9 <= n <= 13) || n == 0x20 || n == 0x85 || n == 0xA0 || n == 0x1680
    || (0x2000 <= n <= 0x200A) || n == 0x2028 || n == 0x2029 || n == 0x202F
    || n == 0x205F || n == 0x3000
  }

  /** The number of white-space characters at the start of `s`. */
  function LeadingWhiteSpace(s: string): (n: nat)
    ensures n <= |s|
  {
    if s == [] || !IsWhiteSpace(s[0]) then 0 else 1 + LeadingWhiteSpace(s[1..])
  }

  /** The number of white-space characters at the end of `s`. */
  function TrailingWhiteSpace(s: string): (n: nat)
    ensures n <= |s|
  {
    if s == [] || !IsWhiteSpace(s[|s| - 1]) then 0 else 1 + TrailingWhiteSpace(s[..|s| - 1])
  }

  /** `LeadingWhiteSpace` counts exactly the white-space prefix. */
  lemma {:induction false} LeadingWhiteSpaceIsMaximal(s: string)
    ensures forall k :: 0 <= k < LeadingWhiteSpace(s) ==> IsWhiteSpace(s[k])
    ensures LeadingWhiteSpace(s) < |s| ==> !IsWhiteSpace(s[LeadingWhiteSpace(s)])
  {
    if s != [] && IsWhiteSpace(s[0]) {
      LeadingWhiteSpaceIsMaximal(s[1..]);
    }
  }

  /** `TrailingWhiteSpace` counts exactly the white-space suffix. */
  lemma {:induction false} TrailingWhiteSpaceIsMaximal(s: string)
    ensures forall k :: |s| - TrailingWhiteSpace(s) <= k < |s| ==> IsWhiteSpace(s[k])
    ensures TrailingWhiteSpace(s) < |s| ==> !IsWhiteSpace(s[|s| - 1 - TrailingWhiteSpace(s)])
  {
    if s != [] && IsWhiteSpace(s[|s| - 1]) {
      TrailingWhiteSpaceIsMaximal(s[..|s| - 1]);
    }
  }

  /** `String.TrimStart()`. */
  function TrimStart(s: string): string {
    s[LeadingWhiteSpace(s)..]
  }

  /** `String.TrimEnd()`. */
  function TrimEnd(s: string): string {
    s[..|s| - TrailingWhiteSpace(s)]
  }

  /** `String.Trim()`: `s` without its leading and trailing white space. */
  function Trim(s: string): (r: string)
    ensures |r| <= |s|
  {
    TrimEnd(TrimStart(s))
  }

  /** `Trim` keeps a contiguous middle part of `s` and removes only white space around it. */
  lemma TrimKeepsMiddle(s: string)
    ensures LeadingWhiteSpace(s) + |Trim(s)| <= |s|
    ensures Trim(s) == s[LeadingWhiteSpace(s)..LeadingWhiteSpace(s) + |Trim(s)|]
    ensures forall k :: 0 <= k < LeadingWhiteSpace(s) ==> IsWhiteSpace(s[k])
    ensures forall k :: LeadingWhiteSpace(s) + |Trim(s)| <= k < |s| ==> IsWhiteSpace(s[k])
  {
    var lead := LeadingWhiteSpace(s);
    var start := TrimStart(s);
    var r := Trim(s);
    LeadingWhiteSpaceIsMaximal(s);
    TrailingWhiteSpaceIsMaximal(start);
    assert forall k :: lead <= k < |s| ==> s[k] == start[k - lead];
  }

  /** What `Trim` returns neither starts nor ends with white space. */
  lemma TrimHasNoOuterWhiteSpace(s: string)
    ensures Trim(s) != [] ==> !IsWhiteSpace(Trim(s)[0]) && !IsWhiteSpace(Trim(s)[|Trim(s)| - 1])
  {
    var start := TrimStart(s);
    LeadingWhiteSpaceIsMaximal(s);
    TrailingWhiteSpaceIsMaximal(start);
    assert |start| > 0 ==> start[0] == s[LeadingWhiteSpace(s)];
  }

  /** `Trim` returns the empty string exactly for a string of white space. */
  lemma TrimEmptyIffAllWhiteSpace(s: string)
    ensures Trim(s) == [] <==> forall k :: 0 <= k < |s| ==> IsWhiteSpace(s[k])
  {
    var start := TrimStart(s);
    LeadingWhiteSpaceIsMaximal(s);
    TrailingWhiteSpaceIsMaximal(start);
    assert |start| > 0 ==> start[0] == s[LeadingWhiteSpace(s)];
  }

  /** Upper-casing of one character, restricted to ASCII letters. */
  function UpperAscii(c: char): char {
    if 'a' <= c <= 'z' then (c as int - 32) as char else c
  }

  /** `String.Equals(a, b, StringComparison.OrdinalIgnoreCase)`, with the ASCII case fold. */
  predicate EqualsOrdinalIgnoreCase(a: string, b: string) {
    |a| == |b| && forall k :: 0 <= k < |a| ==> UpperAscii(a[k]) == UpperAscii(b[k])
  }
}
