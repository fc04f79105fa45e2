/**
 * The Kotlin `String` operations the screens rely on: `Char.isWhitespace`,
 * `trim`, `isBlank`, `startsWith`, `endsWith`, `removeSurrounding` and
 * `split("\n")`. Strings are sequences of UTF-16 code units.
 */
module Text {

  /** Kotlin's `Char.isWhitespace()`: Java whitespace or a Unicode space character. */
  predicate IsWhitespace(c: char) {
    c == ' ' || c == '\t' || c == '\n' || c == '\U{000B}' || c == '\U{000C}' || c == '\r'
    || ('\U{001C}' <= c <= '\U{001F}') || c == '\U{00A0}' || c == '\U{1680}'
    || ('\U{2000}' <= c <= '\U{200A}') || c == '\U{2028}' || c == '\U{2029}'
    || c == '\U{202F}' || c == '\U{205F}' || c == '\U{3000}'
  }

  function TrimStart(s: string): (r: string)
    ensures |r| <= |s| && r == s[|s| - |r|..]
    ensures r == [] || !IsWhitespace(r[0])
    ensures forall i :: 0 <= i < |s| - |r| ==> IsWhitespace(s[i])
  {
    if s != [] && IsWhitespace(s[0]) then TrimStart(s[1..]) else s
  }

  function TrimEnd(s: string): (r: string)
    ensures |r| <= |s| && r == s[..|r|]
    ensures r == [] || !IsWhitespace(r[|r| - 1])
    ensures forall i :: |r| <= i < |s| ==> IsWhitespace(s[i])
  {
    if s != [] && IsWhitespace(s[|s| - 1]) then TrimEnd(s[..|s| - 1]) else s
  }

  /** Kotlin's `String.trim()`. */
  function Trim(s: string): string {
    TrimEnd(TrimStart(s))
  }

  /** Kotlin's `String.isBlank()`. */
  predicate IsBlank(s: string) {
    forall i :: 0 <= i < |s| ==> IsWhitespace(s[i])
  }

  /** Trimming removes whitespace at both ends and nothing else: the result
      is a contiguous slice of the input, it neither starts nor ends with
      whitespace, and it is empty exactly when the input is blank. */
  lemma {:induction false} TrimIsInnerSlice(s: string)
    ensures exists i, j :: 0 <= i <= j <= |s| && Trim(s) == s[i..j]
    ensures Trim(s) == [] || (!IsWhitespace(Trim(s)[0]) && !IsWhitespace(Trim(s)[|Trim(s)| - 1]))
    ensures Trim(s) == [] <==> IsBlank(s)
  {
    var t := TrimStart(s);
    var r := TrimEnd(t);
    var i := |s| - |t|;
    assert r == t[..|r|] == s[i..i + |r|];
    if t != [] {
      assert !IsWhitespace(s[i]);
      assert r != [] && r[0] == t[0];
    }
  }

  predicate StartsWith(s: string, prefix: string) {
    |prefix| <= |s| && s[..|prefix|] == prefix
  }

  predicate EndsWith(s: string, suffix: string) {
    |suffix| <= |s| && s[|s| - |suffix|..] == suffix
  }

  /** Kotlin's `removeSurrounding(delimiter)`: strips the delimiter from
      both ends only when it is at both ends without overlapping. */
  function RemoveSurrounding(s: string, delimiter: string): (r: string)
    ensures (|s| >= 2 * |delimiter| && StartsWith(s, delimiter) && EndsWith(s, delimiter))
            ==> s == delimiter + r + delimiter
    ensures !(|s| >= 2 * |delimiter| && StartsWith(s, delimiter) && EndsWith(s, delimiter))
            ==> r == s
  {
    if |s| >= 2 * |delimiter| && StartsWith(s, delimiter) && EndsWith(s, delimiter) then
      var r := s[|delimiter|..|s| - |delimiter|];
      assert s == s[..|delimiter|] + r + s[|s| - |delimiter|..];
      r
    else s
  }

  /** Kotlin's `split("\n")`: the pieces between line feeds, keeping empty
      pieces, so a string with k line feeds has k + 1 pieces. */
  function SplitLines(s: string): (lines: seq<string>)
    ensures |lines| >= 1
    ensures forall k :: 0 <= k < |lines| ==> '\n' !in lines[k]
    decreases |s|
  {
    if '\n' !in s then [s]
    else
      var i := IndexOfLineFeed(s);
      [s[..i]] + SplitLines(s[i + 1..])
  }

  /** The position of the first line feed. */
  function IndexOfLineFeed(s: string): (i: nat)
    requires '\n' in s
    ensures i < |s| && s[i] == '\n' && '\n' !in s[..i]
  {
    if s[0] == '\n' then 0
    else
      assert '\n' in s[1..] by { assert s == [s[0]] + s[1..]; }
      var k := IndexOfLineFeed(s[1..]);
      assert s[..k + 1] == [s[0]] + s[1..][..k];
      k + 1
  }

  /** The inverse of `SplitLines`: the pieces joined by line feeds. */
  function JoinLines(lines: seq<string>): string
    requires |lines| >= 1
  {
    if |lines| == 1 then lines[0] else lines[0] + "\n" + JoinLines(lines[1..])
  }

  /** Splitting loses nothing: joining the pieces gives the text back. */
  lemma {:induction false} SplitJoinRoundTrip(s: string)
    ensures JoinLines(SplitLines(s)) == s
    decreases |s|
  {
    if '\n' in s {
      var i := IndexOfLineFeed(s);
      SplitJoinRoundTrip(s[i + 1..]);
      SplitAroundLineFeed(s, i);
    }
  }

  /** A text is the piece before a line feed, the line feed, and the rest. */
  lemma SplitAroundLineFeed(s: string, i: nat)
    requires i < |s| && s[i] == '\n'
    ensures s == s[..i] + "\n" + s[i + 1..]
  {
    assert s[..i + 1] == s[..i] + "\n";
    assert s == s[..i + 1] + s[i + 1..];
  }
}
