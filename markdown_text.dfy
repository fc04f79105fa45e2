/**
 * The inline part of the settings screen's small markdown renderer (used
 * for the licence and changelog texts): `parseInlineMarkdown`, which turns
 * every `**…**` pair into a bold span. The line classifier of
 * `ParsedMarkdownText` is in the module `MarkdownLines`.
 *
 * Bold pairs are the matches of the regular expression `\*\*(.*?)\*\*` as
 * `Regex.findAll` reports them on the JVM: leftmost first, the shortest
 * closing `**`, no overlap, and `.` matching any character except a line
 * terminator.
 */
module MarkdownText {
  import opened Wrappers
  import opened Text

  /** The characters `.` does not match in a JVM regular expression. */
  predicate IsLineTerminator(c: char) {
    c == '\n' || c == '\r' || c == '\U{0085}' || c == '\U{2028}' || c == '\U{2029}'
  }

  /** A `**` delimiter starts at position `i`. */
  predicate DelimAt(t: string, i: int) {
    0 <= i && i + 2 <= |t| && t[i] == '*' && t[i + 1] == '*'
  }

  /** The lazy `(.*?)\*\*` from position `j`: the position of the first
      `**` reached before any line terminator. */
  function CloseFrom(t: string, j: nat): (r: Option<nat>)
    ensures r.Some? ==> j <= r.value && DelimAt(t, r.value)
    decreases |t| - j
  {
    if j + 2 > |t| then None
    else if DelimAt(t, j) then Some(j)
    else if IsLineTerminator(t[j]) then None
    else CloseFrom(t, j + 1)
  }

  /** The closing `**` is the first one, and no line terminator comes
      before it. */
  lemma {:induction false} CloseIsShortest(t: string, j: nat)
    requires CloseFrom(t, j).Some?
    ensures forall k :: j <= k < CloseFrom(t, j).value ==> !DelimAt(t, k) && !IsLineTerminator(t[k])
    decreases |t| - j
  {
    if !DelimAt(t, j) {
      CloseIsShortest(t, j + 1);
    }
  }

  /** A match starting at `i`: the position of its closing `**`. */
  function MatchAt(t: string, i: nat): Option<nat> {
    if DelimAt(t, i) then CloseFrom(t, i + 2) else None
  }

  /** The leftmost match at or after `p`, as (start, closing position). */
  function NextMatch(t: string, p: nat): (r: Option<(nat, nat)>)
    ensures r.Some? ==> p <= r.value.0 && r.value.0 + 2 <= r.value.1 && r.value.1 + 2 <= |t|
    ensures r.Some? ==> MatchAt(t, r.value.0) == Some(r.value.1)
    ensures r.Some? ==> DelimAt(t, r.value.0) && DelimAt(t, r.value.1)
    decreases |t| - p
  {
    if p >= |t| then None
    else match MatchAt(t, p)
      case Some(j) => Some((p, j))
      case None => NextMatch(t, p + 1)
  }

  /** `NextMatch` finds the leftmost match, and finds one whenever there
      is one. */
  lemma {:induction false} NextMatchIsLeftmost(t: string, p: nat)
    ensures NextMatch(t, p).Some? ==> forall i :: p <= i < NextMatch(t, p).value.0 ==> MatchAt(t, i).None?
    ensures NextMatch(t, p).None? ==> forall i :: p <= i ==> MatchAt(t, i).None?
    decreases |t| - p
  {
    if p < |t| && MatchAt(t, p).None? {
      NextMatchIsLeftmost(t, p + 1);
    }
  }

  /** `findAll` from `p`: each match, then the matches after its end. */
  function Matches(t: string, p: nat): seq<(nat, nat)>
    decreases |t| - p
  {
    match NextMatch(t, p)
    case None => []
    case Some((i, j)) => [(i, j)] + Matches(t, j + 2)
  }

  /** A piece of the annotated string: plain text or a bold span. */
  datatype Segment = Plain(text: string) | Bold(text: string)

  /** The annotated string built from position `p` on: the text before each
      match, the match's inner group in bold, and whatever follows the last
      match (nothing when that is empty). */
  function Build(t: string, p: nat): seq<Segment>
    requires p <= |t|
    decreases |t| - p
  {
    match NextMatch(t, p)
    case None => if p < |t| then [Plain(t[p..])] else []
    case Some((i, j)) => [Plain(t[p..i]), Bold(t[i + 2..j])] + Build(t, j + 2)
  }

  /** One step of `findAll` and of the builder: the leftmost match from
      `p`, then everything after its end. */
  lemma BuildStep(t: string, p: nat, i: nat, j: nat)
    requires p <= |t| && NextMatch(t, p) == Some((i, j))
    ensures p <= i && i + 2 <= j && j + 2 <= |t| && DelimAt(t, i) && DelimAt(t, j)
    ensures Matches(t, p) == [(i, j)] + Matches(t, j + 2)
    ensures Build(t, p) == [Plain(t[p..i]), Bold(t[i + 2..j])] + Build(t, j + 2)
  {
    assert NextMatch(t, p).value.0 == i && NextMatch(t, p).value.1 == j;
    MatchesStep(t, p, i, j);
    BuildUnfold(t, p, i, j);
  }

  /** One step of the builder: the text before the leftmost match, its
      inner group in bold, then the segments after its end. */
  lemma BuildUnfold(t: string, p: nat, i: nat, j: nat)
    requires p <= |t| && NextMatch(t, p) == Some((i, j))
    requires i + 2 <= j && j + 2 <= |t|
    ensures p <= i
    ensures Build(t, p) == [Plain(t[p..i]), Bold(t[i + 2..j])] + Build(t, j + 2)
  {
  }

  /** One step of `findAll`: the leftmost match from `p`, then the matches
      after its end. */
  lemma MatchesStep(t: string, p: nat, i: nat, j: nat)
    requires NextMatch(t, p) == Some((i, j))
    ensures Matches(t, p) == [(i, j)] + Matches(t, j + 2)
  {
  }

  /** A list of matches that can be cut out of `t` from `p` on: each starts
      at or after the end of the one before and ends inside `t`. */
  predicate Chain(t: string, p: nat, ms: seq<(nat, nat)>)
    decreases |ms|
  {
    p <= |t|
    && (ms != [] ==>
          p <= ms[0].0 && ms[0].0 + 2 <= ms[0].1 && ms[0].1 + 2 <= |t|
          && Chain(t, ms[0].1 + 2, ms[1..]))
  }

  /** The segments for a given list of matches: what the builder appends. */
  function Assemble(t: string, p: nat, ms: seq<(nat, nat)>): seq<Segment>
    requires Chain(t, p, ms)
    decreases |ms|
  {
    if ms == [] then (if p < |t| then [Plain(t[p..])] else [])
    else [Plain(t[p..ms[0].0]), Bold(t[ms[0].0 + 2..ms[0].1])] + Assemble(t, ms[0].1 + 2, ms[1..])
  }

  /** The matches `findAll` reports form a chain. */
  lemma MatchesFormChain(t: string, p: nat)
    requires p <= |t|
    ensures Chain(t, p, Matches(t, p))
  {
    BuildIsAssemble(t, p);
  }

  /** Assembling the matches `findAll` reports gives `Build`. */
  lemma {:induction false} BuildIsAssemble(t: string, p: nat)
    requires p <= |t|
    ensures Chain(t, p, Matches(t, p))
    ensures Build(t, p) == Assemble(t, p, Matches(t, p))
    decreases |t| - p
  {
    if NextMatch(t, p).Some? {
      var i := NextMatch(t, p).value.0;
      var j := NextMatch(t, p).value.1;
      BuildIsAssemble(t, j + 2);
      AssembleMatch(t, p, i, j);
    } else {
      assert Matches(t, p) == [];
    }
  }

  /** One match's worth of `BuildIsAssemble`. */
  lemma AssembleMatch(t: string, p: nat, i: nat, j: nat)
    requires p <= |t| && NextMatch(t, p) == Some((i, j))
    requires j + 2 <= |t| && Chain(t, j + 2, Matches(t, j + 2))
    requires Build(t, j + 2) == Assemble(t, j + 2, Matches(t, j + 2))
    ensures Chain(t, p, Matches(t, p))
    ensures Build(t, p) == Assemble(t, p, Matches(t, p))
  {
    BuildStep(t, p, i, j);
    var ms := Matches(t, p);
    assert ms[0] == (i, j) && ms[1..] == Matches(t, j + 2);
  }

  /** The text the segments came from: bold spans get their `**` back. */
  function Unparse(segments: seq<Segment>): string {
    if segments == [] then [] else SourceOf(segments[0]) + Unparse(segments[1..])
  }

  /** One segment's source text. */
  function SourceOf(segment: Segment): string {
    match segment
    case Plain(s) => s
    case Bold(s) => "**" + s + "**"
  }

  /** The visible text: every segment's text, delimiters dropped. */
  function PlainText(segments: seq<Segment>): string {
    if segments == [] then [] else segments[0].text + PlainText(segments[1..])
  }

  /** How many bold spans there are. */
  function BoldCount(segments: seq<Segment>): nat {
    if segments == [] then 0 else (if segments[0].Bold? then 1 else 0) + BoldCount(segments[1..])
  }

  lemma {:induction false} UnparseAppend(a: seq<Segment>, b: seq<Segment>)
    ensures Unparse(a + b) == Unparse(a) + Unparse(b)
  {
    if a == [] {
      assert a + b == b;
    } else {
      assert (a + b)[0] == a[0];
      assert (a + b)[1..] == a[1..] + b;
      UnparseAppend(a[1..], b);
    }
  }

  /** Parsing loses nothing but delimiters: putting `**` back around every
      bold span gives the input again. */
  lemma {:induction false} BuildRoundTrip(t: string, p: nat)
    requires p <= |t|
    ensures Unparse(Build(t, p)) == t[p..]
    decreases |t| - p
  {
    if NextMatch(t, p).Some? {
      var i := NextMatch(t, p).value.0;
      var j := NextMatch(t, p).value.1;
      BuildRoundTrip(t, j + 2);
      RoundTripStep(t, p, i, j);
    } else {
      RoundTripLast(t, p);
    }
  }

  /** The end of `BuildRoundTrip`: no match left, so the rest is one plain
      segment, or nothing. */
  lemma RoundTripLast(t: string, p: nat)
    requires p <= |t| && NextMatch(t, p).None?
    ensures Unparse(Build(t, p)) == t[p..]
  {
    if p < |t| {
      var b := Build(t, p);
      assert b == [Plain(t[p..])];
      assert b[1..] == [];
    }
  }

  /** One match's worth of `BuildRoundTrip`. */
  lemma RoundTripStep(t: string, p: nat, i: nat, j: nat)
    requires p <= |t| && NextMatch(t, p) == Some((i, j))
    requires j + 2 <= |t| && Unparse(Build(t, j + 2)) == t[j + 2..]
    ensures Unparse(Build(t, p)) == t[p..]
  {
    BuildStep(t, p, i, j);
    UnparseAppend([Plain(t[p..i]), Bold(t[i + 2..j])], Build(t, j + 2));
    UnparseMatch(t, p, i, j);
  }

  /** The text from `p` around one match, cut into its five pieces. */
  lemma UnparseMatch(t: string, p: nat, i: nat, j: nat)
    requires p <= i && i + 2 <= j && j + 2 <= |t| && DelimAt(t, i) && DelimAt(t, j)
    ensures Unparse([Plain(t[p..i]), Bold(t[i + 2..j])]) + t[j + 2..] == t[p..]
  {
    UnparsePair(t[p..i], t[i + 2..j]);
    SliceAroundMatch(t, p, i, j);
  }

  lemma UnparsePair(before: string, g: string)
    ensures Unparse([Plain(before), Bold(g)]) == before + "**" + g + "**"
  {
    var head := [Plain(before), Bold(g)];
    var tail := head[1..];
    assert tail == [Bold(g)] && tail[1..] == [];
    assert Unparse(tail) == "**" + g + "**";
    assert Unparse(head) == before + Unparse(tail);
  }

  lemma SliceAroundMatch(t: string, p: nat, i: nat, j: nat)
    requires p <= i && i + 2 <= j && j + 2 <= |t| && DelimAt(t, i) && DelimAt(t, j)
    ensures t[p..] == t[p..i] + "**" + t[i + 2..j] + "**" + t[j + 2..]
  {
    assert t[i..i + 2] == "**" && t[j..j + 2] == "**";
    assert t[p..] == t[p..i] + t[i..i + 2] + t[i + 2..j] + t[j..j + 2] + t[j + 2..];
  }

  /** Each bold span removes exactly its four delimiter characters. */
  lemma {:induction false} UnparseLength(segments: seq<Segment>)
    ensures |Unparse(segments)| == |PlainText(segments)| + 4 * BoldCount(segments)
  {
    if segments != [] {
      UnparseLength(segments[1..]);
    }
  }

  /** The visible text of `parseInlineMarkdown(t)` is `t` less four
      characters per bold span. */
  lemma PlainTextLength(t: string)
    ensures |PlainText(Build(t, 0))| == |t| - 4 * BoldCount(Build(t, 0))
  {
    BuildRoundTrip(t, 0);
    UnparseLength(Build(t, 0));
  }

  /** Text with no `**…**` pair on one line comes back as it is: one plain
      segment, or nothing for the empty text. */
  lemma NoPairUnchanged(t: string)
    requires forall i: nat :: MatchAt(t, i).None?
    ensures Build(t, 0) == if t == [] then [] else [Plain(t)]
  {
    assert t[0..] == t;
  }

  /** In particular, text without any `**` is unchanged. */
  lemma NoDelimiterUnchanged(t: string)
    requires forall i :: 0 <= i < |t| - 1 ==> !(t[i] == '*' && t[i + 1] == '*')
    ensures Build(t, 0) == if t == [] then [] else [Plain(t)]
  {
    forall i: nat ensures MatchAt(t, i).None? {
      assert !DelimAt(t, i);
    }
    NoPairUnchanged(t);
  }

  /** A bold span is the shortest group on one line: it contains no line
      terminator and no `**`, and does not end with `*`. */
  predicate ShortestGroup(s: string) {
    (forall k :: 0 <= k < |s| ==> !IsLineTerminator(s[k]))
    && (forall k :: 0 <= k < |s| - 1 ==> !(s[k] == '*' && s[k + 1] == '*'))
    && (s == [] || s[|s| - 1] != '*')
  }

  /** Every bold span of `segments` is a shortest group. */
  predicate BoldSpansShortest(segments: seq<Segment>) {
    forall k :: 0 <= k < |segments| && segments[k].Bold? ==> ShortestGroup(segments[k].text)
  }

  /** Every bold span `parseInlineMarkdown` produces is the shortest group
      its match allows. */
  lemma {:induction false} BoldSpansAreShortest(t: string, p: nat)
    requires p <= |t|
    ensures BoldSpansShortest(Build(t, p))
    decreases |t| - p
  {
    if NextMatch(t, p).Some? {
      var i := NextMatch(t, p).value.0;
      var j := NextMatch(t, p).value.1;
      BoldSpansAreShortest(t, j + 2);
      GroupIsShortest(t, p, i, j);
      BuildStep(t, p, i, j);
      BoldSpansPrepend(t[p..i], t[i + 2..j], Build(t, j + 2));
    }
  }

  /** The inner group of a match is a shortest group. */
  lemma GroupIsShortest(t: string, p: nat, i: nat, j: nat)
    requires p <= |t| && NextMatch(t, p) == Some((i, j))
    ensures ShortestGroup(t[i + 2..j])
  {
    var g := t[i + 2..j];
    assert MatchAt(t, i) == Some(j);
    CloseIsShortest(t, i + 2);
    forall k | 0 <= k < |g| - 1
      ensures !(g[k] == '*' && g[k + 1] == '*')
    {
      assert !DelimAt(t, i + 2 + k);
    }
    forall k | 0 <= k < |g|
      ensures !IsLineTerminator(g[k])
    {
      assert g[k] == t[i + 2 + k];
    }
    if g != [] {
      assert !DelimAt(t, j - 1) && t[j] == '*';
      assert g[|g| - 1] == t[j - 1];
    }
  }

  lemma BoldSpansPrepend(before: string, g: string, rest: seq<Segment>)
    requires ShortestGroup(g) && BoldSpansShortest(rest)
    ensures BoldSpansShortest([Plain(before), Bold(g)] + rest)
  {
    var b := [Plain(before), Bold(g)] + rest;
    forall k | 0 <= k < |b| && b[k].Bold?
      ensures ShortestGroup(b[k].text)
    {
      if k >= 2 {
        assert b[k] == rest[k - 2];
      }
    }
  }

  /** The loop of `parseInlineMarkdown` over the list of matches: the text
      before each match, then its group in bold, then the rest of the text
      when there is any. */
  method AppendMatches(text: string, matches: seq<(nat, nat)>) returns (r: seq<Segment>)
    requires Chain(text, 0, matches)
    ensures r == Assemble(text, 0, matches)
  {
    var currentIndex: nat := 0;
    var rest := matches;
    r := [];
    while rest != []
      invariant Chain(text, currentIndex, rest)
      invariant r + Assemble(text, currentIndex, rest) == Assemble(text, 0, matches)
      decreases |rest|
    {
      var m := rest[0];
      AssembleHead(text, currentIndex, rest, r);
      r := r + [Plain(text[currentIndex..m.0]), Bold(text[m.0 + 2..m.1])];
      currentIndex := m.1 + 2;
      rest := rest[1..];
    }
    if currentIndex < |text| {
      r := r + [Plain(text[currentIndex..])];
    }
  }

  /** One turn of the builder loop: the first match of the chain appends
      its two segments, and the chain goes on after its end. */
  lemma AssembleHead(t: string, p: nat, ms: seq<(nat, nat)>, done: seq<Segment>)
    requires Chain(t, p, ms) && ms != []
    ensures p <= ms[0].0 && ms[0].0 + 2 <= ms[0].1 && ms[0].1 + 2 <= |t|
    ensures Chain(t, ms[0].1 + 2, ms[1..])
    ensures done + Assemble(t, p, ms)
      == (done + [Plain(t[p..ms[0].0]), Bold(t[ms[0].0 + 2..ms[0].1])]) + Assemble(t, ms[0].1 + 2, ms[1..])
  {
  }


  /** `parseInlineMarkdown`: all matches first (`findAll(text).toList()`),
      then the builder loop over them. */
  method ParseInlineMarkdown(text: string) returns (r: seq<Segment>)
    ensures r == Build(text, 0)
  {
    var matches := Matches(text, 0);
    MatchesFormChain(text, 0);
    r := AppendMatches(text, matches);
    BuildIsAssemble(text, 0);
  }
}
