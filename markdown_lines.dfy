/**
 * The line classifier of `ParsedMarkdownText` on the settings screen: each
 * line of the licence or changelog text becomes a heading, a bullet, a bold
 * line, a spacer, a divider or a paragraph; bullets and paragraphs carry
 * their inline bold spans.
 */
module MarkdownLines {
  import opened Text
  import opened MarkdownText

  /** How `ParsedMarkdownText` draws one line. */
  datatype Line =
    | Heading1(text: string)
    | Heading2(text: string)
    | Heading3(text: string)
    | Bullet(content: seq<Segment>)
    | BoldLine(text: string)
    | Spacer
    | Divider
    | Paragraph(content: seq<Segment>)

  /** The `when` of `ParsedMarkdownText`: the first test that holds decides. */
  function ClassifyLine(line: string): (r: Line)
    ensures r.Heading1? ==> "# " + r.text == line
    ensures r.Heading2? ==> "## " + r.text == line
    ensures r.Heading3? ==> "### " + r.text == line
    ensures r.Bullet? ==> "- " + Unparse(r.content) == line
    ensures r.BoldLine? ==> Trim(line) == "**" + r.text + "**" || (Trim(line) == r.text && |r.text| < 4)
    ensures r.Paragraph? ==> Unparse(r.content) == line
  {
    if StartsWith(line, "# ") then
      assert line == line[..2] + line[2..];
      Heading1(line[2..])
    else if StartsWith(line, "## ") then
      assert line == line[..3] + line[3..];
      Heading2(line[3..])
    else if StartsWith(line, "### ") then
      assert line == line[..4] + line[4..];
      Heading3(line[4..])
    else if StartsWith(line, "- ") then
      BuildRoundTrip(line[2..], 0);
      assert line == line[..2] + line[2..];
      assert line[2..][0..] == line[2..];
      Bullet(Build(line[2..], 0))
    else if StartsWith(Trim(line), "**") && EndsWith(Trim(line), "**") then
      BoldLine(RemoveSurrounding(Trim(line), "**"))
    else if IsBlank(line) then Spacer
    else if Trim(line) == "---" then Divider
    else
      BuildRoundTrip(line, 0);
      assert line[0..] == line;
      Paragraph(Build(line, 0))
  }

  /** Trimming a string that starts with a visible character only cuts its
      end. */
  lemma TrimKeepsStart(s: string)
    requires s != [] && !IsWhitespace(s[0])
    ensures Trim(s) == s[..|Trim(s)|] && Trim(s) != []
  {
    assert TrimStart(s) == s;
  }

  /** The characters of a prefix a string starts with. */
  lemma PrefixChar(s: string, prefix: string, n: nat)
    requires StartsWith(s, prefix) && n < |prefix|
    ensures s[n] == prefix[n]
  {
    assert s[..|prefix|][n] == s[n];
  }

  /** Each heading and bullet is decided by its own prefix alone, whatever
      the order of the tests. */
  lemma PrefixDecidesKind(line: string)
    ensures ClassifyLine(line).Heading1? <==> StartsWith(line, "# ")
    ensures ClassifyLine(line).Heading2? <==> StartsWith(line, "## ")
    ensures ClassifyLine(line).Heading3? <==> StartsWith(line, "### ")
    ensures ClassifyLine(line).Bullet? <==> StartsWith(line, "- ")
  {
    if StartsWith(line, "# ") { PrefixChar(line, "# ", 0); PrefixChar(line, "# ", 1); }
    if StartsWith(line, "## ") { PrefixChar(line, "## ", 0); PrefixChar(line, "## ", 1); PrefixChar(line, "## ", 2); }
    if StartsWith(line, "### ") { PrefixChar(line, "### ", 0); PrefixChar(line, "### ", 1); PrefixChar(line, "### ", 2); }
    if StartsWith(line, "- ") { PrefixChar(line, "- ", 0); }
  }

  /** A line is drawn as a spacer exactly when it is blank: no earlier test
      catches a blank line. */
  lemma SpacerExactlyBlank(line: string)
    ensures ClassifyLine(line).Spacer? <==> IsBlank(line)
  {
    if IsBlank(line) {
      BlankPassesEarlierTests(line);
    }
  }

  /** A blank line trims to nothing and starts with none of the heading or
      bullet prefixes. */
  lemma BlankPassesEarlierTests(line: string)
    requires IsBlank(line)
    ensures Trim(line) == [] && !StartsWith(Trim(line), "**")
    ensures !StartsWith(line, "# ") && !StartsWith(line, "## ") && !StartsWith(line, "### ") && !StartsWith(line, "- ")
  {
    TrimIsInnerSlice(line);
    if line != [] {
      assert IsWhitespace(line[0]);
      if StartsWith(line, "# ") { PrefixChar(line, "# ", 0); }
      if StartsWith(line, "## ") { PrefixChar(line, "## ", 0); }
      if StartsWith(line, "### ") { PrefixChar(line, "### ", 0); }
      if StartsWith(line, "- ") { PrefixChar(line, "- ", 0); }
    }
  }

  /** A line is drawn as a divider exactly when it reads `---` once
      trimmed: no earlier test catches such a line. */
  lemma DividerExactlyDashes(line: string)
    ensures ClassifyLine(line).Divider? <==> Trim(line) == "---"
  {
    if Trim(line) == "---" {
      DashesPassEarlierTests(line);
    }
  }

  /** A line that trims to `---` is not blank, does not trim to a `**`
      pair, and starts with none of the heading or bullet prefixes. */
  lemma DashesPassEarlierTests(line: string)
    requires Trim(line) == "---"
    ensures !IsBlank(line) && !StartsWith(Trim(line), "**")
    ensures !StartsWith(line, "# ") && !StartsWith(line, "## ") && !StartsWith(line, "### ") && !StartsWith(line, "- ")
  {
    TrimIsInnerSlice(line);
    if StartsWith(Trim(line), "**") { PrefixChar(Trim(line), "**", 0); }
    if !IsWhitespace(line[0]) {
      TrimKeepsStart(line);
      assert line[0] == '-' && line[1] == '-';
    }
    if StartsWith(line, "# ") { PrefixChar(line, "# ", 0); }
    if StartsWith(line, "## ") { PrefixChar(line, "## ", 0); }
    if StartsWith(line, "### ") { PrefixChar(line, "### ", 0); }
    if StartsWith(line, "- ") { PrefixChar(line, "- ", 0); PrefixChar(line, "- ", 1); }
  }

  /** `ParsedMarkdownText`: the text split at line feeds, one drawn line per
      piece, in order. */
  function ParsedMarkdownText(text: string): (r: seq<Line>)
    ensures |r| == |SplitLines(text)|
    ensures forall k :: 0 <= k < |r| ==> r[k] == ClassifyLine(SplitLines(text)[k])
  {
    var lines := SplitLines(text);
    seq(|lines|, k requires 0 <= k < |lines| => ClassifyLine(lines[k]))
  }
}
