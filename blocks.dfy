/** Rendering text into Notion content blocks: plain paragraphs split at the
    2000-character limit, heading blocks, inline `**bold**` runs, and the
    line-by-line conversion of the markdown-like dossier. */
module NotionBlocks {
  import opened Wrappers
  import opened Text

  /** Notion's limit on the content of one rich-text run. */
  const MaxText: nat := 2000

  /** One rich-text run; `bold` is the run's `annotations.bold` flag. */
  datatype Run = Run(content: string, bold: bool)

  datatype BlockType = Paragraph | Heading2 | Heading3 | BulletedListItem | Divider

  /** A content block: its type and its rich-text runs (none for a divider). */
  datatype Block = Block(kind: BlockType, richText: seq<Run>)

  function RunsText(runs: seq<Run>): string
    decreases |runs|
  {
    if runs == [] then "" else runs[0].content + RunsText(runs[1..])
  }

  /** The text of a block sequence: every run's content, in block order. */
  function FlatText(blocks: seq<Block>): string
    decreases |blocks|
  {
    if blocks == [] then "" else RunsText(blocks[0].richText) + FlatText(blocks[1..])
  }

  function PlainBlock(kind: BlockType, text: string): Block {
    Block(kind, [Run(text, false)])
  }

  // ---------------------------------------------------------------------
  // Paragraphs

  /** The paragraph blocks for `text`: consecutive chunks of at most
      `MaxText` characters, every chunk but the last exactly `MaxText` long,
      none empty, and together exactly `text`. */
  function ParagraphBlocks(text: string): (r: seq<Block>)
    ensures text == [] <==> r == []
    ensures forall k :: 0 <= k < |r| ==>
      r[k].kind == Paragraph && |r[k].richText| == 1 && !r[k].richText[0].bold
      && 0 < |r[k].richText[0].content| <= MaxText
    ensures forall k :: 0 <= k < |r| - 1 ==> |r[k].richText[0].content| == MaxText
    ensures FlatText(r) == text
    decreases |text|
  {
    if text == [] then []
    else
      var rest := ParagraphBlocks(Drop(text, MaxText));
      var r := [PlainBlock(Paragraph, Take(text, MaxText))] + rest;
      assert r[1..] == rest;
      assert RunsText(r[0].richText) == Take(text, MaxText) + RunsText([]);
      r
  }

  /** `_notion_paragraph`: a loop that cuts `MaxText` characters off the
      front of the text until nothing is left. */
  method NotionParagraph(text: string) returns (blocks: seq<Block>)
    ensures blocks == ParagraphBlocks(text)
  {
    blocks := [];
    var rest := text;
    while rest != []
      invariant blocks + ParagraphBlocks(rest) == ParagraphBlocks(text)
      decreases |rest|
    {
      ghost var before := rest;
      var chunk := Take(rest, MaxText);
      rest := Drop(rest, MaxText);
      assert ParagraphBlocks(before) == [PlainBlock(Paragraph, chunk)] + ParagraphBlocks(rest);
      AppendAssoc(blocks, [PlainBlock(Paragraph, chunk)], ParagraphBlocks(rest));
      blocks := blocks + [PlainBlock(Paragraph, chunk)];
    }
  }

  /** `_notion_heading`: one heading_3 block holding the whole text, uncut. */
  function NotionHeading(text: string): (b: Block)
    ensures b.kind == Heading3 && |b.richText| == 1 && !b.richText[0].bold
    ensures RunsText(b.richText) == text
  {
    PlainBlock(Heading3, text)
  }

  // ---------------------------------------------------------------------
  // Inline bold: re.split(r'(\*\*.*?\*\*)', text)

  predicate StarPairAt(s: string, j: int) {
    0 <= j && j + 1 < |s| && s[j] == '*' && s[j + 1] == '*'
  }

  /** A span the pattern `\*\*.*?\*\*` matches: `**`, an inner part with no
      newline and no `**` anywhere in it (the lazy `.*?` stops at the first
      closing pair), then `**`. */
  predicate BoldSpan(p: string) {
    |p| >= 4 && StarPairAt(p, 0) && StarPairAt(p, |p| - 2)
    && forall j :: 2 <= j < |p| - 2 ==> p[j] != '\n' && !StarPairAt(p, j)
  }

  /** No match of the pattern starts at a position in `[lo, hi)`. */
  predicate NoSpanStart(s: string, lo: int, hi: int) {
    forall x, y :: 0 <= lo <= x < hi && x <= y <= |s| ==> !BoldSpan(s[x..y])
  }

  /** The lazy `.*?\*\*` tail of the pattern started at `i`: the first `**`
      at or after `i`, provided no newline comes before it; none when a
      newline comes before every `**`. */
  function FindClose(s: string, i: nat): (r: Option<nat>)
    requires i <= |s|
    ensures r.Some? ==>
      i <= r.value && StarPairAt(s, r.value)
      && forall j :: i <= j < r.value ==> s[j] != '\n' && !StarPairAt(s, j)
    ensures r.None? ==> forall j :: i <= j && StarPairAt(s, j) ==> '\n' in s[i..j]
    decreases |s| - i
  {
    if i + 2 > |s| then None
    else if StarPairAt(s, i) then Some(i)
    else if s[i] == '\n' then
      assert forall j :: i < j <= |s| ==> s[i..j][0] == '\n';
      None
    else
      var r := FindClose(s, i + 1);
      assert forall j :: i + 1 <= j <= |s| ==> s[i + 1..j] == s[i..j][1..];
      r
  }

  /** A match of the pattern is fixed by where it starts: the inner part
      ends at the first closing `**`. */
  lemma BoldSpanUnique(s: string, x: nat, y1: nat, y2: nat)
    requires x <= y1 <= |s| && x <= y2 <= |s|
    requires BoldSpan(s[x..y1]) && BoldSpan(s[x..y2])
    ensures y1 == y2
  {
    if y1 < y2 {
      assert StarPairAt(s[x..y2], y1 - 2 - x);
    } else if y2 < y1 {
      assert StarPairAt(s[x..y1], y2 - 2 - x);
    }
  }

  /** A match closes with a `**` and holds no newline inside. */
  lemma SpanInside(s: string, x: nat, y: nat)
    requires x + 4 <= y <= |s| && BoldSpan(s[x..y])
    ensures StarPairAt(s, x) && StarPairAt(s, y - 2) && '\n' !in s[x + 2..y - 2]
  {
    var p := s[x..y];
    assert p[|p| - 2] == s[y - 2] && p[|p| - 1] == s[y - 1];
    forall k | x + 2 <= k < y - 2
      ensures s[k] != '\n'
    {
      assert s[k] == p[k - x];
    }
  }

  /** No match starts at `i` when `s` has no `**` there, or when no closing
      `**` follows it before a newline. */
  lemma NoSpanAt(s: string, i: nat)
    requires i <= |s|
    requires i + 2 > |s| || !StarPairAt(s, i) || FindClose(s, i + 2).None?
    ensures NoSpanStart(s, i, i + 1)
  {
    forall y | i <= y <= |s|
      ensures !BoldSpan(s[i..y])
    {
      if i + 4 <= y && BoldSpan(s[i..y]) {
        SpanInside(s, i, y);
      }
    }
  }

  /** The leftmost match of `\*\*.*?\*\*` starting at or after `i`, as a
      (start, end) pair: no match starts before it, and none at all when
      the result is `None`. */
  function FindSpan(s: string, i: nat): (r: Option<(nat, nat)>)
    requires i <= |s|
    ensures r.Some? ==>
      i <= r.value.0 && r.value.0 + 4 <= r.value.1 <= |s|
      && BoldSpan(s[r.value.0..r.value.1])
    ensures NoSpanStart(s, i, if r.Some? then r.value.0 else |s|)
    decreases |s| - i
  {
    if i + 2 > |s| then
      NoSpanAt(s, i);
      None
    else if StarPairAt(s, i) && FindClose(s, i + 2).Some? then
      var e := FindClose(s, i + 2).value + 2;
      var p := s[i..e];
      assert forall j :: 2 <= j < |p| - 2 ==> p[j] == s[i + j] && (StarPairAt(p, j) ==> StarPairAt(s, i + j));
      Some((i, e))
    else
      NoSpanAt(s, i);
      FindSpan(s, i + 1)
  }

  /** `re.split` with a capturing group: the text between matches at the
      even positions, the matched spans at the odd positions. Splitting
      loses nothing. */
  function BoldSplit(s: string): (parts: seq<string>)
    ensures |parts| % 2 == 1
    ensures Concat(parts) == s
    ensures forall k :: 0 <= k < |parts| && k % 2 == 1 ==> BoldSpan(parts[k])
    decreases |s|
  {
    match FindSpan(s, 0)
    case None => [s]
    case Some((a, b)) =>
      var rest := BoldSplit(s[b..]);
      SplitStep(s, a, b, rest);
      [s[..a], s[a..b]] + rest
  }

  /** One step of `BoldSplit`: the text before a span and the span itself,
      put in front of a split of the rest, split the whole string. */
  lemma SplitStep(s: string, a: nat, b: nat, rest: seq<string>)
    requires a <= b <= |s| && BoldSpan(s[a..b])
    requires |rest| % 2 == 1 && Concat(rest) == s[b..]
    requires forall k :: 0 <= k < |rest| && k % 2 == 1 ==> BoldSpan(rest[k])
    ensures |[s[..a], s[a..b]] + rest| % 2 == 1
    ensures Concat([s[..a], s[a..b]] + rest) == s
    ensures forall k :: 0 <= k < |[s[..a], s[a..b]] + rest| && k % 2 == 1 ==>
      BoldSpan(([s[..a], s[a..b]] + rest)[k])
  {
    var parts := [s[..a], s[a..b]] + rest;
    assert parts[1..][1..] == rest;
    assert s == s[..a] + (s[a..b] + s[b..]);
    assert forall k :: 2 <= k < |parts| ==> parts[k] == rest[k - 2];
  }

  /** `re.split` scans from the left: no match of the pattern starts inside
      any even-indexed part, read against the rest of the string from that
      part on, which is what is left of `s` there. With the odd parts being
      matches, this leaves one way to split `s`. */
  lemma {:induction false} BoldSplitLeftmost(s: string)
    ensures forall k :: 0 <= k < |BoldSplit(s)| ==>
      EndsWith(s, Concat(BoldSplit(s)[k..]))
    ensures forall k :: 0 <= k < |BoldSplit(s)| && k % 2 == 0 ==>
      NoSpanStart(Concat(BoldSplit(s)[k..]), 0, |BoldSplit(s)[k]|)
    decreases |s|
  {
    var parts := BoldSplit(s);
    forall k | 0 <= k < |parts|
      ensures EndsWith(s, Concat(parts[k..]))
    {
      ConcatSuffix(parts, k);
    }
    match FindSpan(s, 0)
    case None =>
      assert parts == [s] && parts[0..] == parts;
    case Some((a, b)) =>
      var rest := BoldSplit(s[b..]);
      assert parts == [s[..a], s[a..b]] + rest;
      BoldSplitLeftmost(s[b..]);
      forall k | 0 <= k < |parts| && k % 2 == 0
        ensures NoSpanStart(Concat(parts[k..]), 0, |parts[k]|)
      {
        if k == 0 {
          assert parts[0..] == parts;
        } else {
          assert parts[k..] == rest[k - 2..];
          assert parts[k] == rest[k - 2];
        }
      }
  }

  /** The parts from `k` on make up a suffix of the whole. */
  lemma {:induction false} ConcatSuffix(parts: seq<string>, k: nat)
    requires k <= |parts|
    ensures EndsWith(Concat(parts), Concat(parts[k..]))
    decreases k
  {
    if k == 0 {
      assert parts[0..] == parts;
    } else {
      ConcatSuffix(parts[1..], k - 1);
      assert parts[1..][k - 1..] == parts[k..];
    }
  }

  /** The text left of `parts` once the `**` markers of every marked part
      are removed. */
  function Unmarked(parts: seq<string>): string
    decreases |parts|
  {
    if parts == [] then ""
    else (if Marked(parts[0]) then Inner(parts[0]) else parts[0]) + Unmarked(parts[1..])
  }

  /** No part is longer than the parts together. */
  lemma {:induction false} PartWithinConcat(parts: seq<string>, k: nat)
    requires k < |parts|
    ensures |parts[k]| <= |Concat(parts)|
    decreases |parts|
  {
    if k > 0 {
      PartWithinConcat(parts[1..], k - 1);
    }
  }

  lemma {:induction false} SegmentsText(parts: seq<string>, i: nat)
    requires i <= |parts|
    requires forall k :: i <= k < |parts| ==> |parts[k]| <= MaxText
    ensures RunsText(SegmentsFrom(parts, i)) == Unmarked(parts[i..])
    decreases |parts| - i
  {
    if i < |parts| {
      SegmentsText(parts, i + 1);
      RunsTextAppend(PartRuns(parts[i]), SegmentsFrom(parts, i + 1));
      assert parts[i..][1..] == parts[i + 1..];
    }
  }

  lemma {:induction false} RunsTextAppend(a: seq<Run>, b: seq<Run>)
    ensures RunsText(a + b) == RunsText(a) + RunsText(b)
    decreases |a|
  {
    if a == [] {
      assert a + b == b;
    } else {
      RunsTextAppend(a[1..], b);
      assert (a + b)[1..] == a[1..] + b;
    }
  }

  /** When nothing is cut at the run limit, the runs together hold exactly
      the text with the markers of the matched spans (and of other parts
      that start and end with `**`) removed. */
  lemma RichTextContent(text: string)
    requires |text| <= MaxText
    ensures RunsText(RichText(text)) == Unmarked(BoldSplit(text))
  {
    var parts := BoldSplit(text);
    var segments := SegmentsFrom(parts, 0);
    assert RunsText(segments) == Unmarked(parts) by {
      forall k | 0 <= k < |parts|
        ensures |parts[k]| <= MaxText
      {
        PartWithinConcat(parts, k);
      }
      SegmentsText(parts, 0);
      assert parts[0..] == parts;
    }
    if segments == [] {
      assert RunsText([Run("", false)]) == "" + RunsText([]);
    }
  }

  /** Python's `part.startswith('**') and part.endswith('**')`; true of `**`
      and `***` as well. */
  predicate Marked(part: string) {
    StartsWith(part, "**") && EndsWith(part, "**")
  }

  /** Python's `part[2:-2]`. */
  function Inner(part: string): string {
    if |part| >= 4 then part[2..|part| - 2] else ""
  }

  /** The runs one part contributes: nothing for an empty part or a marked
      part with nothing inside, a bold run for other marked parts, a plain
      run otherwise, each cut to `MaxText` characters. */
  function PartRuns(part: string): (r: seq<Run>)
    ensures |r| <= 1
    ensures forall k :: 0 <= k < |r| ==> 0 < |r[k].content| <= MaxText
  {
    if part == [] then []
    else if Marked(part) then
      if Inner(part) == [] then [] else [Run(Take(Inner(part), MaxText), true)]
    else [Run(Take(part, MaxText), false)]
  }

  /** What each kind of part turns into: an empty part into nothing, an
      unmarked part into one plain run of its first `MaxText` characters,
      a marked part into one bold run of the first `MaxText` characters
      between its markers, or nothing when nothing is between them. */
  lemma PartRunsCases(part: string)
    ensures part == [] ==> PartRuns(part) == []
    ensures part != [] && !Marked(part) ==> PartRuns(part) == [Run(Take(part, MaxText), false)]
    ensures Marked(part) ==>
      PartRuns(part) == (if Inner(part) == [] then [] else [Run(Take(Inner(part), MaxText), true)])
  {
  }

  function SegmentsFrom(parts: seq<string>, i: nat): (r: seq<Run>)
    requires i <= |parts|
    ensures forall k :: 0 <= k < |r| ==> 0 < |r[k].content| <= MaxText
    decreases |parts| - i
  {
    if i == |parts| then [] else PartRuns(parts[i]) + SegmentsFrom(parts, i + 1)
  }

  /** The runs `_parse_rich_text` produces: never empty, every run at most
      `MaxText` characters, and either the single empty run or only
      non-empty runs. */
  function RichText(text: string): (r: seq<Run>)
    ensures |r| >= 1
    ensures forall k :: 0 <= k < |r| ==> |r[k].content| <= MaxText
    ensures r == [Run("", false)] || forall k :: 0 <= k < |r| ==> r[k].content != []
  {
    var segments := SegmentsFrom(BoldSplit(text), 0);
    if segments == [] then [Run("", false)] else segments
  }

  /** `_parse_rich_text`: walks the split parts and appends a run per part
      that survives. */
  method ParseRichText(text: string) returns (segments: seq<Run>)
    ensures segments == RichText(text)
  {
    var parts := BoldSplit(text);
    segments := [];
    for i := 0 to |parts|
      invariant segments + SegmentsFrom(parts, i) == SegmentsFrom(parts, 0)
    {
      var part := parts[i];
      ghost var before := segments;
      if part != [] {
        if StartsWith(part, "**") && EndsWith(part, "**") {
          var content := Inner(part);
          if content != [] {
            segments := segments + [Run(Take(content, MaxText), true)];
          }
        } else {
          segments := segments + [Run(Take(part, MaxText), false)];
        }
      }
      assert segments == before + PartRuns(part);
      assert SegmentsFrom(parts, i) == PartRuns(part) + SegmentsFrom(parts, i + 1);
      AppendAssoc(before, PartRuns(part), SegmentsFrom(parts, i + 1));
    }
    if segments == [] {
      segments := [Run("", false)];
    }
  }

  lemma AppendAssoc<T>(a: seq<T>, b: seq<T>, c: seq<T>)
    ensures (a + b) + c == a + (b + c)
  {
  }

  lemma {:induction false} NoStarNoSpan(s: string, i: nat)
    requires i <= |s| && '*' !in s
    ensures FindSpan(s, i) == None
    decreases |s| - i
  {
    if i + 2 <= |s| {
      NoStarNoSpan(s, i + 1);
    }
  }

  /** Text without any `*` becomes one plain run of the whole text. */
  lemma RichTextPlain(s: string)
    requires '*' !in s && 0 < |s| <= MaxText
    ensures RichText(s) == [Run(s, false)]
  {
    var parts := BoldSplit(s);
    assert parts == [s] by {
      NoStarNoSpan(s, 0);
    }
    assert PartRuns(s) == [Run(s, false)] by {
      assert s[0] != '*';
    }
    assert SegmentsFrom(parts, 0) == PartRuns(s) + SegmentsFrom(parts, 1);
  }

  lemma {:induction false} FindCloseSkip(s: string, i: nat, q: nat)
    requires i <= q && StarPairAt(s, q)
    requires forall j :: i <= j < q ==> s[j] != '*' && s[j] != '\n'
    ensures FindClose(s, i) == Some(q)
    decreases q - i
  {
    if i < q {
      FindCloseSkip(s, i + 1, q);
    }
  }

  /** A whole `**text**` span, with no `*` or newline inside, becomes one
      bold run of the inner text. */
  lemma BoldSplitWholeSpan(c: string)
    requires '*' !in c && '\n' !in c
    ensures BoldSplit("**" + c + "**") == ["", "**" + c + "**", ""]
  {
    var s := "**" + c + "**";
    var n: nat := |s|;
    assert forall j :: 2 <= j < 2 + |c| ==> s[j] == c[j - 2];
    assert StarPairAt(s, 0) && StarPairAt(s, 2 + |c|);
    FindCloseSkip(s, 2, 2 + |c|);
    assert FindSpan(s, 0) == Some((0, n));
    assert s[n..] == "" && s[..0] == "" && s[0..n] == s;
    assert FindSpan("", 0) == None;
  }

  lemma RichTextBold(c: string)
    requires c != [] && '*' !in c && '\n' !in c && |c| <= MaxText
    ensures RichText("**" + c + "**") == [Run(c, true)]
  {
    var s := "**" + c + "**";
    var parts := ["", s, ""];
    assert BoldSplit(s) == parts by { BoldSplitWholeSpan(c); }
    assert PartRuns(s) == [Run(c, true)] by {
      assert s[2..|s| - 2] == c;
      assert Marked(s) && Inner(s) == c;
    }
    assert SegmentsFrom(parts, 2) == [] by {
      assert SegmentsFrom(parts, 3) == [];
    }
    assert SegmentsFrom(parts, 0) == [Run(c, true)] by {
      assert SegmentsFrom(parts, 1) == PartRuns(s) + SegmentsFrom(parts, 2);
    }
  }

  /** A part that starts and ends with `**` contributes a bold run of
      what lies between the markers, and nothing when that is empty: `**`,
      `***` and `****` vanish. */
  lemma MarkedPartRuns(part: string)
    requires Marked(part)
    ensures |part| <= 4 ==> PartRuns(part) == []
    ensures |part| > 4 ==> PartRuns(part) == [Run(Take(part[2..|part| - 2], MaxText), true)]
  {
    assert part != [] && |part| >= 2;
  }

  /** A lone `**` is no span; as a part of its own it is dropped, and with
      nothing left the result is the single empty run. */
  lemma RichTextLoneMarker()
    ensures RichText("**") == [Run("", false)]
  {
    var two := "**";
    assert FindSpan(two, 1) == None;
    assert FindSpan(two, 0) == None;
    assert BoldSplit(two) == [two];
    assert SegmentsFrom([two], 1) == [];
    assert SegmentsFrom([two], 0) == PartRuns(two) + SegmentsFrom([two], 1);
  }

  /** `****` is one span with nothing inside, and contributes nothing. */
  lemma EmptySpanParts()
    ensures BoldSplit("****") == ["", "****", ""]
    ensures PartRuns("****") == []
  {
    BoldSplitWholeSpan("");
    assert "**" + "" + "**" == "****";
    MarkedPartRuns("****");
  }

  /** The empty span `****` is dropped too. */
  lemma RichTextEmptySpan()
    ensures RichText("****") == [Run("", false)]
  {
    var four := "****";
    EmptySpanParts();
    var parts := ["", four, ""];
    assert SegmentsFrom(parts, 2) == [] by {
      assert SegmentsFrom(parts, 3) == [];
    }
    assert SegmentsFrom(parts, 0) == [] by {
      assert SegmentsFrom(parts, 1) == PartRuns(four) + SegmentsFrom(parts, 2);
    }
  }

  // ---------------------------------------------------------------------
  // Markdown lines

  /** The index of the first `*` at or after `i` (or `|s|`). */
  function FirstStar(s: string, i: nat): (k: nat)
    requires i <= |s|
    ensures i <= k <= |s| && (k < |s| ==> s[k] == '*')
    ensures forall j :: i <= j < k ==> s[j] != '*'
    decreases |s| - i
  {
    if i == |s| || s[i] == '*' then i else FirstStar(s, i + 1)
  }

  /** `re.match(r'^\*\*[^*]+\*\*\s*$', s)`: `**`, one or more characters
      other than `*`, `**`, then only whitespace. */
  predicate WholeBold(s: string) {
    StartsWith(s, "**") &&
    var k := FirstStar(s, 2);
    k > 2 && StarPairAt(s, k) && forall j :: k + 2 <= j < |s| ==> IsSpace(s[j])
  }

  /** The text of a whole-line bold heading: `strip('* ')`, then `rstrip(':')`. */
  function BoldHeadingText(s: string): string {
    TrimEndIn(StripIn(s, {'*', ' '}), {':'})
  }

  /** The block for one stripped, non-blank line, by the first test it
      passes: `# `, `## `, a whole-line bold span, a `- `/`* ` bullet,
      otherwise a paragraph. */
  function ClassifyLine(s: string): Block {
    if StartsWith(s, "# ") then PlainBlock(Heading2, Take(Strip(s[2..]), MaxText))
    else if StartsWith(s, "## ") then PlainBlock(Heading3, Take(Strip(s[3..]), MaxText))
    else if WholeBold(s) then PlainBlock(Heading3, Take(BoldHeadingText(s), MaxText))
    else if StartsWith(s, "- ") || StartsWith(s, "* ") then Block(BulletedListItem, RichText(Strip(s[2..])))
    else Block(Paragraph, RichText(s))
  }

  /** The tests are tried in order and exclude each other where they must:
      a `# ` line is the only kind of level-2 heading (a `## ` line does
      not start with `# `), level-3 headings come from `## ` lines and
      whole-line bold spans, bullets from `- ` and `* ` lines, and no line
      becomes a divider. */
  lemma ClassifyLineKinds(s: string)
    ensures ClassifyLine(s).kind != Divider
    ensures ClassifyLine(s).kind == Heading2 <==> StartsWith(s, "# ")
    ensures ClassifyLine(s).kind == Heading3 <==> StartsWith(s, "## ") || WholeBold(s)
    ensures ClassifyLine(s).kind == BulletedListItem <==> StartsWith(s, "- ") || StartsWith(s, "* ")
  {
    assert StartsWith(s, "# ") ==> s[0] == '#' && s[1] == ' ';
    assert StartsWith(s, "## ") ==> s[0] == '#' && s[1] == '#';
    assert StartsWith(s, "**") ==> s[0] == '*' && s[1] == '*';
    assert StartsWith(s, "- ") ==> s[0] == '-';
    assert StartsWith(s, "* ") ==> s[0] == '*' && s[1] == ' ';
  }

  /** Headings hold one plain run of at most `MaxText` characters; other
      lines hold at least one run. */
  lemma ClassifyLineRuns(s: string)
    ensures ClassifyLine(s).kind in {Heading2, Heading3} ==>
      |ClassifyLine(s).richText| == 1 && !ClassifyLine(s).richText[0].bold
      && |ClassifyLine(s).richText[0].content| <= MaxText
    ensures ClassifyLine(s).kind in {Paragraph, BulletedListItem} ==> |ClassifyLine(s).richText| >= 1
  {
    if StartsWith(s, "# ") {
      var h := Take(Strip(s[2..]), MaxText);
      assert ClassifyLine(s) == PlainBlock(Heading2, h) && |h| <= MaxText;
    } else if StartsWith(s, "## ") {
      var h := Take(Strip(s[3..]), MaxText);
      assert ClassifyLine(s) == PlainBlock(Heading3, h) && |h| <= MaxText;
    } else if WholeBold(s) {
      var h := Take(BoldHeadingText(s), MaxText);
      assert ClassifyLine(s) == PlainBlock(Heading3, h) && |h| <= MaxText;
    } else if StartsWith(s, "- ") || StartsWith(s, "* ") {
      assert ClassifyLine(s) == Block(BulletedListItem, RichText(Strip(s[2..])));
    } else {
      assert ClassifyLine(s) == Block(Paragraph, RichText(s));
    }
  }

  /** A stripped line that is one whole bold span is `**`, characters
      other than `*`, and `**`, with nothing after. */
  lemma WholeBoldShape(s: string)
    requires WholeBold(s) && !IsSpace(s[|s| - 1])
    ensures |s| >= 5 && StarPairAt(s, 0) && StarPairAt(s, |s| - 2)
    ensures forall j :: 2 <= j < |s| - 2 ==> s[j] != '*'
  {
    assert FirstStar(s, 2) + 2 == |s|;
  }

  /** `strip('* ')` of `**inner**` keeps only characters of the inner part. */
  lemma BoldInnerNoStar(s: string)
    requires |s| >= 4 && StarPairAt(s, 0) && StarPairAt(s, |s| - 2)
    requires forall j :: 2 <= j < |s| - 2 ==> s[j] != '*'
    ensures '*' !in StripIn(s, {'*', ' '})
  {
    var chars := {'*', ' '};
    var t := TrimStartIn(s, chars);
    var u := TrimEndIn(t, chars);
    var off := |s| - |t|;
    assert off >= 2;
    assert u == s[off..off + |u|];
    assert u == [] || off + |u| <= |s| - 2;
    forall j | 0 <= j < |u|
      ensures u[j] != '*'
    {
      assert u[j] == s[off + j];
    }
  }

  /** On a stripped line that is one whole bold span, the heading text
      keeps no `*` and does not end in `:`. */
  lemma BoldHeadingTextClean(s: string)
    requires WholeBold(s) && !IsSpace(s[|s| - 1])
    ensures '*' !in BoldHeadingText(s)
    ensures BoldHeadingText(s) == [] || BoldHeadingText(s)[|BoldHeadingText(s)| - 1] != ':'
  {
    var u := StripIn(s, {'*', ' '});
    WholeBoldShape(s);
    BoldInnerNoStar(s);
    var v := TrimEndIn(u, {':'});
    assert forall j :: 0 <= j < |v| ==> v[j] == u[j];
  }

  /** A whole-line bold heading keeps no `*`, and unless it was cut at
      `MaxText` it is the whole heading text. */
  lemma BoldHeadingClean(s: string)
    requires WholeBold(s) && !IsSpace(s[|s| - 1])
    ensures ClassifyLine(s) == PlainBlock(Heading3, Take(BoldHeadingText(s), MaxText))
    ensures '*' !in ClassifyLine(s).richText[0].content
  {
    assert s[0] == '*';
    assert !StartsWith(s, "# ") && !StartsWith(s, "## ");
    var h := Take(BoldHeadingText(s), MaxText);
    assert '*' !in h by {
      BoldHeadingTextClean(s);
      assert forall j :: 0 <= j < |h| ==> h[j] == BoldHeadingText(s)[j];
    }
  }

  /** Every line of `lines` passed through `strip()`. */
  function StripAll(lines: seq<string>): seq<string>
  {
    seq(|lines|, j requires 0 <= j < |lines| => Strip(lines[j]))
  }

  /** `ClassifyLine` applied to every stripped line. */
  function ClassifyAll(stripped: seq<string>): seq<Block>
  {
    seq(|stripped|, j requires 0 <= j < |stripped| => ClassifyLine(stripped[j]))
  }

  /** The blocks kept from line `i` on: a blank stripped line gives nothing,
      every other line gives its classified block. */
  function LineBlocksFrom(stripped: seq<string>, classified: seq<Block>, i: nat): seq<Block>
    requires |classified| == |stripped| && i <= |stripped|
    decreases |stripped| - i
  {
    if i == |stripped| then []
    else (if stripped[i] == [] then [] else [classified[i]]) + LineBlocksFrom(stripped, classified, i + 1)
  }

  /** The stripped lines of a dossier. */
  function DossierLines(markdownText: string): seq<string> {
    StripAll(Split(markdownText, '\n'))
  }

  /** The blocks `_markdown_to_notion_blocks` returns for a dossier. */
  function MarkdownBlocks(markdownText: string): seq<Block> {
    var stripped := DossierLines(markdownText);
    LineBlocksFrom(stripped, ClassifyAll(stripped), 0)
  }

  /** The indices of the non-blank stripped lines from `i` on, in order. */
  function NonBlankIndices(stripped: seq<string>, i: nat): seq<nat>
    requires i <= |stripped|
    decreases |stripped| - i
  {
    if i == |stripped| then []
    else (if stripped[i] == [] then [] else [i]) + NonBlankIndices(stripped, i + 1)
  }

  /** The non-blank indices from `i` on are in range and name lines that
      are not empty. */
  lemma {:induction false} NonBlankInRange(stripped: seq<string>, i: nat)
    requires i <= |stripped|
    ensures forall k :: 0 <= k < |NonBlankIndices(stripped, i)| ==>
      i <= NonBlankIndices(stripped, i)[k] < |stripped| && stripped[NonBlankIndices(stripped, i)[k]] != []
    decreases |stripped| - i
  {
    if i < |stripped| {
      NonBlankInRange(stripped, i + 1);
      var tail := NonBlankIndices(stripped, i + 1);
      if stripped[i] != [] {
        var idx := [i] + tail;
        assert NonBlankIndices(stripped, i) == idx;
        assert forall k :: 1 <= k < |idx| ==> idx[k] == tail[k - 1];
      } else {
        assert NonBlankIndices(stripped, i) == tail;
      }
    }
  }

  /** The non-blank indices come in increasing order. */
  lemma {:induction false} NonBlankIncreasing(stripped: seq<string>, i: nat)
    requires i <= |stripped|
    ensures forall k, l :: 0 <= k < l < |NonBlankIndices(stripped, i)| ==>
      NonBlankIndices(stripped, i)[k] < NonBlankIndices(stripped, i)[l]
    decreases |stripped| - i
  {
    if i < |stripped| {
      NonBlankIncreasing(stripped, i + 1);
      NonBlankInRange(stripped, i + 1);
      var tail := NonBlankIndices(stripped, i + 1);
      if stripped[i] != [] {
        var idx := [i] + tail;
        assert NonBlankIndices(stripped, i) == idx;
        assert forall k :: 1 <= k < |idx| ==> idx[k] == tail[k - 1];
      } else {
        assert NonBlankIndices(stripped, i) == tail;
      }
    }
  }

  /** Every non-blank line from `i` on has its index listed. */
  lemma {:induction false} NonBlankComplete(stripped: seq<string>, i: nat)
    requires i <= |stripped|
    ensures forall j {:trigger j in NonBlankIndices(stripped, i)} ::
      i <= j < |stripped| && stripped[j] != [] ==> j in NonBlankIndices(stripped, i)
    decreases |stripped| - i
  {
    if i < |stripped| {
      NonBlankComplete(stripped, i + 1);
      var tail := NonBlankIndices(stripped, i + 1);
      if stripped[i] != [] {
        var idx := [i] + tail;
        assert NonBlankIndices(stripped, i) == idx;
        forall j | i <= j < |stripped| && stripped[j] != []
          ensures j in idx
        {
          if j == i { assert idx[0] == i; } else { assert j in tail; }
        }
      } else {
        assert NonBlankIndices(stripped, i) == tail;
      }
    }
  }

  /** One block per non-blank line, in line order: the k-th block is the
      classified line at the k-th non-blank index. */
  lemma {:induction false} LineBlocksOnePerLine(stripped: seq<string>, classified: seq<Block>, i: nat)
    requires |classified| == |stripped| && i <= |stripped|
    ensures |NonBlankIndices(stripped, i)| == |LineBlocksFrom(stripped, classified, i)|
    ensures forall k :: 0 <= k < |NonBlankIndices(stripped, i)| ==>
      NonBlankIndices(stripped, i)[k] < |stripped|
      && LineBlocksFrom(stripped, classified, i)[k] == classified[NonBlankIndices(stripped, i)[k]]
    decreases |stripped| - i
  {
    if i < |stripped| {
      LineBlocksOnePerLine(stripped, classified, i + 1);
      var tailIdx, tailBs := NonBlankIndices(stripped, i + 1), LineBlocksFrom(stripped, classified, i + 1);
      if stripped[i] != [] {
        var idx, bs := [i] + tailIdx, [classified[i]] + tailBs;
        assert NonBlankIndices(stripped, i) == idx;
        assert LineBlocksFrom(stripped, classified, i) == bs;
        assert forall k :: 1 <= k < |idx| ==> idx[k] == tailIdx[k - 1] && bs[k] == tailBs[k - 1];
      } else {
        assert NonBlankIndices(stripped, i) == tailIdx;
        assert LineBlocksFrom(stripped, classified, i) == tailBs;
      }
    }
  }

  /** For any stripped lines: one block per non-blank line, in line order,
      the k-th block classifying the k-th non-blank line. */
  lemma BlocksFollowLines(stripped: seq<string>)
    ensures |NonBlankIndices(stripped, 0)| == |LineBlocksFrom(stripped, ClassifyAll(stripped), 0)|
    ensures forall k :: 0 <= k < |NonBlankIndices(stripped, 0)| ==>
      NonBlankIndices(stripped, 0)[k] < |stripped|
      && LineBlocksFrom(stripped, ClassifyAll(stripped), 0)[k] == ClassifyLine(stripped[NonBlankIndices(stripped, 0)[k]])
    ensures forall k, l :: 0 <= k < l < |NonBlankIndices(stripped, 0)| ==>
      NonBlankIndices(stripped, 0)[k] < NonBlankIndices(stripped, 0)[l]
    ensures forall j :: 0 <= j < |stripped| ==> (stripped[j] != [] <==> j in NonBlankIndices(stripped, 0))
  {
    NonBlankInRange(stripped, 0);
    NonBlankIncreasing(stripped, 0);
    NonBlankComplete(stripped, 0);
    LineBlocksOnePerLine(stripped, ClassifyAll(stripped), 0);
  }

  /** The dossier's blocks follow its lines one for one: the k-th block
      classifies the k-th line that is not blank after `strip()`, lines come
      in order, and no non-blank line is skipped. */
  lemma MarkdownBlocksPerLine(markdownText: string)
    ensures |NonBlankIndices(DossierLines(markdownText), 0)| == |MarkdownBlocks(markdownText)|
    ensures forall k :: 0 <= k < |MarkdownBlocks(markdownText)| ==>
      NonBlankIndices(DossierLines(markdownText), 0)[k] < |DossierLines(markdownText)|
      && MarkdownBlocks(markdownText)[k]
         == ClassifyLine(DossierLines(markdownText)[NonBlankIndices(DossierLines(markdownText), 0)[k]])
    ensures forall k, l :: 0 <= k < l < |NonBlankIndices(DossierLines(markdownText), 0)| ==>
      NonBlankIndices(DossierLines(markdownText), 0)[k] < NonBlankIndices(DossierLines(markdownText), 0)[l]
    ensures forall j :: 0 <= j < |DossierLines(markdownText)| ==>
      (DossierLines(markdownText)[j] != [] <==> j in NonBlankIndices(DossierLines(markdownText), 0))
  {
    BlocksFollowLines(DossierLines(markdownText));
  }

  /** A dossier never renders to a divider block. */
  lemma MarkdownNoDivider(markdownText: string)
    ensures forall k :: 0 <= k < |MarkdownBlocks(markdownText)| ==> MarkdownBlocks(markdownText)[k].kind != Divider
  {
    var stripped := DossierLines(markdownText);
    var classified := ClassifyAll(stripped);
    LineBlocksOnePerLine(stripped, classified, 0);
    forall k | 0 <= k < |MarkdownBlocks(markdownText)|
      ensures MarkdownBlocks(markdownText)[k].kind != Divider
    {
      var j := NonBlankIndices(stripped, 0)[k];
      assert MarkdownBlocks(markdownText)[k] == ClassifyLine(stripped[j]);
      ClassifyLineKinds(stripped[j]);
    }
  }

  /** The body of `_markdown_to_notion_blocks`'s loop for one stripped,
      non-blank line: the `if`/`elif` chain that picks the block. */
  method LineToBlock(stripped: string) returns (block: Block)
    ensures block == ClassifyLine(stripped)
  {
    if StartsWith(stripped, "# ") {
      block := PlainBlock(Heading2, Take(Strip(stripped[2..]), MaxText));
    } else if StartsWith(stripped, "## ") {
      block := PlainBlock(Heading3, Take(Strip(stripped[3..]), MaxText));
    } else if WholeBold(stripped) {
      block := PlainBlock(Heading3, Take(BoldHeadingText(stripped), MaxText));
    } else if StartsWith(stripped, "- ") || StartsWith(stripped, "* ") {
      var runs := ParseRichText(Strip(stripped[2..]));
      block := Block(BulletedListItem, runs);
    } else {
      var runs := ParseRichText(stripped);
      block := Block(Paragraph, runs);
    }
  }

  /** `_markdown_to_notion_blocks`: a loop over the lines that skips blank
      ones and appends one block per other line. */
  method MarkdownToBlocks(markdownText: string) returns (blocks: seq<Block>)
    ensures blocks == MarkdownBlocks(markdownText)
  {
    var lines := Split(markdownText, '\n');
    ghost var all := StripAll(lines);
    ghost var classified := ClassifyAll(all);
    blocks := [];
    for i := 0 to |lines|
      invariant blocks + LineBlocksFrom(all, classified, i) == LineBlocksFrom(all, classified, 0)
    {
      var stripped := Strip(lines[i]);
      assert stripped == all[i];
      if stripped != [] {
        var block := LineToBlock(stripped);
        assert LineBlocksFrom(all, classified, i) == [block] + LineBlocksFrom(all, classified, i + 1);
        AppendAssoc(blocks, [block], LineBlocksFrom(all, classified, i + 1));
        blocks := blocks + [block];
      } else {
        assert LineBlocksFrom(all, classified, i) == LineBlocksFrom(all, classified, i + 1);
      }
    }
  }
}
