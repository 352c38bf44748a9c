/**
 The block-wise SRT translator of translate_srt.py: blocks are read from the text of a file, their texts
 translated or emptied, and the blocks written back. The translation is an arbitrary function.
 */
module TranslateSrt {
  import opened Text
  import opened Sequences

  datatype Block = Block(index: string, time: string, text: string)

  // ----- Reading and writing -----

  /** `re.split("\n\n", s)`. */
  function Paragraphs(s: string): (r: seq<string>)
    ensures r != []
  {
    if |s| < 2 then [s]
    else if s[0] == '\n' && s[1] == '\n' then [""] + Paragraphs(s[2..])
    else
      var r := Paragraphs(s[1..]);
      [[s[0]] + r[0]] + r[1..]
  }

  /** `s.split("\n")`. */
  function Lines(s: string): (r: seq<string>)
    ensures r != []
  {
    if s == "" then [""]
    else if s[0] == '\n' then [""] + Lines(s[1..])
    else
      var r := Lines(s[1..]);
      [[s[0]] + r[0]] + r[1..]
  }

  function Join(parts: seq<string>, sep: string): string {
    if parts == [] then "" else if |parts| == 1 then parts[0] else parts[0] + sep + Join(parts[1..], sep)
  }

  function DropBlankFront(lines: seq<string>): (r: seq<string>)
    ensures |r| <= |lines| && lines[|lines| - |r|..] == r && (r != [] ==> !Blank(r[0]))
  {
    if lines != [] && Blank(lines[0]) then DropBlankFront(lines[1..]) else lines
  }

  function DropBlankBack(lines: seq<string>): (r: seq<string>)
    ensures |r| <= |lines| && lines[..|r|] == r && (r != [] ==> !Blank(r[|r| - 1]))
  {
    if lines != [] && Blank(lines[|lines| - 1]) then DropBlankBack(lines[..|lines| - 1]) else lines
  }

  function Trimmed(lines: seq<string>): seq<string> {
    DropBlankBack(DropBlankFront(lines))
  }

  function FromLines(lines: seq<string>): Block
    requires |lines| >= 2
  {
    Block(lines[0], lines[1], Join(lines[2..], "\n"))
  }

  function Parsed(paragraph: string): Option<Block> {
    var lines := Trimmed(Lines(paragraph));
    if |lines| >= 2 then Some(FromLines(lines)) else None
  }

  function AsList(b: Option<Block>): seq<Block> {
    if b.Some? then [b.value] else []
  }

  function Kept(paragraphs: seq<string>): seq<Block> {
    if paragraphs == [] then []
    else Kept(paragraphs[..|paragraphs| - 1]) + AsList(Parsed(paragraphs[|paragraphs| - 1]))
  }

  lemma KeptOne(paragraphs: seq<string>, k: nat, b: Option<Block>)
    requires k < |paragraphs| && b == Parsed(paragraphs[k])
    ensures Kept(paragraphs[..k + 1]) == Kept(paragraphs[..k]) + AsList(b)
  {
    assert paragraphs[..k + 1][..k] == paragraphs[..k];
  }

  function ReadAll(content: string): seq<Block> {
    Kept(Paragraphs(RStrip(LStrip(content))))
  }

  /** `s.rstrip("\n")`. */
  function ChopNewlines(s: string): (r: string)
    ensures |r| <= |s| && s[..|r|] == r && (r != "" ==> r[|r| - 1] != '\n')
  {
    if s != "" && s[|s| - 1] == '\n' then ChopNewlines(s[..|s| - 1]) else s
  }

  function Written(b: Block): string {
    ChopNewlines(b.index + "\n" + b.time + "\n" + b.text)
  }

  function WrittenAll(blocks: seq<Block>): (r: seq<string>)
    ensures |r| == |blocks| && forall i :: 0 <= i < |r| ==> r[i] == Written(blocks[i])
  {
    if blocks == [] then [] else WrittenAll(blocks[..|blocks| - 1]) + [Written(blocks[|blocks| - 1])]
  }

  function FileOf(blocks: seq<Block>): string {
    Join(WrittenAll(blocks), "\n\n") + "\n"
  }

  /** The file is its blocks, one empty line between them and a line break at the end. */
  lemma FileIs(blocks: seq<Block>)
    requires blocks != []
    ensures FileOf(blocks) == Written(blocks[0]) + if |blocks| == 1 then "\n" else "\n\n" + FileOf(blocks[1..])
  {
    WrittenFrom(blocks);
    var rest := WrittenAll(blocks[1..]);
    assert ([Written(blocks[0])] + rest)[1..] == rest;
  }

  lemma {:induction false} WrittenFrom(blocks: seq<Block>)
    requires blocks != []
    ensures WrittenAll(blocks) == [Written(blocks[0])] + WrittenAll(blocks[1..])
  {
    var n := |blocks| - 1;
    if n > 0 {
      WrittenFrom(blocks[..n]);
      assert blocks[..n][1..] == blocks[1..][..n - 1] && blocks[1..][n - 1] == blocks[n];
    }
  }

  /** A block is its index, its time and its text, a line break after each but the last; an empty text leaves two lines. */
  lemma WrittenIs(b: Block)
    ensures b.text != "" && b.text[|b.text| - 1] != '\n' ==> Written(b) == b.index + "\n" + b.time + "\n" + b.text
    ensures b.text == "" && b.time != "" && b.time[|b.time| - 1] != '\n' ==> Written(b) == b.index + "\n" + b.time
  {
    var s := b.index + "\n" + b.time + "\n" + b.text;
    if b.text == "" && b.time != "" && b.time[|b.time| - 1] != '\n' {
      var front := b.index + "\n" + b.time;
      assert s == front + "\n" && s[..|s| - 1] == front;
      assert front[|front| - 1] == b.time[|b.time| - 1];
      assert ChopNewlines(front) == front;
    } else if b.text != "" {
      assert s[|s| - 1] == b.text[|b.text| - 1];
    }
  }

  // ----- Cuts -----

  /** A marker that is given and stands in the text. */
  predicate Marks(marker: string, text: string) {
    marker != "" && exists p :: 0 <= p <= |text| - |marker| && Occurs(text, marker, p)
  }

  /** Block `i` stands no later than the first block with the intro marker. */
  ghost predicate InIntro(blocks: seq<Block>, intro: string, i: nat) {
    (exists j :: 0 <= j < |blocks| && Marks(intro, blocks[j].text))
    && forall j :: 0 <= j < i && j < |blocks| ==> !Marks(intro, blocks[j].text)
  }

  /** Block `i` stands no earlier than the last block with the outro marker. */
  ghost predicate InOutro(blocks: seq<Block>, outro: string, i: nat) {
    (exists j :: 0 <= j < |blocks| && Marks(outro, blocks[j].text))
    && forall j :: i < j < |blocks| ==> !Marks(outro, blocks[j].text)
  }

  /** What is written for block `i`: its index and time, and its translation or nothing. */
  ghost function Rendered(blocks: seq<Block>, i: nat, intro: string, outro: string, translate: string -> string): Block
    requires i < |blocks|
  {
    blocks[i].(text := if InIntro(blocks, intro, i) || InOutro(blocks, outro, i) then ""
                       else translate(blocks[i].text))
  }

  /** The first `k` blocks as they are written. */
  ghost function Translation(blocks: seq<Block>, k: nat, intro: string, outro: string, translate: string -> string)
    : (r: seq<Block>)
    requires k <= |blocks|
    ensures |r| == k && forall i :: 0 <= i < k ==> r[i] == Rendered(blocks, i, intro, outro, translate)
  {
    if k == 0 then []
    else Translation(blocks, k - 1, intro, outro, translate) + [Rendered(blocks, k - 1, intro, outro, translate)]
  }

  // ----- The program -----

  method TrimLines(all: seq<string>) returns (lines: seq<string>)
    ensures lines == Trimmed(all)
  {
    lines := all;
    while lines != [] && Blank(lines[0])
      invariant DropBlankFront(lines) == DropBlankFront(all)
      decreases |lines|
    {
      lines := lines[1..];
    }
    while lines != [] && Blank(lines[|lines| - 1])
      invariant DropBlankBack(lines) == DropBlankBack(DropBlankFront(all))
      decreases |lines|
    {
      lines := lines[..|lines| - 1];
    }
  }

  method ParseParagraph(paragraph: string) returns (block: Option<Block>)
    ensures block == Parsed(paragraph)
  {
    var lines := TrimLines(Lines(paragraph));
    if |lines| >= 2 {
      block := Some(Block(lines[0], lines[1], Join(lines[2..], "\n")));
    } else {
      block := None;
    }
  }

  method KeepBlocks(raw: seq<string>) returns (blocks: seq<Block>)
    ensures blocks == Kept(raw)
  {
    blocks := [];
    for k := 0 to |raw|
      invariant blocks == Kept(raw[..k])
    {
      var b := ParseParagraph(raw[k]);
      KeptOne(raw, k, b);
      if b.Some? {
        blocks := blocks + [b.value];
      }
    }
    assert raw[..|raw|] == raw;
  }

  method ReadBlocks(content: string) returns (blocks: seq<Block>)
    ensures blocks == ReadAll(content)
  {
    var raw := Paragraphs(RStrip(LStrip(content)));
    blocks := KeepBlocks(raw);
  }

  /** The scan for the first intro and the last outro. */
  method FindCuts(blocks: seq<Block>, intro: string, outro: string) returns (start: int, end: int)
    ensures forall i :: 0 <= i < |blocks| ==> (InIntro(blocks, intro, i) <==> i <= start)
    ensures forall i :: 0 <= i < |blocks| ==> (InOutro(blocks, outro, i) <==> 0 <= end <= i)
  {
    start, end := -1, -1;
    for k := 0 to |blocks|
      invariant -1 <= start < k && -1 <= end < k
      invariant start >= 0 ==> Marks(intro, blocks[start].text)
      invariant forall j :: 0 <= j < k && (start == -1 || j < start) ==> !Marks(intro, blocks[j].text)
      invariant end >= 0 ==> Marks(outro, blocks[end].text)
      invariant forall j :: end < j < k ==> !Marks(outro, blocks[j].text)
    {
      if start == -1 && Marks(intro, blocks[k].text) {
        start := k;
      }
      if Marks(outro, blocks[k].text) {
        end := k;
      }
    }
  }

  method RenderBlock(blocks: seq<Block>, i: nat, ghost intro: string, ghost outro: string, start: int, end: int,
                     translate: string -> string) returns (b: Block)
    requires i < |blocks|
    requires InIntro(blocks, intro, i) <==> i <= start
    requires InOutro(blocks, outro, i) <==> 0 <= end <= i
    ensures b == Rendered(blocks, i, intro, outro, translate)
  {
    var text := "";
    if !(start >= 0 && i <= start) && !(end >= 0 && i >= end) {
      text := translate(blocks[i].text);
    }
    b := blocks[i].(text := text);
  }

  lemma WrittenGrows(blocks: seq<Block>, k: nat, intro: string, outro: string, translate: string -> string)
    requires k < |blocks|
    ensures WrittenAll(Translation(blocks, k + 1, intro, outro, translate))
            == WrittenAll(Translation(blocks, k, intro, outro, translate))
               + [Written(Rendered(blocks, k, intro, outro, translate))]
  {
    var before := Translation(blocks, k, intro, outro, translate);
    assert (before + [Rendered(blocks, k, intro, outro, translate)])[..k] == before;
  }

  method WriteBlocks(blocks: seq<Block>, ghost intro: string, ghost outro: string, start: int, end: int,
                     translate: string -> string) returns (written: seq<string>)
    requires forall i :: 0 <= i < |blocks| ==> (InIntro(blocks, intro, i) <==> i <= start)
    requires forall i :: 0 <= i < |blocks| ==> (InOutro(blocks, outro, i) <==> 0 <= end <= i)
    ensures written == WrittenAll(Translation(blocks, |blocks|, intro, outro, translate))
  {
    written := [];
    for i := 0 to |blocks|
      invariant written == WrittenAll(Translation(blocks, i, intro, outro, translate))
    {
      var b := RenderBlock(blocks, i, intro, outro, start, end, translate);
      WrittenGrows(blocks, i, intro, outro, translate);
      written := written + [Written(b)];
    }
  }

  /** What `translate_srt_file` means to write. */
  ghost function Meant(content: string, intro: string, outro: string, translate: string -> string): (r: seq<Block>)
    ensures |r| == |ReadAll(content)|
    ensures forall i :: 0 <= i < |r| ==> r[i] == Rendered(ReadAll(content), i, intro, outro, translate)
  {
    Translation(ReadAll(content), |ReadAll(content)|, intro, outro, translate)
  }

  /** Block `j` is the first with the marker, or the last. */
  ghost predicate FirstMark(blocks: seq<Block>, marker: string, j: nat) {
    j < |blocks| && Marks(marker, blocks[j].text) && forall k :: 0 <= k < j ==> !Marks(marker, blocks[k].text)
  }

  ghost predicate LastMark(blocks: seq<Block>, marker: string, j: nat) {
    j < |blocks| && Marks(marker, blocks[j].text) && forall k :: j < k < |blocks| ==> !Marks(marker, blocks[k].text)
  }

  lemma FirstMarkExists(blocks: seq<Block>, marker: string, n: nat) returns (j: nat)
    requires n < |blocks| && Marks(marker, blocks[n].text)
    ensures FirstMark(blocks, marker, j)
  {
    if k: nat :| k < n && Marks(marker, blocks[k].text) {
      j := FirstMarkExists(blocks, marker, k);
    } else {
      j := n;
    }
  }

  lemma LastMarkExists(blocks: seq<Block>, marker: string, n: nat) returns (j: nat)
    requires n < |blocks| && Marks(marker, blocks[n].text)
    ensures LastMark(blocks, marker, j)
    decreases |blocks| - n
  {
    if k: nat :| n < k < |blocks| && Marks(marker, blocks[k].text) {
      j := LastMarkExists(blocks, marker, k);
    } else {
      j := n;
    }
  }

  /**
   What is written for each block: its index and time as they are, and no text up to the first block with the intro
   marker and from the last one with the outro marker on; its translation otherwise.
   */
  lemma MeantIs(content: string, intro: string, outro: string, translate: string -> string, i: nat)
    requires i < |ReadAll(content)|
    ensures var blocks, r := ReadAll(content), Meant(content, intro, outro, translate);
            && |r| == |blocks| && r[i].index == blocks[i].index && r[i].time == blocks[i].time
            && r[i].text == if (exists j: nat :: FirstMark(blocks, intro, j) && i <= j)
                               || (exists j: nat :: LastMark(blocks, outro, j) && j <= i)
                            then "" else translate(blocks[i].text)
  {
    IntroIs(ReadAll(content), intro, i);
    OutroIs(ReadAll(content), outro, i);
  }

  lemma IntroIs(blocks: seq<Block>, intro: string, i: nat)
    requires i < |blocks|
    ensures InIntro(blocks, intro, i) <==> exists j: nat :: FirstMark(blocks, intro, j) && i <= j
  {
    if InIntro(blocks, intro, i) {
      var n :| 0 <= n < |blocks| && Marks(intro, blocks[n].text);
      var j := FirstMarkExists(blocks, intro, n);
    }
  }

  lemma OutroIs(blocks: seq<Block>, outro: string, i: nat)
    requires i < |blocks|
    ensures InOutro(blocks, outro, i) <==> exists j: nat :: LastMark(blocks, outro, j) && j <= i
  {
    if InOutro(blocks, outro, i) {
      var n :| 0 <= n < |blocks| && Marks(outro, blocks[n].text);
      var j := LastMarkExists(blocks, outro, n);
    }
  }

  /** `translate_srt_file`. */
  method TranslateFile(content: string, intro: string, outro: string, translate: string -> string)
    returns (output: string)
    ensures output == FileOf(Meant(content, intro, outro, translate))
  {
    var blocks := ReadBlocks(content);
    var start, end := FindCuts(blocks, intro, outro);
    var written := WriteBlocks(blocks, intro, outro, start, end, translate);
    output := Join(written, "\n\n") + "\n";
  }

  // ----- What a read block looks like -----

  predicate NoNewline(s: string) {
    forall i :: 0 <= i < |s| ==> s[i] != '\n'
  }

  /** No empty line inside: no two newlines in a row. */
  predicate NoDouble(s: string) {
    forall i, j :: 0 <= i < |s| - 1 && j == i + 1 ==> !(s[i] == '\n' && s[j] == '\n')
  }

  predicate NoneEmpty(lines: seq<string>) {
    forall i :: 0 <= i < |lines| ==> lines[i] != "" && NoNewline(lines[i])
  }

  /** Every line is non-empty, the first and the last are not blank, and there are at least two. */
  predicate CleanLines(lines: seq<string>) {
    |lines| >= 2 && NoneEmpty(lines) && !Blank(lines[0]) && !Blank(lines[|lines| - 1])
  }

  /** The lines of a block. */
  function LinesOf(b: Block): (r: seq<string>)
    ensures |r| >= 2
  {
    [b.index, b.time] + if b.text == "" then [] else Lines(b.text)
  }

  ghost predicate CleanBlock(b: Block) {
    CleanLines(LinesOf(b))
  }

  lemma {:induction false} LinesHaveNoNewline(s: string)
    ensures forall i :: 0 <= i < |Lines(s)| ==> NoNewline(Lines(s)[i])
  {
    if s != "" { LinesHaveNoNewline(s[1..]); }
  }

  lemma JoinNewLine(lines: seq<string>)
    requires lines != []
    ensures Join([""] + lines, "\n") == "\n" + Join(lines, "\n")
  {
    assert ([""] + lines)[1..] == lines;
  }

  lemma JoinLongerFirst(c: char, lines: seq<string>)
    requires lines != []
    ensures Join([[c] + lines[0]] + lines[1..], "\n") == [c] + Join(lines, "\n")
  {
    assert ([[c] + lines[0]] + lines[1..])[1..] == lines[1..];
  }

  lemma {:induction false} JoinLines(s: string)
    ensures Join(Lines(s), "\n") == s
  {
    if s != "" {
      JoinLines(s[1..]);
      if s[0] == '\n' {
        JoinNewLine(Lines(s[1..]));
      } else {
        JoinLongerFirst(s[0], Lines(s[1..]));
      }
      assert [s[0]] + s[1..] == s;
    }
  }

  lemma {:induction false} LinesOfLine(a: string, rest: string)
    requires NoNewline(a)
    ensures Lines(a) == [a] && Lines(a + "\n" + rest) == [a] + Lines(rest)
  {
    if a == "" {
      assert a + "\n" + rest == "\n" + rest;
      assert ("\n" + rest)[1..] == rest;
    } else {
      LinesOfLine(a[1..], rest);
      assert (a + "\n" + rest)[1..] == a[1..] + "\n" + rest;
      assert [a[0]] + a[1..] == a;
    }
  }

  lemma {:induction false} LinesOfJoin(lines: seq<string>)
    requires lines != [] && forall i :: 0 <= i < |lines| ==> NoNewline(lines[i])
    ensures Lines(Join(lines, "\n")) == lines
  {
    if |lines| == 1 {
      LinesOfLine(lines[0], "");
    } else {
      LinesOfJoin(lines[1..]);
      LinesOfLine(lines[0], Join(lines[1..], "\n"));
      assert [lines[0]] + lines[1..] == lines;
    }
  }

  lemma DropNothing(lines: seq<string>)
    requires CleanLines(lines)
    ensures DropBlankBack(DropBlankFront(lines)) == lines
  {
  }

  /** Empty lines can only be the first and the last of a paragraph. */
  lemma {:induction false} InnerLinesNotEmpty(s: string)
    requires NoDouble(s)
    ensures forall i :: 0 < i < |Lines(s)| - 1 ==> Lines(s)[i] != ""
    ensures |Lines(s)| > 1 && Lines(s)[0] == "" ==> s != "" && s[0] == '\n'
  {
    if s != "" {
      assert NoDouble(s[1..]);
      InnerLinesNotEmpty(s[1..]);
      assert s[0] == '\n' ==> Lines(s) == [""] + Lines(s[1..]);
      assert s[0] == '\n' && |s| > 1 ==> s[1] != '\n';
    }
  }

  /** A stretch of lines of which only the first and the last of all may be empty, trimmed to non-blank ends. */
  lemma TrimmedLine(all: seq<string>, from: nat, lines: seq<string>, i: nat)
    requires from + |lines| <= |all| && lines == all[from..from + |lines|] && i < |lines|
    requires !Blank(lines[0]) && !Blank(lines[|lines| - 1])
    requires 0 < from + i < |all| - 1 ==> all[from + i] != ""
    ensures lines[i] != ""
  {
    assert lines[i] == all[from + i];
    if i == 0 || i == |lines| - 1 {
      assert Blank("");
    }
  }

  lemma TrimmedLinesAreClean(all: seq<string>, from: nat, lines: seq<string>)
    requires from + |lines| <= |all| && lines == all[from..from + |lines|] && |lines| >= 2
    requires !Blank(lines[0]) && !Blank(lines[|lines| - 1])
    requires forall i :: 0 <= i < |all| ==> NoNewline(all[i])
    requires forall i :: 0 < i < |all| - 1 ==> all[i] != ""
    ensures CleanLines(lines)
  {
    forall i | 0 <= i < |lines|
      ensures lines[i] != "" && NoNewline(lines[i])
    {
      TrimmedLine(all, from, lines, i);
      assert lines[i] == all[from + i];
    }
  }

  lemma ParsedIsClean(paragraph: string)
    requires NoDouble(paragraph) && Parsed(paragraph).Some?
    ensures CleanBlock(Parsed(paragraph).value)
  {
    var all := Lines(paragraph);
    LinesHaveNoNewline(paragraph);
    InnerLinesNotEmpty(paragraph);
    TrimmedAreClean(all);
    FromLinesBack(Trimmed(all));
  }

  lemma TrimmedAreClean(all: seq<string>)
    requires forall i :: 0 <= i < |all| ==> NoNewline(all[i])
    requires forall i :: 0 < i < |all| - 1 ==> all[i] != ""
    requires |Trimmed(all)| >= 2
    ensures CleanLines(Trimmed(all))
  {
    var from := |all| - |DropBlankFront(all)|;
    assert Trimmed(all) == all[from..from + |Trimmed(all)|] by {
      TrimmedIsStretch(all, DropBlankFront(all), Trimmed(all));
    }
    TrimmedLinesAreClean(all, from, Trimmed(all));
  }

  lemma TrimmedIsStretch(all: seq<string>, front: seq<string>, lines: seq<string>)
    requires |lines| <= |front| <= |all| && all[|all| - |front|..] == front && front[..|lines|] == lines
    ensures lines == all[|all| - |front|..|all| - |front| + |lines|]
  {
  }

  lemma {:induction false} ParagraphsHaveNoDouble(s: string)
    ensures forall i :: 0 <= i < |Paragraphs(s)| ==> NoDouble(Paragraphs(s)[i])
    ensures s == "" || s[0] != '\n' || Paragraphs(s)[0] == "" || Paragraphs(s)[0][0] == '\n'
    ensures Paragraphs(s)[0] != "" ==> s != "" && Paragraphs(s)[0][0] == s[0]
    decreases |s|
  {
    if |s| >= 2 {
      if s[0] == '\n' && s[1] == '\n' {
        ParagraphsHaveNoDouble(s[2..]);
      } else {
        ParagraphsHaveNoDouble(s[1..]);
        var r := Paragraphs(s[1..]);
        var first := [s[0]] + r[0];
        forall i, j | 0 <= i < |first| - 1 && j == i + 1
          ensures !(first[i] == '\n' && first[j] == '\n')
        {
          if i > 0 {
            assert first[i] == r[0][i - 1] && first[j] == r[0][j - 1];
          } else {
            assert first[1] == r[0][0];
          }
        }
      }
    }
  }

  ghost predicate AllClean(blocks: seq<Block>) {
    forall k :: 0 <= k < |blocks| ==> CleanBlock(blocks[k])
  }

  lemma {:induction false} KeptOrigin(paragraphs: seq<string>, k: nat) returns (i: nat)
    requires k < |Kept(paragraphs)|
    ensures i < |paragraphs| && Parsed(paragraphs[i]) == Some(Kept(paragraphs)[k])
  {
    var n := |paragraphs| - 1;
    if k < |Kept(paragraphs[..n])| {
      i := KeptOrigin(paragraphs[..n], k);
    } else {
      i := n;
    }
  }

  /** Every block that is read, from whatever file, is clean. */
  lemma ReadBlocksAreClean(content: string)
    ensures AllClean(ReadAll(content))
  {
    var paragraphs := Paragraphs(RStrip(LStrip(content)));
    forall k | 0 <= k < |ReadAll(content)|
      ensures CleanBlock(ReadAll(content)[k])
    {
      var i := KeptOrigin(paragraphs, k);
      ParagraphsHaveNoDouble(RStrip(LStrip(content)));
      ParsedIsClean(paragraphs[i]);
    }
  }

  // ----- What is read back from a written file -----

  lemma {:induction false} JoinAppend(parts: seq<string>, last: string, sep: string)
    requires parts != []
    ensures Join(parts + [last], sep) == Join(parts, sep) + sep + last
  {
    var all := parts + [last];
    assert all[1..] == parts[1..] + [last];
    if |parts| == 1 {
      assert all[1..] == [last];
    } else {
      JoinAppend(parts[1..], last, sep);
    }
  }

  /** Lines that are not empty join to a paragraph without empty lines. */
  lemma {:induction false} JoinedIsParagraph(lines: seq<string>)
    requires lines != [] && NoneEmpty(lines)
    ensures var s := Join(lines, "\n"); s != "" && s[0] == lines[0][0] && s[|s| - 1] != '\n' && NoDouble(s)
  {
    var s := Join(lines, "\n");
    if |lines| > 1 {
      JoinedIsParagraph(lines[1..]);
      var rest := Join(lines[1..], "\n");
      assert s == lines[0] + "\n" + rest;
      var n := |lines[0]|;
      assert s[n] == '\n' && s[n + 1..] == rest && s[..n] == lines[0];
      forall i, j | 0 <= i < |s| - 1 && j == i + 1
        ensures !(s[i] == '\n' && s[j] == '\n')
      {
        if i < n {
          assert s[i] == lines[0][i];
        } else if i == n {
          assert s[j] == rest[0] && rest[0] == lines[1][0];
        } else {
          assert s[i] == rest[i - n - 1] && s[j] == rest[j - n - 1];
        }
      }
    }
  }

  lemma ChopNothing(s: string)
    requires s == "" || s[|s| - 1] != '\n'
    ensures ChopNewlines(s) == s && ChopNewlines(s + "\n") == s
  {
    assert (s + "\n")[..|s|] == s;
  }

  lemma JoinThree(a: string, b: string, rest: seq<string>)
    ensures Join([a, b], "\n") == a + "\n" + b
    ensures rest != [] ==> Join([a, b] + rest, "\n") == a + "\n" + b + "\n" + Join(rest, "\n")
  {
    assert [a, b][1..] == [b];
    assert ([a, b] + rest)[1..] == [b] + rest;
    assert ([b] + rest)[1..] == rest;
  }

  /** A clean block is written as its lines. */
  lemma WrittenIsJoined(b: Block)
    requires CleanBlock(b)
    ensures Written(b) == Join(LinesOf(b), "\n")
  {
    var lines := LinesOf(b);
    JoinedIsParagraph(lines);
    JoinThree(b.index, b.time, Lines(b.text));
    ChopNothing(Join(lines, "\n"));
    if b.text == "" {
      assert lines == [b.index, b.time];
      assert b.index + "\n" + b.time + "\n" + b.text == Join(lines, "\n") + "\n";
    } else {
      JoinLines(b.text);
    }
  }

  lemma {:induction false} ParagraphsStep(a: string, rest: string)
    requires NoDouble(a) && (a != "" ==> a[|a| - 1] != '\n')
    ensures Paragraphs(a) == [a] && Paragraphs(a + "\n\n" + rest) == [a] + Paragraphs(rest)
    decreases |a|
  {
    var s := a + "\n\n" + rest;
    if a == "" {
      assert s[2..] == rest;
    } else {
      ParagraphsStep(a[1..], rest);
      assert s[1..] == a[1..] + "\n\n" + rest;
      assert |a| > 1 ==> !(a[0] == '\n' && a[1] == '\n');
      assert [a[0]] + a[1..] == a;
    }
  }

  predicate IsParagraph(s: string) {
    s != "" && s[|s| - 1] != '\n' && NoDouble(s)
  }

  lemma {:induction false} ParagraphsOfJoin(parts: seq<string>)
    requires parts != [] && forall i :: 0 <= i < |parts| ==> IsParagraph(parts[i])
    ensures Paragraphs(Join(parts, "\n\n")) == parts
  {
    if |parts| == 1 {
      ParagraphsStep(parts[0], "");
    } else {
      ParagraphsOfJoin(parts[1..]);
      ParagraphsStep(parts[0], Join(parts[1..], "\n\n"));
    }
  }

  ghost predicate ReadsBack(blocks: seq<Block>) {
    forall k :: 0 <= k < |blocks| ==> Parsed(Written(blocks[k])) == Some(blocks[k])
  }

  lemma {:induction false} KeptBack(blocks: seq<Block>)
    requires ReadsBack(blocks)
    ensures Kept(WrittenAll(blocks)) == blocks
  {
    if blocks != [] {
      var n := |blocks| - 1;
      KeptBack(blocks[..n]);
      KeptLast(WrittenAll(blocks[..n]), Written(blocks[n]), blocks[n]);
      WrittenLast(blocks);
      AppendLast([], blocks);
    }
  }

  lemma WrittenLast(blocks: seq<Block>)
    requires blocks != []
    ensures WrittenAll(blocks) == WrittenAll(blocks[..|blocks| - 1]) + [Written(blocks[|blocks| - 1])]
  {
  }

  lemma ParsedWritten(b: Block)
    requires CleanBlock(b)
    ensures Parsed(Written(b)) == Some(b)
  {
    var lines := LinesOf(b);
    WrittenIsJoined(b);
    LinesOfJoin(lines);
    DropNothing(lines);
    OfLines(b);
  }

  lemma KeptLast(paragraphs: seq<string>, last: string, b: Block)
    requires Parsed(last) == Some(b)
    ensures Kept(paragraphs + [last]) == Kept(paragraphs) + [b]
  {
    assert (paragraphs + [last])[..|paragraphs|] == paragraphs;
  }

  /** Without the outer white space, clean blocks are read back as they are. */
  lemma JoinedReadsBack(blocks: seq<Block>)
    requires AllClean(blocks) && blocks != []
    ensures Kept(Paragraphs(Join(WrittenAll(blocks), "\n\n"))) == blocks
  {
    var parts := WrittenAll(blocks);
    forall i | 0 <= i < |parts|
      ensures IsParagraph(parts[i])
    {
      WrittenIsJoined(blocks[i]);
      JoinedIsParagraph(LinesOf(blocks[i]));
    }
    ParagraphsOfJoin(parts);
    forall k | 0 <= k < |blocks|
      ensures Parsed(Written(blocks[k])) == Some(blocks[k])
    {
      ParsedWritten(blocks[k]);
    }
    KeptBack(blocks);
  }

  // ----- The outer white space -----

  lemma {:induction false} StripFront(a: string, b: string)
    requires !Blank(a)
    ensures LStrip(a + b) == LStrip(a) + b && LStrip(a) != ""
  {
    if IsSpace(a[0]) {
      assert (a + b)[1..] == a[1..] + b;
      assert !Blank(a[1..]);
      StripFront(a[1..], b);
    }
  }

  lemma NotBlankBefore(s: string)
    requires !Blank(s) && IsSpace(s[|s| - 1])
    ensures !Blank(s[..|s| - 1])
  {
    var i :| 0 <= i < |s| && !IsSpace(s[i]);
    assert s[..|s| - 1][i] == s[i];
  }

  lemma {:induction false} StripBack(a: string, b: string)
    requires !Blank(b)
    ensures RStrip(a + b) == a + RStrip(b) && RStrip(b) != ""
  {
    AppendLast(a, b);
    if IsSpace(b[|b| - 1]) {
      NotBlankBefore(b);
      StripBack(a, b[..|b| - 1]);
    }
  }

  lemma FromLinesBack(lines: seq<string>)
    requires CleanLines(lines)
    ensures LinesOf(FromLines(lines)) == lines && CleanBlock(FromLines(lines))
  {
    if |lines| == 2 {
      assert lines[2..] == [];
    } else {
      LinesOfJoin(lines[2..]);
      JoinedIsParagraph(lines[2..]);
    }
  }

  lemma OfLines(b: Block)
    requires CleanBlock(b)
    ensures FromLines(LinesOf(b)) == b
  {
    JoinLines(b.text);
    if b.text != "" { assert LinesOf(b)[2..] == Lines(b.text); }
  }

  function FrontStripped(lines: seq<string>): seq<string>
    requires lines != []
  {
    lines[0 := LStrip(lines[0])]
  }

  function BackStripped(lines: seq<string>): seq<string>
    requires lines != []
  {
    lines[|lines| - 1 := RStrip(lines[|lines| - 1])]
  }

  lemma LStrippedLine(s: string)
    requires NoNewline(s) && !Blank(s)
    ensures NoNewline(LStrip(s)) && !Blank(LStrip(s)) && LStrip(s) != ""
  {
    StripFront(s, "");
    var l := LStrip(s);
    assert s[|s| - |l|..] == l;
    assert forall i :: 0 <= i < |l| ==> l[i] == s[|s| - |l| + i];
  }

  lemma RStrippedLine(s: string)
    requires NoNewline(s) && !Blank(s)
    ensures NoNewline(RStrip(s)) && !Blank(RStrip(s)) && RStrip(s) != ""
  {
    StripBack("", s);
    var r := RStrip(s);
    assert s[..|r|] == r;
    assert forall i :: 0 <= i < |r| ==> r[i] == s[i];
    assert !IsSpace(r[|r| - 1]);
  }

  lemma OneLineReplaced(lines: seq<string>, i: nat, line: string)
    requires CleanLines(lines) && i < |lines| && line != "" && NoNewline(line) && !Blank(line)
    ensures CleanLines(lines[i := line])
  {
  }

  lemma StrippedLinesAreClean(lines: seq<string>)
    requires CleanLines(lines)
    ensures CleanLines(FrontStripped(lines)) && CleanLines(BackStripped(lines))
  {
    var n := |lines| - 1;
    assert NoNewline(lines[0]) && NoNewline(lines[n]);
    LStrippedLine(lines[0]);
    RStrippedLine(lines[n]);
    OneLineReplaced(lines, 0, LStrip(lines[0]));
    OneLineReplaced(lines, n, RStrip(lines[n]));
  }

  lemma JoinFirst(lines: seq<string>, behind: string)
    requires |lines| >= 2
    ensures Join(lines, "\n") + behind == lines[0] + ("\n" + Join(lines[1..], "\n") + behind)
  {
  }

  /** Stripping the front of joined lines with anything behind them. */
  lemma JoinStripsFront(lines: seq<string>, behind: string)
    requires CleanLines(lines)
    ensures LStrip(Join(lines, "\n") + behind) == Join(FrontStripped(lines), "\n") + behind
  {
    assert FrontStripped(lines)[1..] == lines[1..];
    JoinFirst(lines, behind);
    JoinFirst(FrontStripped(lines), behind);
    StripFront(lines[0], "\n" + Join(lines[1..], "\n") + behind);
  }

  lemma NewlineStrips(s: string)
    requires !Blank(s)
    ensures RStrip(s + "\n") == RStrip(s) && !Blank(s + "\n")
  {
    assert (s + "\n")[..|s|] == s;
    assert IsSpace('\n');
    var i :| 0 <= i < |s| && !IsSpace(s[i]);
    assert (s + "\n")[i] == s[i];
  }

  lemma RegroupFive(a: string, b: string, c: string, d: string, e: string)
    ensures a + (b + c + d) + e == (a + b + c) + (d + e)
    ensures (a + b + c) + d == a + (b + c + d)
  {
  }

  /** Stripping the back of joined lines and a newline with anything before them. */
  lemma JoinStripsBack(before: string, lines: seq<string>)
    requires CleanLines(lines)
    ensures RStrip(before + Join(lines, "\n") + "\n") == before + Join(BackStripped(lines), "\n")
  {
    var n := |lines| - 1;
    var front, last := Join(lines[..n], "\n"), lines[n];
    assert Join(lines, "\n") == front + "\n" + last by {
      assert lines[..n] + [last] == lines;
      JoinAppend(lines[..n], last, "\n");
    }
    assert Join(BackStripped(lines), "\n") == front + "\n" + RStrip(last) by {
      assert BackStripped(lines) == lines[..n] + [RStrip(last)];
      JoinAppend(lines[..n], RStrip(last), "\n");
    }
    RegroupFive(before, front, "\n", last, "\n");
    RegroupFive(before, front, "\n", RStrip(last), "");
    NewlineStrips(last);
    StripBack(before + front + "\n", last + "\n");
  }

  // ----- The blocks at both ends -----

  /** White space gone from the front of the first line of the first block. */
  function FrontTrimmed(blocks: seq<Block>): seq<Block> {
    if blocks == [] then [] else blocks[0 := FromLines(FrontStripped(LinesOf(blocks[0])))]
  }

  /** White space gone from the end of the last line of the last block. */
  function BackTrimmed(blocks: seq<Block>): seq<Block> {
    if blocks == [] then []
    else blocks[|blocks| - 1 := FromLines(BackStripped(LinesOf(blocks[|blocks| - 1])))]
  }

  lemma JoinFrom(parts: seq<string>, sep: string)
    requires parts != []
    ensures Join(parts, sep) == parts[0] + if |parts| == 1 then "" else sep + Join(parts[1..], sep)
  {
  }

  lemma JoinReplaced(parts: seq<string>, first: string, sep: string) returns (rest: string)
    requires parts != []
    ensures Join(parts, sep) == parts[0] + rest && Join(parts[0 := first], sep) == first + rest
  {
    rest := if |parts| == 1 then "" else sep + Join(parts[1..], sep);
    JoinFrom(parts, sep);
    JoinFrom(parts[0 := first], sep);
    assert parts[0 := first][1..] == parts[1..];
  }

  lemma PartsStripFront(parts: seq<string>, lines: seq<string>)
    requires parts != [] && CleanLines(lines) && parts[0] == Join(lines, "\n")
    ensures LStrip(Join(parts, "\n\n") + "\n")
            == Join(parts[0 := Join(FrontStripped(lines), "\n")], "\n\n") + "\n"
  {
    var stripped := Join(FrontStripped(lines), "\n");
    var rest := JoinReplaced(parts, stripped, "\n\n");
    JoinStripsFront(lines, rest + "\n");
    Regroup(parts[0], rest, "\n");
    Regroup(stripped, rest, "\n");
  }

  lemma PartsStripBack(parts: seq<string>, lines: seq<string>)
    requires parts != [] && CleanLines(lines) && parts[|parts| - 1] == Join(lines, "\n")
    ensures RStrip(Join(parts, "\n\n") + "\n")
            == Join(parts[|parts| - 1 := Join(BackStripped(lines), "\n")], "\n\n")
  {
    var n := |parts| - 1;
    var before := if n == 0 then "" else Join(parts[..n], "\n\n") + "\n\n";
    JoinLast(parts[..n], parts[n], before);
    JoinLast(parts[..n], Join(BackStripped(lines), "\n"), before);
    assert parts == parts[..n] + [parts[n]];
    assert parts[n := Join(BackStripped(lines), "\n")] == parts[..n] + [Join(BackStripped(lines), "\n")];
    JoinStripsBack(before, lines);
  }

  lemma OneBlockReplaced(blocks: seq<Block>, i: nat, lines: seq<string>)
    requires AllClean(blocks) && i < |blocks| && CleanLines(lines)
    ensures AllClean(blocks[i := FromLines(lines)])
    ensures WrittenAll(blocks[i := FromLines(lines)]) == WrittenAll(blocks)[i := Join(lines, "\n")]
  {
    FromLinesBack(lines);
    WrittenIsJoined(FromLines(lines));
  }

  lemma FileStripsFront(blocks: seq<Block>)
    requires AllClean(blocks) && blocks != []
    ensures LStrip(FileOf(blocks)) == FileOf(FrontTrimmed(blocks)) && AllClean(FrontTrimmed(blocks))
  {
    var lines := LinesOf(blocks[0]);
    assert CleanBlock(blocks[0]);
    StrippedLinesAreClean(lines);
    WrittenIsJoined(blocks[0]);
    PartsStripFront(WrittenAll(blocks), lines);
    OneBlockReplaced(blocks, 0, FrontStripped(lines));
  }

  lemma FileStripsBack(blocks: seq<Block>)
    requires AllClean(blocks) && blocks != []
    ensures RStrip(FileOf(blocks)) == Join(WrittenAll(BackTrimmed(blocks)), "\n\n") && AllClean(BackTrimmed(blocks))
  {
    var n := |blocks| - 1;
    var lines := LinesOf(blocks[n]);
    assert CleanBlock(blocks[n]);
    StrippedLinesAreClean(lines);
    WrittenIsJoined(blocks[n]);
    PartsStripBack(WrittenAll(blocks), lines);
    OneBlockReplaced(blocks, n, BackStripped(lines));
  }

  lemma JoinLast(parts: seq<string>, last: string, before: string)
    requires before == if parts == [] then "" else Join(parts, "\n\n") + "\n\n"
    ensures Join(parts + [last], "\n\n") == before + last
  {
    if parts != [] { JoinAppend(parts, last, "\n\n"); }
  }

  /** A file of no blocks reads as none. */
  lemma NothingReadsBack()
    ensures ReadAll(FileOf([])) == []
  {
    assert FileOf([]) == "\n";
    assert LStrip("\n") == "" && RStrip("") == "" && Paragraphs("") == [""];
    assert Lines("") == [""] && Parsed("") == None;
    assert Kept([""]) == [];
  }

  /** The file neither begins nor ends in white space within its first and last line. */
  ghost predicate TightEnds(blocks: seq<Block>) {
    blocks != [] ==>
      var lines := LinesOf(blocks[|blocks| - 1]);
      LStrip(blocks[0].index) == blocks[0].index && RStrip(lines[|lines| - 1]) == lines[|lines| - 1]
  }

  /**
   The round trip: any blocks that are written are read back as they were exactly when all their lines
   are in order and there is no white space at the two ends.
   */
  lemma RereadIff(blocks: seq<Block>)
    ensures ReadAll(FileOf(blocks)) == blocks <==> AllClean(blocks) && TightEnds(blocks)
  {
    ReadBlocksAreClean(FileOf(blocks));
    if AllClean(blocks) {
      TrimmingNothingIff(blocks);
      if blocks == [] {
        NothingReadsBack();
      } else {
        FileStripsFront(blocks);
        FileStripsBack(FrontTrimmed(blocks));
        JoinedReadsBack(BackTrimmed(FrontTrimmed(blocks)));
      }
    }
  }

  /** A block is unchanged by other lines exactly when they are its own. */
  lemma SameLinesSameBlock(b: Block, lines: seq<string>)
    requires CleanBlock(b) && CleanLines(lines)
    ensures FromLines(lines) == b <==> lines == LinesOf(b)
  {
    FromLinesBack(lines);
    OfLines(b);
  }

  lemma UpdateNothingIff<T>(items: seq<T>, i: nat, item: T)
    requires i < |items|
    ensures items[i := item] == items <==> items[i] == item
  {
    assert items[i := item][i] == item;
  }

  lemma LineReplacedIff(b: Block, i: nat, line: string)
    requires CleanBlock(b) && i < |LinesOf(b)| && CleanLines(LinesOf(b)[i := line])
    ensures FromLines(LinesOf(b)[i := line]) == b <==> LinesOf(b)[i] == line
  {
    SameLinesSameBlock(b, LinesOf(b)[i := line]);
    UpdateNothingIff(LinesOf(b), i, line);
  }

  lemma FrontTrimmingNothingIff(blocks: seq<Block>)
    requires AllClean(blocks) && blocks != []
    ensures FrontTrimmed(blocks) == blocks <==> LStrip(blocks[0].index) == blocks[0].index
  {
    var b := blocks[0];
    assert CleanBlock(b) && LinesOf(b)[0] == b.index;
    StrippedLinesAreClean(LinesOf(b));
    LineReplacedIff(b, 0, LStrip(b.index));
    UpdateNothingIff(blocks, 0, FromLines(FrontStripped(LinesOf(b))));
  }

  lemma BackTrimmingNothingIff(blocks: seq<Block>)
    requires AllClean(blocks) && blocks != []
    ensures var lines := LinesOf(blocks[|blocks| - 1]);
            BackTrimmed(blocks) == blocks <==> RStrip(lines[|lines| - 1]) == lines[|lines| - 1]
  {
    var b := blocks[|blocks| - 1];
    assert CleanBlock(b);
    BackStrippedIff(b);
    UpdateNothingIff(blocks, |blocks| - 1, FromLines(BackStripped(LinesOf(b))));
  }

  lemma BackStrippedIff(b: Block)
    requires CleanBlock(b)
    ensures FromLines(BackStripped(LinesOf(b))) == b
            <==> RStrip(LinesOf(b)[|LinesOf(b)| - 1]) == LinesOf(b)[|LinesOf(b)| - 1]
  {
    var n := |LinesOf(b)| - 1;
    var last := RStrip(LinesOf(b)[n]);
    assert CleanLines(LinesOf(b)[n := last]) by { StrippedLinesAreClean(LinesOf(b)); }
    LineReplacedIff(b, n, last);
  }

  /** Trimming the back does not undo what trimming the front did: the first line is not the last. */
  lemma BackKeepsIndex(blocks: seq<Block>, index: string)
    requires blocks != [] && blocks[0].index == index
    ensures BackTrimmed(blocks) != [] && BackTrimmed(blocks)[0].index == index
  {
  }

  lemma FrontTrimmedIndex(blocks: seq<Block>)
    requires blocks != []
    ensures FrontTrimmed(blocks) != [] && FrontTrimmed(blocks)[0].index == LStrip(blocks[0].index)
  {
  }

  lemma TrimmingNothingIff(blocks: seq<Block>)
    requires AllClean(blocks)
    ensures BackTrimmed(FrontTrimmed(blocks)) == blocks <==> TightEnds(blocks)
  {
    if blocks != [] {
      FrontTrimmingNothingIff(blocks);
      if LStrip(blocks[0].index) == blocks[0].index {
        BackTrimmingNothingIff(blocks);
      } else {
        FrontTrimmedIndex(blocks);
        BackKeepsIndex(FrontTrimmed(blocks), LStrip(blocks[0].index));
      }
    }
  }

  // ----- Translations -----

  /** What the text of a written block may be: its lines not empty, the last one not blank. */
  ghost predicate FittingText(time: string, text: string) {
    if text == "" then !Blank(time)
    else NoneEmpty(Lines(text)) && !Blank(Lines(text)[|Lines(text)| - 1])
  }

  lemma CleanTextIff(b: Block, text: string)
    requires CleanBlock(b)
    ensures CleanBlock(b.(text := text)) <==> FittingText(b.time, text)
  {
    var c := b.(text := text);
    assert LinesOf(c)[0] == LinesOf(b)[0] && LinesOf(c)[1] == LinesOf(b)[1];
    if text != "" {
      assert LinesOf(c)[2..] == Lines(text);
    }
  }

  /**
   What the translator writes, read again with the same parser, is what it meant to write exactly when
   every text it put in fits, and the file has tight ends: an emptied block needs a time line that is not
   blank, and a translation no empty line, none at its front either, and a last line that is not blank.
   */
  lemma TranslationRereadIff(content: string, intro: string, outro: string, translate: string -> string)
    ensures var out := Meant(content, intro, outro, translate);
            ReadAll(FileOf(out)) == out
            <==> (forall i :: 0 <= i < |out| ==> FittingText(out[i].time, out[i].text)) && TightEnds(out)
  {
    var blocks, out := ReadAll(content), Meant(content, intro, outro, translate);
    RereadIff(out);
    forall i | 0 <= i < |out|
      ensures CleanBlock(out[i]) <==> FittingText(out[i].time, out[i].text)
    {
      assert out[i] == Rendered(blocks, i, intro, outro, translate);
      assert CleanBlock(blocks[i]) by { ReadBlocksAreClean(content); }
      CleanTextIff(blocks[i], out[i].text);
    }
  }
}
