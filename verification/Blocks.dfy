/**
 What the blocks of a Markdown document are, without saying how they are collected: its lines are laid out in
 paragraphs with blank lines between them, where a blank line inside a code fence does not count, and the blocks
 are the trimmed paragraphs.
 */
module Blocks {

  import opened Documents
  import opened Sequences
  import opened Text

  /** A fence line has three backticks or tildes behind its indentation. */
  lemma FenceLines(line: string)
    ensures IsFence(line) <==> exists n :: 0 <= n <= |line| && Blank(line[..n]) && ("```" <= line[n..] || "~~~" <= line[n..])
  {
    var n := TrimStartCuts(line);
    forall k | 0 <= k <= |line| && Blank(line[..k]) && ("```" <= line[k..] || "~~~" <= line[k..]) ensures k == n
    {
      assert line[k..][0] == line[k];
      assert n < |line| ==> TrimStart(line)[0] == line[n];
      CutIsUnique(line, k, n);
    }
  }

  lemma CutIsUnique(line: string, k: nat, n: nat)
    requires k <= |line| && n <= |line| && Blank(line[..k]) && Blank(line[..n])
    requires k < |line| ==> !IsSpace(line[k])
    requires n < |line| ==> !IsSpace(line[n])
    ensures k == n
  {
    BlankPrefix(line, n);
    BlankPrefix(line, k);
  }

  lemma BlankPrefix(line: string, n: nat)
    requires n <= |line| && Blank(line[..n])
    ensures forall i :: 0 <= i < n ==> IsSpace(line[i])
  {
    forall i | 0 <= i < n ensures IsSpace(line[i])
    {
      assert line[..n][i] == line[i];
    }
  }

  /** Whether the lines end inside a fence, when they start in one or not. */
  function InFence(lines: seq<string>, open: bool): bool
  {
    if lines == [] then open else InFence(lines[1..], if IsFence(lines[0]) then !open else open)
  }

  /** Every blank line of a paragraph stands inside a fence. */
  predicate Unbroken(lines: seq<string>, open: bool)
  {
    forall i :: 0 <= i < |lines| && Blank(lines[i]) ==> InFence(lines[..i], open)
  }

  datatype Piece = Gap(line: string) | Paragraph(lines: seq<string>)

  function LinesOf(layout: seq<Piece>): seq<string>
  {
    if layout == [] then []
    else (if layout[0].Gap? then [layout[0].line] else layout[0].lines) + LinesOf(layout[1..])
  }

  /** Gaps are blank; a paragraph is unbroken and not empty, and if anything follows it, it has closed its fences
      and what follows is a gap. */
  predicate IsLayout(layout: seq<Piece>)
  {
    layout == []
    || (IsLayout(layout[1..])
        && match layout[0]
           case Gap(line) => Blank(line)
           case Paragraph(lines) =>
             && lines != [] && Unbroken(lines, false)
             && (|layout| > 1 ==> layout[1].Gap? && !InFence(lines, false)))
  }

  function Paragraphs(layout: seq<Piece>): seq<string>
  {
    if layout == [] then []
    else (if layout[0].Gap? then [] else [Trim(Join(layout[0].lines, "\n"))]) + Paragraphs(layout[1..])
  }

  // ---------------------------------------------------------------- the blocks of a layout

  lemma {:induction false} UnbrokenTail(lines: seq<string>, open: bool)
    requires lines != []
    ensures var fence := if IsFence(lines[0]) then !open else open;
            Unbroken(lines, open) <==> (Blank(lines[0]) ==> open) && Unbroken(lines[1..], fence)
  {
    var fence := if IsFence(lines[0]) then !open else open;
    assert lines[..0] == [];
    forall i | 0 < i < |lines| ensures InFence(lines[..i], open) == InFence(lines[1..][..i - 1], fence)
    {
      assert lines[..i][1..] == lines[1..][..i - 1];
    }
    assert forall i :: 0 < i < |lines| ==> lines[i] == lines[1..][i - 1];
    if Unbroken(lines, open) {
      forall i | 0 <= i < |lines[1..]| && Blank(lines[1..][i]) ensures InFence(lines[1..][..i], fence)
      {
        assert Blank(lines[i + 1]);
      }
    }
  }

  lemma FenceLineIsNotBlank(line: string)
    ensures Blank(line) ==> !IsFence(line)
    ensures Trim(line) == "" <==> Blank(line)
  {
    TrimKeepsVisible(line);
    if IsFence(line) {
      FenceIsNotBlank(line);
    }
  }

  /** An unbroken stretch of lines joins the open block. */
  lemma {:induction false} StretchJoinsBlock(lines: seq<string>, rest: seq<string>, block: string, open: bool)
    requires Unbroken(lines, open)
    ensures BlocksOf(lines + rest, block, open) == BlocksOf(rest, AppendLines(block, lines), InFence(lines, open))
    decreases |lines|
  {
    hide Blank, IsFence, Trim;
    if lines == [] {
      assert [] + rest == rest;
    } else {
      assert (lines + rest)[1..] == lines[1..] + rest;
      FenceLineIsNotBlank(lines[0]);
      UnbrokenTail(lines, open);
      StretchJoinsBlock(lines[1..], rest, AppendLine(block, lines[0]), if IsFence(lines[0]) then !open else open);
    }
  }

  lemma {:induction false} AppendedIsJoined(block: string, lines: seq<string>)
    requires block != ""
    ensures AppendLines(block, lines) == if lines == [] then block else block + "\n" + Join(lines, "\n")
    decreases |lines|
  {
    if lines != [] {
      AppendedIsJoined(AppendLine(block, lines[0]), lines[1..]);
      if |lines| > 1 {
        assert block + "\n" + lines[0] + "\n" + Join(lines[1..], "\n")
            == block + "\n" + (lines[0] + "\n" + Join(lines[1..], "\n"));
      }
    }
  }

  /** A paragraph on its own, with its text. */
  lemma ParagraphText(lines: seq<string>)
    requires lines != [] && Unbroken(lines, false)
    ensures AppendLines("", lines) == Join(lines, "\n")
    ensures Trim(Join(lines, "\n")) != ""
  {
    FirstLineIsVisible(lines);
    hide IsFence, Trim, Unbroken, Blank, Visible;
    assert AppendLine("", lines[0]) == lines[0];
    AppendedIsJoined(lines[0], lines[1..]);
    var rest := if |lines| > 1 then "\n" + Join(lines[1..], "\n") else "";
    JoinStartsWithFirst(lines, rest);
    VisibleStart(lines[0], rest);
  }

  lemma FirstLineIsVisible(lines: seq<string>)
    requires lines != [] && Unbroken(lines, false)
    ensures !Blank(lines[0]) && lines[0] != ""
  {
    UnbrokenTail(lines, false);
  }

  lemma JoinStartsWithFirst(lines: seq<string>, rest: string)
    requires lines != [] && rest == if |lines| > 1 then "\n" + Join(lines[1..], "\n") else ""
    ensures Join(lines, "\n") == lines[0] + rest
    ensures |lines| > 1 ==> lines[0] + rest == lines[0] + "\n" + Join(lines[1..], "\n")
  {
  }

  lemma VisibleStart(line: string, rest: string)
    requires !Blank(line)
    ensures Trim(line + rest) != ""
  {
    hide Trim, Visible, Blank;
    TrimKeepsVisible(line + rest);
    VisibleConcat(line, rest);
    assert Visible(line) != "";
  }

  lemma GapIsSkipped(line: string, rest: seq<string>)
    requires Blank(line)
    ensures BlocksOf([line] + rest, "", false) == BlocksOf(rest, "", false)
  {
    FenceLineIsNotBlank(line);
    assert ([line] + rest)[1..] == rest;
    TrimKeepsVisible("");
  }

  /** A paragraph before a blank line is a block of its own. */
  lemma ParagraphIsABlock(lines: seq<string>, line: string, rest: seq<string>)
    requires lines != [] && Unbroken(lines, false) && !InFence(lines, false) && Blank(line)
    ensures BlocksOf(lines + ([line] + rest), "", false) == [Trim(Join(lines, "\n"))] + BlocksOf(rest, "", false)
  {
    hide Blank, IsFence, Trim, Unbroken;
    StretchJoinsBlock(lines, [line] + rest, "", false);
    ParagraphText(lines);
    FenceLineIsNotBlank(line);
    assert ([line] + rest)[1..] == rest;
  }

  lemma LastParagraphIsABlock(lines: seq<string>)
    requires lines != [] && Unbroken(lines, false)
    ensures BlocksOf(lines, "", false) == [Trim(Join(lines, "\n"))]
  {
    hide IsFence, Trim, Unbroken;
    StretchJoinsBlock(lines, [], "", false);
    assert lines + [] == lines;
    ParagraphText(lines);
  }

  /** Whatever way the lines can be laid out, the blocks are the paragraphs, in order. */
  lemma {:induction false} BlocksAreParagraphs(layout: seq<Piece>)
    requires IsLayout(layout)
    ensures BlocksOf(LinesOf(layout), "", false) == Paragraphs(layout)
    decreases |layout|
  {
    hide Unbroken, InFence, Trim, IsFence, Blank, BlocksOf;
    if layout == [] {
      NoLinesNoBlocks();
    } else {
      var rest := layout[1..];
      BlocksAreParagraphs(rest);
      match layout[0] {
        case Gap(line) =>
          GapIsSkipped(line, LinesOf(rest));
          assert [] + Paragraphs(rest) == Paragraphs(rest);
        case Paragraph(lines) =>
          if rest == [] {
            LastParagraphIsABlock(lines);
            assert lines + [] == lines;
            assert [Trim(Join(lines, "\n"))] + [] == [Trim(Join(lines, "\n"))];
          } else {
            var line := rest[0].line;
            ParagraphIsABlock(lines, line, LinesOf(rest[1..]));
            GapIsSkipped(line, LinesOf(rest[1..]));
          }
      }
    }
  }

  lemma NoLinesNoBlocks()
    ensures BlocksOf([], "", false) == []
  {
    TrimKeepsVisible("");
  }

  // ---------------------------------------------------------------- every document has a layout

  lemma {:induction false} InFenceAppend(lines: seq<string>, line: string, open: bool)
    ensures InFence(lines + [line], open) == if IsFence(line) then !InFence(lines, open) else InFence(lines, open)
  {
    hide IsFence;
    if lines == [] {
      assert (lines + [line])[1..] == [];
    } else {
      assert (lines + [line])[1..] == lines[1..] + [line];
      InFenceAppend(lines[1..], line, if IsFence(lines[0]) then !open else open);
    }
  }

  lemma UnbrokenAppend(lines: seq<string>, line: string)
    requires Unbroken(lines, false) && (Blank(line) ==> InFence(lines, false))
    ensures Unbroken(lines + [line], false)
  {
    hide IsFence, Blank;
    forall i | 0 <= i < |lines + [line]| && Blank((lines + [line])[i]) ensures InFence((lines + [line])[..i], false)
    {
      if i < |lines| {
        assert (lines + [line])[..i] == lines[..i];
      } else {
        assert (lines + [line])[..i] == lines;
      }
    }
  }

  /** A layout of the lines behind an open paragraph, which may be empty. */
  lemma {:induction false} LayOut(open: seq<string>, lines: seq<string>) returns (layout: seq<Piece>)
    requires Unbroken(open, false)
    ensures IsLayout(layout) && LinesOf(layout) == open + lines
    ensures open == [] && lines != [] && Blank(lines[0]) ==> layout != [] && layout[0].Gap?
    decreases |lines|
  {
    hide Unbroken, InFence, IsFence, Blank;
    if lines == [] {
      layout := if open == [] then [] else [Paragraph(open)];
      if open != [] {
        assert layout[1..] == [];
      }
      assert open + [] == open;
    } else {
      var line, rest := lines[0], lines[1..];
      HeadTail(lines);
      if Blank(line) && !InFence(open, false) {
        NothingIsUnbroken();
        var tail := LayOut([], rest);
        assert [] + rest == rest;
        var gap := [Gap(line)] + tail;
        assert gap[1..] == tail;
        layout := if open == [] then gap else [Paragraph(open)] + gap;
        if open != [] {
          assert layout[1..] == gap;
        } else {
          assert [] + lines == lines;
        }
      } else {
        UnbrokenAppend(open, line);
        layout := LayOut(open + [line], rest);
        ConcatAssociates(open, [line], rest);
        NothingIsInFence();
      }
    }
  }

  lemma NothingIsUnbroken()
    ensures Unbroken([], false)
  {
  }

  lemma NothingIsInFence()
    ensures !InFence([], false)
  {
  }

  /** What the blocks of a document are: there is a layout of its lines, and for every layout the blocks are its
      trimmed paragraphs, each with its own lines joined by one line end. */
  lemma BlocksOfDocument(content: string) returns (layout: seq<Piece>)
    ensures IsLayout(layout) && LinesOf(layout) == Lines(content)
    ensures BlocksOf(Lines(content), "", false) == Paragraphs(layout)
    ensures forall other :: IsLayout(other) && LinesOf(other) == Lines(content)
                            ==> Paragraphs(other) == BlocksOf(Lines(content), "", false)
  {
    NothingIsUnbroken();
    hide IsLayout, LinesOf, Paragraphs, BlocksOf, Lines, Unbroken;
    layout := LayOut([], Lines(content));
    assert [] + Lines(content) == Lines(content);
    BlocksAreParagraphs(layout);
    forall other | IsLayout(other) && LinesOf(other) == Lines(content)
      ensures Paragraphs(other) == BlocksOf(Lines(content), "", false)
    {
      BlocksAreParagraphs(other);
    }
  }

  // ---------------------------------------------------------------- the chunks of the blocks

  /** Blocks that fit together are one chunk, with a blank line between them. */
  lemma ShortDocumentIsOneChunk(content: string)
    requires var blocks := BlocksOf(Lines(content), "", false);
             blocks != [] && |Join(blocks, "\n\n")| <= MAX_CONTENT_CHARS
    ensures MarkdownChunks(content) == [Join(BlocksOf(Lines(content), "", false), "\n\n")]
  {
    hide BlocksOf, Lines;
    var blocks := BlocksOf(Lines(content), "", false);
    BlocksAreTrimmed(Lines(content), "", false);
    PartsAreShorter(blocks, "\n\n");
    Absorb(Level.Blocks, "", blocks, [], MAX_CONTENT_CHARS);
    assert blocks + [] == blocks;
    assert Join(blocks, "\n\n") != "" by { assert blocks[0] in blocks; JoinHead(blocks, "\n\n"); }
  }

  /** Words that fit together are one part, with a space between them. */
  lemma ShortBlockIsOnePart(value: string, limit: nat)
    requires limit > 0 && SplitWhitespace(value) != [] && |Join(SplitWhitespace(value), " ")| <= limit
    ensures HardSplit(value, limit) == [Join(SplitWhitespace(value), " ")]
  {
    hide SplitWhitespace;
    var words := SplitWhitespace(value);
    PartsAreShorter(words, " ");
    Absorb(Level.Words, "", words, [], limit);
    assert words + [] == words;
    assert Join(words, " ") != "" by { assert words[0] in words; JoinHead(words, " "); }
  }

  lemma {:induction false} PartsAreShorter(parts: seq<string>, separator: string)
    ensures forall p <- parts :: |p| <= |Join(parts, separator)|
    decreases |parts|
  {
    if |parts| > 1 {
      PartsAreShorter(parts[1..], separator);
      HeadTail(parts);
    }
  }

  /** How blocks become chunks: consecutive blocks are grouped; a group that fits is one chunk, with a blank line
      between its blocks; a block that does not fit by itself is a group alone and is split at its words. */
  function ChunksOf(plan: Plan): seq<string>
  {
    if plan == [] then []
    else
      (if |plan[0]| == 1 && |plan[0][0]| > MAX_CONTENT_CHARS then HardSplit(plan[0][0], MAX_CONTENT_CHARS)
       else [Join(plan[0], "\n\n")])
      + ChunksOf(plan[1..])
  }

  lemma {:induction false} ChunksAreRendered(plan: Plan)
    ensures ChunksOf(plan) == Render(Level.Blocks, plan, MAX_CONTENT_CHARS)
    decreases |plan|
  {
    if plan != [] {
      ChunksAreRendered(plan[1..]);
    }
  }

  lemma ChunksAreGroups(content: string) returns (plan: Plan)
    ensures Items(plan) == BlocksOf(Lines(content), "", false)
    ensures MarkdownChunks(content) == ChunksOf(plan)
    ensures forall g <- plan :: g != [] && (|Join(g, "\n\n")| <= MAX_CONTENT_CHARS || |g| == 1)
  {
    var blocks := BlocksOf(Lines(content), "", false);
    BlocksAreTrimmed(Lines(content), "", false);
    hide BlocksOf, Lines;
    plan := GreedyIsAPlan(Level.Blocks, [], blocks, MAX_CONTENT_CHARS);
    assert [] + blocks == blocks;
    ChunksAreRendered(plan);
  }
}
