/**
 Markdown chunking: `split_markdown` and its helpers.

 Both levels pack greedily.  Blocks are packed into chunks with a blank line between them, and the
 words of a block that is too long for a chunk are packed with a space between them.
 */
module Documents {

  import opened Sequences
  import opened Text
  import opened Wrappers

  const MAX_CONTENT_CHARS := 6000
  const MAX_DOCUMENT_CHUNKS := 100

  datatype DocumentError = NoTextChunks | TooManyChunks(required: nat)

  datatype Level = Words | Blocks

  function Rank(level: Level): nat
  {
    if level.Words? then 0 else 1
  }

  function Separator(level: Level): (s: string)
    ensures Blank(s)
  {
    if level.Words? then " " else "\n\n"
  }

  // ---------------------------------------------------------------- the packing both loops perform

  /** The parts still to be pushed when `current` is open and `items` are to come. */
  function Pack(level: Level, current: string, items: seq<string>, limit: nat): seq<string>
    requires limit > 0
    decreases Rank(level), |items|, 1
  {
    if items == [] then Flushed(current)
    else
      var x, rest := items[0], items[1..];
      if |x| > limit then Flushed(current) + Broken(level, x, limit) + Pack(level, "", rest, limit)
      else if current != "" && |current| + |Separator(level)| + |x| > limit
      then [current] + Pack(level, x, rest, limit)
      else Pack(level, Extend(level, current, x), rest, limit)
  }

  function Flushed(current: string): seq<string>
  {
    if current == "" then [] else [current]
  }

  function Extend(level: Level, current: string, x: string): string
  {
    if current == "" then x else current + Separator(level) + x
  }

  /** The parts of an item that is longer than the limit by itself. */
  function Broken(level: Level, x: string, limit: nat): seq<string>
    requires limit > 0
    decreases Rank(level), 0, 0
  {
    match level
    case Words => Slices(x, limit)
    case Blocks => HardSplit(x, limit)
  }

  function HardSplit(value: string, limit: nat): seq<string>
    requires limit > 0
    decreases 0, |SplitWhitespace(value)|, 2
  {
    Pack(Words, "", SplitWhitespace(value), limit)
  }

  // ---------------------------------------------------------------- bounds

  predicate Bounded(parts: seq<string>, limit: nat)
  {
    forall p <- parts :: 0 < |p| <= limit
  }

  lemma {:induction false} PackBounded(level: Level, current: string, items: seq<string>, limit: nat)
    requires limit > 0 && |current| <= limit
    requires forall x <- items :: x != ""
    ensures Bounded(Pack(level, current, items, limit), limit)
    decreases Rank(level), |items|
  {
    if items != [] {
      var x, rest := items[0], items[1..];
      TailMembers(items);
      if |x| > limit {
        PackBounded(level, "", rest, limit);
        if level.Blocks? {
          PackBounded(Words, "", SplitWhitespace(x), limit);
        }
      } else if current != "" && |current| + |Separator(level)| + |x| > limit {
        PackBounded(level, x, rest, limit);
      } else {
        PackBounded(level, Extend(level, current, x), rest, limit);
      }
    }
  }

  // ---------------------------------------------------------------- conservation

  lemma {:induction false} PackConserves(level: Level, current: string, items: seq<string>, limit: nat)
    requires limit > 0
    ensures Visible(Concat(Pack(level, current, items, limit))) == Visible(current) + Visible(Concat(items))
    decreases Rank(level), |items|
  {
    FlushedKeepsVisible(current);
    if items == [] {
      assert Visible(current) + "" == Visible(current);
    } else {
      var x, rest := items[0], items[1..];
      VisibleConcat(x, Concat(rest));
      if |x| > limit {
        BrokenConserves(level, x, limit);
        PackConserves(level, "", rest, limit);
        ThreeParts(Flushed(current), Broken(level, x, limit), Pack(level, "", rest, limit));
        assert "" + Visible(Concat(rest)) == Visible(Concat(rest));
      } else if current != "" && |current| + |Separator(level)| + |x| > limit {
        PackConserves(level, x, rest, limit);
        ConcatOne(current, Pack(level, x, rest, limit));
        VisibleConcat(current, Concat(Pack(level, x, rest, limit)));
      } else {
        PackConserves(level, Extend(level, current, x), rest, limit);
        if current == "" {
          assert "" + Visible(x) == Visible(x);
        } else {
          VisibleConcat3(current, Separator(level), x);
        }
      }
      ConcatAssociates(Visible(current), Visible(x), Visible(Concat(rest)));
    }
  }

  lemma {:induction false} BrokenConserves(level: Level, x: string, limit: nat)
    requires limit > 0
    ensures Visible(Concat(Broken(level, x, limit))) == Visible(x)
    decreases Rank(level), 0
  {
    if level.Blocks? {
      PackConserves(Words, "", SplitWhitespace(x), limit);
      WordsKeepVisible(x);
    }
  }

  lemma FlushedKeepsVisible(current: string)
    ensures Visible(Concat(Flushed(current))) == Visible(current)
  {
    if current != "" {
      ConcatOne(current, []);
      assert current + "" == current;
    }
  }

  lemma ThreeParts(a: seq<string>, b: seq<string>, c: seq<string>)
    ensures Visible(Concat(a + b + c)) == Visible(Concat(a)) + Visible(Concat(b)) + Visible(Concat(c))
  {
    ConcatAppend(a + b, c);
    ConcatAppend(a, b);
    VisibleConcat(Concat(a) + Concat(b), Concat(c));
    VisibleConcat(Concat(a), Concat(b));
  }

  // ---------------------------------------------------------------- optimality

  /** A way to cut the items into consecutive groups: an item over the limit stands alone, every
      other group fits the limit with its separators. */
  type Plan = seq<seq<string>>

  predicate Fits(level: Level, group: seq<string>, limit: nat)
  {
    group != [] && (forall x <- group :: 0 < |x| <= limit) && |Join(group, Separator(level))| <= limit
  }

  predicate Alone(group: seq<string>, limit: nat)
  {
    |group| == 1 && |group[0]| > limit
  }

  function Items(plan: Plan): seq<string>
  {
    if plan == [] then [] else plan[0] + Items(plan[1..])
  }

  predicate ValidPlan(level: Level, plan: Plan, limit: nat)
  {
    forall g <- plan :: Fits(level, g, limit) || Alone(g, limit)
  }

  /** The parts a plan produces. */
  function Render(level: Level, plan: Plan, limit: nat): seq<string>
    requires limit > 0
  {
    if plan == [] then []
    else
      (if Alone(plan[0], limit) then Broken(level, plan[0][0], limit)
       else [Join(plan[0], Separator(level))])
      + Render(level, plan[1..], limit)
  }

  /** A group that still fits behind `current` is absorbed without a flush. */
  lemma {:induction false} Absorb(level: Level, current: string, group: seq<string>, rest: seq<string>, limit: nat)
    requires Fits(level, group, limit)
    requires current == "" || |current| + |Separator(level)| + |Join(group, Separator(level))| <= limit
    ensures Pack(level, current, group + rest, limit)
            == Pack(level, Extend(level, current, Join(group, Separator(level))), rest, limit)
    decreases |group|
  {
    var x, tail := group[0], group[1..];
    assert x in group;
    assert (group + rest)[1..] == tail + rest;
    JoinHead(group, Separator(level));
    if tail == [] {
      assert tail + rest == rest;
    } else {
      Absorb(level, Extend(level, current, x), tail, rest, limit);
      if current != "" {
        JoinExtends(level, current, x, Join(tail, Separator(level)));
      }
    }
  }

  lemma JoinHead(group: seq<string>, separator: string)
    requires group != []
    ensures |Join(group, separator)| >= |group[0]|
    ensures |group| > 1 ==> Join(group, separator) == group[0] + separator + Join(group[1..], separator)
  {
  }

  lemma JoinExtends(level: Level, current: string, x: string, tail: string)
    requires current != "" && x != ""
    ensures Extend(level, Extend(level, current, x), tail) == Extend(level, current, x + Separator(level) + tail)
  {
    var s := Separator(level);
    assert current + s + x + s + tail == current + s + (x + s + tail);
  }

  /** Running into a group from behind costs at most one flush, and leaves an open part. */
  lemma {:induction false} OneFlush(level: Level, current: string, group: seq<string>, rest: seq<string>, limit: nat)
    returns (open: string)
    requires current != "" && Fits(level, group, limit)
    ensures open != ""
    ensures |Pack(level, current, group + rest, limit)| <= 1 + |Pack(level, open, rest, limit)|
    decreases |group|
  {
    var x, tail := group[0], group[1..];
    assert x in group;
    assert (group + rest)[1..] == tail + rest;
    JoinHead(group, Separator(level));
    if |current| + |Separator(level)| + |x| > limit {
      open := Join(group, Separator(level));
      if tail == [] {
        assert tail + rest == rest;
      } else {
        Absorb(level, x, tail, rest, limit);
      }
    } else if tail == [] {
      open := Extend(level, current, x);
      assert tail + rest == rest;
    } else {
      open := OneFlush(level, Extend(level, current, x), tail, rest, limit);
    }
  }

  /** Greedy packing is optimal: no plan for the same items yields fewer parts. */
  lemma {:induction false} GreedyBeatsPlan(level: Level, current: string, plan: Plan, limit: nat)
    requires limit > 0 && ValidPlan(level, plan, limit)
    ensures |Pack(level, current, Items(plan), limit)| <= |Flushed(current)| + |Render(level, plan, limit)|
    decreases |plan|
  {
    if plan != [] {
      var group, rest := plan[0], Items(plan[1..]);
      assert group in plan;
      if Alone(group, limit) {
        assert (group + rest)[1..] == rest;
        GreedyBeatsPlan(level, "", plan[1..], limit);
      } else if current == "" {
        Absorb(level, "", group, rest, limit);
        GreedyBeatsPlan(level, Join(group, Separator(level)), plan[1..], limit);
      } else {
        var open := OneFlush(level, current, group, rest, limit);
        GreedyBeatsPlan(level, open, plan[1..], limit);
      }
    }
  }

  /** The greedy result is itself rendered from a plan, so the minimum is attained. */
  lemma {:induction false} GreedyIsAPlan(level: Level, group: seq<string>, items: seq<string>, limit: nat)
    returns (plan: Plan)
    requires limit > 0 && (group == [] || Fits(level, group, limit))
    requires forall x <- items :: x != ""
    ensures ValidPlan(level, plan, limit)
    ensures Items(plan) == group + items
    ensures Render(level, plan, limit) == Pack(level, Join(group, Separator(level)), items, limit)
    decreases |items|
  {
    hide Render, ValidPlan, Items, Fits;
    var current := Join(group, Separator(level));
    CloseGroup(level, group, limit);
    if items == [] {
      EmptyPlan(level, limit);
      plan := PlanAfter(level, group, [], limit);
      assert group + [] == group;
      assert Flushed(current) + [] == Flushed(current);
    } else {
      var x, rest := items[0], items[1..];
      TailMembers(items);
      HeadTail(items);
      ConcatAssociates(group, [x], rest);
      if |x| > limit {
        var tail := GreedyIsAPlan(level, [], rest, limit);
        tail := PlanCons(level, [x], tail, limit);
        assert [] + rest == rest;
        plan := PlanAfter(level, group, tail, limit);
        ConcatAssociates(Flushed(current), Broken(level, x, limit), Pack(level, "", rest, limit));
      } else if current != "" && |current| + |Separator(level)| + |x| > limit {
        FitsSnoc(level, [], x, limit);
        var tail := GreedyIsAPlan(level, [x], rest, limit);
        plan := PlanAfter(level, group, tail, limit);
      } else {
        FitsSnoc(level, group, x, limit);
        plan := GreedyIsAPlan(level, group + [x], rest, limit);
      }
    }
  }

  lemma EmptyPlan(level: Level, limit: nat)
    requires limit > 0
    ensures ValidPlan(level, [], limit) && Items([]) == [] && Render(level, [], limit) == []
  {
  }

  /** An open group is empty exactly when its text is, and never counts as oversize. */
  lemma CloseGroup(level: Level, group: seq<string>, limit: nat)
    requires group == [] || Fits(level, group, limit)
    ensures Join(group, Separator(level)) == "" <==> group == []
    ensures !Alone(group, limit)
  {
    if group != [] {
      assert group[0] in group;
      JoinHead(group, Separator(level));
    }
  }

  lemma FitsSnoc(level: Level, group: seq<string>, x: string, limit: nat)
    requires group == [] || Fits(level, group, limit)
    requires 0 < |x| <= limit
    requires group == [] || |Join(group, Separator(level))| + |Separator(level)| + |x| <= limit
    ensures Fits(level, group + [x], limit)
    ensures Join(group + [x], Separator(level)) == Extend(level, Join(group, Separator(level)), x)
    ensures [] + [x] == [x]
  {
    CloseGroup(level, group, limit);
    JoinSnoc(group, x, Separator(level));
  }

  /** A plan with the open group, if any, in front. */
  lemma PlanAfter(level: Level, group: seq<string>, plan: Plan, limit: nat) returns (longer: Plan)
    requires limit > 0 && ValidPlan(level, plan, limit) && (group == [] || Fits(level, group, limit))
    ensures ValidPlan(level, longer, limit) && Items(longer) == group + Items(plan)
    ensures Render(level, longer, limit) == Flushed(Join(group, Separator(level))) + Render(level, plan, limit)
  {
    CloseGroup(level, group, limit);
    if group == [] {
      longer := plan;
      assert [] + Items(plan) == Items(plan);
      assert [] + Render(level, plan, limit) == Render(level, plan, limit);
    } else {
      longer := PlanCons(level, group, plan, limit);
    }
  }

  lemma PlanCons(level: Level, group: seq<string>, plan: Plan, limit: nat) returns (longer: Plan)
    requires limit > 0 && ValidPlan(level, plan, limit) && (Fits(level, group, limit) || Alone(group, limit))
    ensures ValidPlan(level, longer, limit) && Items(longer) == group + Items(plan)
    ensures Render(level, longer, limit)
            == (if Alone(group, limit) then Broken(level, group[0], limit) else [Join(group, Separator(level))])
               + Render(level, plan, limit)
  {
    longer := [group] + plan;
    assert longer[1..] == plan;
  }

  lemma {:induction false} JoinSnoc(group: seq<string>, x: string, separator: string)
    ensures Join(group + [x], separator) == if group == [] then x else Join(group, separator) + separator + x
    decreases |group|
  {
    if group == [] {
      assert group + [x] == [x];
    } else {
      assert (group + [x])[1..] == group[1..] + [x];
      JoinSnoc(group[1..], x, separator);
      if |group| > 1 {
        var t := Join(group[1..], separator);
        assert group[0] + separator + (t + separator + x) == group[0] + separator + t + separator + x;
      }
    }
  }

  // ---------------------------------------------------------------- blocks

  predicate IsFence(line: string)
  {
    var trimmed := TrimStart(line);
    "```" <= trimmed || "~~~" <= trimmed
  }

  function AppendLine(block: string, line: string): string
  {
    (if block == "" then "" else block + "\n") + line
  }

  /** The blocks still to be pushed when `block` is open and `lines` are to come. */
  function BlocksOf(lines: seq<string>, block: string, inFence: bool): seq<string>
  {
    if lines == [] then Flushed(Trim(block))
    else
      var line, rest := lines[0], lines[1..];
      var fence := if IsFence(line) then !inFence else inFence;
      if Trim(line) == "" && !fence then
        if Trim(block) == "" then BlocksOf(rest, block, fence) else [Trim(block)] + BlocksOf(rest, "", fence)
      else BlocksOf(rest, AppendLine(block, line), fence)
  }

  lemma {:induction false} BlocksConserve(lines: seq<string>, block: string, inFence: bool)
    ensures Visible(Concat(BlocksOf(lines, block, inFence))) == Visible(block) + Visible(Concat(lines))
    decreases |lines|
  {
    hide Visible, Trim, IsFence;
    TrimKeepsVisible(block);
    FlushedKeepsVisible(Trim(block));
    if lines == [] {
      EmptyVisible(block);
    } else {
      var line, rest := lines[0], lines[1..];
      var fence := if IsFence(line) then !inFence else inFence;
      TrimKeepsVisible(line);
      VisibleConcat(line, Concat(rest));
      ConcatAssociates(Visible(block), Visible(line), Visible(Concat(rest)));
      if Trim(line) == "" && !fence {
        EmptyVisible(line);
        EmptyVisible(block);
        if Trim(block) == "" {
          BlocksConserve(rest, block, fence);
        } else {
          BlocksConserve(rest, "", fence);
          EmptyVisible("");
          ConcatOne(Trim(block), BlocksOf(rest, "", fence));
          VisibleConcat(Trim(block), Concat(BlocksOf(rest, "", fence)));
        }
      } else {
        BlocksConserve(rest, AppendLine(block, line), fence);
        AppendKeepsVisible(block, line);
      }
    }
  }

  lemma EmptyVisible(s: string)
    ensures Visible(s) + Visible("") == Visible(s)
    ensures Blank(s) ==> Visible(s) == "" && forall t: string :: Visible(s) + t == t
  {
    assert Visible("") == "";
  }

  lemma AppendKeepsVisible(block: string, line: string)
    ensures Visible(AppendLine(block, line)) == Visible(block) + Visible(line)
  {
    if block == "" {
      EmptyVisible(block);
      assert "" + line == line;
    } else {
      VisibleConcat3(block, "\n", line);
    }
  }

  lemma {:induction false} BlocksAreTrimmed(lines: seq<string>, block: string, inFence: bool)
    ensures forall b <- BlocksOf(lines, block, inFence) :: b != "" && !IsSpace(b[0]) && !IsSpace(b[|b| - 1])
    decreases |lines|
  {
    hide IsFence;
    if lines != [] {
      var line, rest := lines[0], lines[1..];
      var fence := if IsFence(line) then !inFence else inFence;
      BlocksAreTrimmed(rest, block, fence);
      BlocksAreTrimmed(rest, "", fence);
      BlocksAreTrimmed(rest, AppendLine(block, line), fence);
    }
  }

  function AppendLines(block: string, lines: seq<string>): string
    decreases |lines|
  {
    if lines == [] then block else AppendLines(AppendLine(block, lines[0]), lines[1..])
  }

  /** Inside a fence, blank lines do not end the block: everything up to the closing fence, and the
      closing fence itself, joins the block that is open. */
  lemma {:induction false} FenceHoldsTogether(inside: seq<string>, close: string, rest: seq<string>, block: string)
    requires (forall line <- inside :: !IsFence(line)) && IsFence(close)
    ensures BlocksOf(inside + [close] + rest, block, true)
            == BlocksOf(rest, AppendLines(block, inside + [close]), false)
    decreases |inside|
  {
    hide IsFence;
    if inside == [] {
      assert [] + [close] + rest == [close] + rest;
      assert ([close] + rest)[1..] == rest && ([] + [close])[1..] == [];
      FenceIsNotBlank(close);
      assert AppendLines(block, [close]) == AppendLine(block, close) by { assert [close][1..] == []; }
    } else {
      TailMembers(inside);
      assert (inside + [close] + rest)[1..] == inside[1..] + [close] + rest;
      assert (inside + [close])[1..] == inside[1..] + [close];
      FenceHoldsTogether(inside[1..], close, rest, AppendLine(block, inside[0]));
    }
  }

  lemma FenceIsNotBlank(line: string)
    requires IsFence(line)
    ensures Trim(line) != ""
  {
    TrimKeepsVisible(line);
    TrimStartKeepsVisible(line);
    var trimmed := TrimStart(line);
    assert !IsSpace(trimmed[0]);
  }

  // ---------------------------------------------------------------- the methods

  /** One turn of a packing loop that has already pushed `done`. */
  lemma PackStep(level: Level, done: seq<string>, current: string, items: seq<string>, limit: nat)
    requires limit > 0 && items != []
    ensures done + Pack(level, current, items, limit)
            == var x, rest := items[0], items[1..];
               if |x| > limit then done + Flushed(current) + Broken(level, x, limit) + Pack(level, "", rest, limit)
               else if current != "" && |current| + |Separator(level)| + |x| > limit
               then done + [current] + Pack(level, x, rest, limit)
               else done + Pack(level, Extend(level, current, x), rest, limit)
    ensures done + [] == done
  {
    var x, rest := items[0], items[1..];
    if |x| > limit {
      ConcatAssociates(done, Flushed(current) + Broken(level, x, limit), Pack(level, "", rest, limit));
      ConcatAssociates(done, Flushed(current), Broken(level, x, limit));
    } else {
      ConcatAssociates(done, [current], Pack(level, x, rest, limit));
    }
  }

  lemma BrokenWord(word: string, limit: nat)
    requires limit > 0
    ensures Broken(Words, word, limit) == Slices(word, limit)
  {
  }

  lemma PackEnd(level: Level, done: seq<string>, current: string, limit: nat)
    requires limit > 0
    ensures done + Pack(level, current, [], limit) == done + Flushed(current)
    ensures done + Flushed("") == done
  {
  }

  /** `hard_split`; cutting a word into pieces of no characters would panic. */
  method SplitHard(value: string, maxChars: nat) returns (parts: seq<string>)
    requires maxChars > 0
    ensures parts == HardSplit(value, maxChars)
  {
    parts := [];
    var current := "";
    var words := SplitWhitespace(value);
    assert words[0..] == words;
    for i := 0 to |words|
      invariant parts + Pack(Words, current, words[i..], maxChars) == HardSplit(value, maxChars)
    {
      hide Pack, HardSplit, SplitWhitespace, Broken, Solid;
      var word := words[i];
      assert words[i..][1..] == words[i + 1..];
      PackStep(Words, parts, current, words[i..], maxChars);
      BrokenWord(word, maxChars);
      assert "" + word == word;
      if |word| > maxChars {
        if current != "" {
          parts := parts + [current];
          current := "";
        }
        parts := parts + Slices(word, maxChars);
        continue;
      }
      var separator := if current != "" then 1 else 0;
      if |current| + separator + |word| > maxChars {
        parts := parts + [current];
        current := "";
      }
      if current != "" {
        current := current + " ";
      }
      current := current + word;
    }
    assert words[|words|..] == [];
    PackEnd(Words, parts, current, maxChars);
    if current != "" {
      parts := parts + [current];
    }
  }

  /** The first loop of `split_markdown`. */
  method CollectBlocks(content: string) returns (blocks: seq<string>)
    ensures blocks == BlocksOf(Lines(content), "", false)
  {
    blocks := [];
    var block, inFence := "", false;
    var lines := Lines(content);
    assert lines[0..] == lines;
    for i := 0 to |lines|
      invariant blocks + BlocksOf(lines[i..], block, inFence) == BlocksOf(lines, "", false)
    {
      hide Trim, TrimStart, Lines;
      var line := lines[i];
      assert lines[i..][1..] == lines[i + 1..];
      var trimmed := TrimStart(line);
      if "```" <= trimmed || "~~~" <= trimmed {
        inFence := !inFence;
      }
      if Trim(line) == "" && !inFence {
        if Trim(block) != "" {
          blocks := blocks + [Trim(block)];
          block := "";
        }
        continue;
      }
      if block != "" {
        block := block + "\n";
      }
      block := block + line;
    }
    assert lines[|lines|..] == [];
    if Trim(block) != "" {
      blocks := blocks + [Trim(block)];
    }
  }

  /** `flush_chunk`. */
  method FlushChunk(current: string, chunks: seq<string>) returns (open: string, pushed: seq<string>)
    ensures open == "" && pushed == chunks + Flushed(current)
  {
    if current != "" {
      return "", chunks + [current];
    }
    return current, chunks;
  }

  function MarkdownChunks(content: string): seq<string>
  {
    Pack(Blocks, "", BlocksOf(Lines(content), "", false), MAX_CONTENT_CHARS)
  }

  /** `split_markdown`. */
  method SplitMarkdown(content: string) returns (r: Result<seq<string>, DocumentError>)
    ensures var chunks := MarkdownChunks(content);
            r == if chunks == [] then Err(NoTextChunks)
                 else if |chunks| > MAX_DOCUMENT_CHUNKS then Err(TooManyChunks(|chunks|))
                 else Ok(chunks)
  {
    var blocks := CollectBlocks(content);
    var chunks: seq<string>, current := [], "";
    assert blocks[0..] == blocks;
    for i := 0 to |blocks|
      invariant chunks + Pack(Blocks, current, blocks[i..], MAX_CONTENT_CHARS) == MarkdownChunks(content)
    {
      hide Pack, HardSplit, BlocksOf, Lines, MarkdownChunks;
      var block := blocks[i];
      assert blocks[i..][1..] == blocks[i + 1..];
      PackStep(Blocks, chunks, current, blocks[i..], MAX_CONTENT_CHARS);
      assert "" + block == block;
      if |block| > MAX_CONTENT_CHARS {
        current, chunks := FlushChunk(current, chunks);
        var parts := SplitHard(block, MAX_CONTENT_CHARS);
        chunks := chunks + parts;
        continue;
      }
      var separator := if current != "" then 2 else 0;
      if |current| + separator + |block| > MAX_CONTENT_CHARS {
        current, chunks := FlushChunk(current, chunks);
      }
      if current != "" {
        current := current + "\n\n";
      }
      current := current + block;
    }
    assert blocks[|blocks|..] == [];
    PackEnd(Blocks, chunks, current, MAX_CONTENT_CHARS);
    current, chunks := FlushChunk(current, chunks);
    if chunks == [] {
      return Err(NoTextChunks);
    }
    if |chunks| > MAX_DOCUMENT_CHUNKS {
      return Err(TooManyChunks(|chunks|));
    }
    return Ok(chunks);
  }

  // ---------------------------------------------------------------- what a caller may rely on

  /** Content conservation and bounds, for every document.  There are no chunks exactly when the
      document has nothing but whitespace. */
  lemma MarkdownConserves(content: string)
    ensures Visible(Concat(MarkdownChunks(content))) == Visible(content)
    ensures Bounded(MarkdownChunks(content), MAX_CONTENT_CHARS)
    ensures MarkdownChunks(content) == [] <==> Blank(content)
  {
    hide Visible, Concat, BlocksOf, Lines;
    var blocks := BlocksOf(Lines(content), "", false);
    BlocksAreTrimmed(Lines(content), "", false);
    PackBounded(Blocks, "", blocks, MAX_CONTENT_CHARS);
    PackConserves(Blocks, "", blocks, MAX_CONTENT_CHARS);
    BlocksConserve(Lines(content), "", false);
    LinesKeepVisible(content);
    EmptyVisible("");
    EmptyConcat();
    if blocks != [] {
      VisibleBlock(blocks);
    }
  }

  lemma EmptyConcat()
    ensures Concat([]) == "" && Visible("") == "" && forall t: string :: "" + t == t
  {
  }

  lemma VisibleBlock(blocks: seq<string>)
    requires blocks != [] && blocks[0] != "" && !IsSpace(blocks[0][0])
    ensures Visible(Concat(blocks)) != ""
  {
    VisibleConcat(blocks[0], Concat(blocks[1..]));
  }

  /** Optimality: no other way to cut the document's blocks into consecutive groups that fit, with
      oversize blocks on their own, yields fewer chunks; and greedy packing is one of those ways. */
  lemma MarkdownIsOptimal(content: string, plan: Plan)
    requires ValidPlan(Blocks, plan, MAX_CONTENT_CHARS) && Items(plan) == BlocksOf(Lines(content), "", false)
    ensures |MarkdownChunks(content)| <= |Render(Blocks, plan, MAX_CONTENT_CHARS)|
  {
    GreedyBeatsPlan(Blocks, "", plan, MAX_CONTENT_CHARS);
  }

  lemma HardSplitIsOptimal(value: string, limit: nat, plan: Plan)
    requires limit > 0 && ValidPlan(Words, plan, limit) && Items(plan) == SplitWhitespace(value)
    ensures |HardSplit(value, limit)| <= |Render(Words, plan, limit)|
  {
    GreedyBeatsPlan(Words, "", plan, limit);
  }
}
