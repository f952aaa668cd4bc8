/** The string operations the Markdown splitter takes from Rust's standard library. */
module Text {

  /** `char::is_whitespace`: the Unicode White_Space property. */
  predicate IsSpace(c: char)
  {
    var n := c as int;
    9 <= n <= 13 || n == 32 || n == 0x85 || n == 0xa0 || n == 0x1680 || 0x2000 <= n <= 0x200a
    || n == 0x2028 || n == 0x2029 || n == 0x202f || n == 0x205f || n == 0x3000
  }

  /** The 25 characters of the property. */
  lemma WhiteSpaceCharacters(c: char)
    ensures IsSpace(c) <==>
            || c as int in {0x9, 0xa, 0xb, 0xc, 0xd, 0x20, 0x85, 0xa0, 0x1680, 0x2000, 0x2001, 0x2002, 0x2003}
            || c as int in {0x2004, 0x2005, 0x2006, 0x2007, 0x2008, 0x2009, 0x200a, 0x2028, 0x2029, 0x202f, 0x205f, 0x3000}
  {
  }

  predicate Blank(s: string)
  {
    forall i :: 0 <= i < |s| ==> IsSpace(s[i])
  }

  predicate Solid(s: string)
  {
    s != "" && forall i :: 0 <= i < |s| ==> !IsSpace(s[i])
  }

  /** The characters that are not whitespace, in order. */
  function Visible(s: string): (v: string)
    ensures v == "" <==> Blank(s)
  {
    if s == "" then "" else (if IsSpace(s[0]) then "" else [s[0]]) + Visible(s[1..])
  }

  function Concat(parts: seq<string>): string
  {
    if parts == [] then "" else parts[0] + Concat(parts[1..])
  }

  function Join(parts: seq<string>, separator: string): string
  {
    if parts == [] then ""
    else if |parts| == 1 then parts[0]
    else parts[0] + separator + Join(parts[1..], separator)
  }

  /** `trim_start`. */
  function TrimStart(s: string): (t: string)
    ensures t != "" ==> !IsSpace(t[0])
    ensures |t| <= |s|
  {
    if s == "" || !IsSpace(s[0]) then s else TrimStart(s[1..])
  }

  function TrimEnd(s: string): (t: string)
    ensures t != "" ==> !IsSpace(t[|t| - 1])
    ensures t <= s
  {
    if s == "" || !IsSpace(s[|s| - 1]) then s else TrimEnd(s[..|s| - 1])
  }

  /** `trim`. */
  function Trim(s: string): (t: string)
    ensures t != "" ==> !IsSpace(t[0]) && !IsSpace(t[|t| - 1])
  {
    TrimEnd(TrimStart(s))
  }

  /** Length of the first word of a string that starts with it. */
  function WordLength(s: string): (n: nat)
    ensures n <= |s| && forall i :: 0 <= i < n ==> !IsSpace(s[i])
    ensures n < |s| ==> IsSpace(s[n])
  {
    if s == "" || IsSpace(s[0]) then 0 else 1 + WordLength(s[1..])
  }

  /** `split_whitespace`. */
  function SplitWhitespace(s: string): (words: seq<string>)
    ensures forall w <- words :: Solid(w)
    decreases |s|
  {
    var t := TrimStart(s);
    if t == "" then []
    else [t[..WordLength(t)]] + SplitWhitespace(t[WordLength(t)..])
  }

  /** Length of the first line without its end. */
  function LineLength(s: string): (n: nat)
    ensures n <= |s| && (n < |s| ==> s[n] == '\n')
  {
    if s == "" || s[0] == '\n' then 0 else 1 + LineLength(s[1..])
  }

  /** `lines`: a final line end is optional, and a carriage return before a line end is dropped. */
  function Lines(s: string): seq<string>
    decreases |s|
  {
    if s == "" then []
    else
      var n := LineLength(s);
      if n == |s| then [s]
      else [if n > 0 && s[n - 1] == '\r' then s[..n - 1] else s[..n]] + Lines(s[n + 1..])
  }

  /** `chunks` of a character vector. */
  function Slices(s: string, size: nat): (parts: seq<string>)
    requires size > 0
    ensures forall p <- parts :: 0 < |p| <= size
    ensures Concat(parts) == s
    decreases |s|
  {
    if s == "" then []
    else if |s| <= size then [s]
    else [s[..size]] + Slices(s[size..], size)
  }

  // ---------------------------------------------------------------- what the cuts are

  lemma {:induction false} TrimStartCuts(s: string) returns (n: nat)
    ensures n <= |s| && Blank(s[..n]) && TrimStart(s) == s[n..]
  {
    if s == "" || !IsSpace(s[0]) {
      n := 0;
    } else {
      n := TrimStartCuts(s[1..]);
      assert s[..n + 1] == [s[0]] + s[1..][..n];
      n := n + 1;
    }
  }

  lemma {:induction false} TrimEndCuts(s: string)
    ensures Blank(s[|TrimEnd(s)|..])
  {
    if s != "" && IsSpace(s[|s| - 1]) {
      TrimEndCuts(s[..|s| - 1]);
      var n := |TrimEnd(s)|;
      assert s[n..] == s[..|s| - 1][n..] + [s[|s| - 1]];
    }
  }

  /** Trimming takes whitespace off both ends, all of it, and nothing else. */
  lemma TrimIsTheMiddle(s: string) returns (before: string, after: string)
    ensures s == before + Trim(s) + after && Blank(before) && Blank(after)
    ensures Trim(s) != "" ==> !IsSpace(Trim(s)[0]) && !IsSpace(Trim(s)[|Trim(s)| - 1])
  {
    var n := TrimStartCuts(s);
    TrimEndCuts(s[n..]);
    before, after := s[..n], s[n..][|Trim(s)|..];
  }

  /** The texts with the ends that stood behind them. */
  function Interleaved(parts: seq<string>, ends: seq<string>): string
    requires |parts| == |ends|
  {
    if parts == [] then "" else parts[0] + ends[0] + Interleaved(parts[1..], ends[1..])
  }

  predicate IsLineEnd(line: string, end: string, last: bool)
  {
    || (end == "\n" && (line != "" ==> line[|line| - 1] != '\r'))
    || end == "\r\n"
    || (end == "" && last && line != "")
  }

  /** The lines are what stands between the line ends: no line contains one, every line but the last has one behind
      it, and the last has one or is not empty.  With one carriage return taken to the line end, there is only one
      way to cut a text like this. */
  lemma {:induction false} LinesAreCut(s: string) returns (ends: seq<string>)
    ensures |ends| == |Lines(s)| && Interleaved(Lines(s), ends) == s
    ensures forall line <- Lines(s) :: '\n' !in line
    ensures forall i :: 0 <= i < |ends| ==> IsLineEnd(Lines(s)[i], ends[i], i == |ends| - 1)
    decreases |s|
  {
    hide Lines, LineLength, Interleaved, IsLineEnd;
    if s == "" {
      NoLines();
      ends := [];
    } else if LineLength(s) == |s| {
      OneLine(s);
      ends := [""];
    } else {
      var n := LineLength(s);
      var rest := LinesAreCut(s[n + 1..]);
      LineCut(s, rest);
      ends := [LineEndAt(s, n)] + rest;
      hide LineAt, LineEndAt;
      CutAll(LineAt(s, n), Lines(s[n + 1..]), LineEndAt(s, n), rest);
    }
  }

  lemma NoLines()
    ensures Lines("") == [] && Interleaved([], []) == ""
  {
  }

  lemma OneLine(s: string)
    requires s != "" && LineLength(s) == |s|
    ensures Lines(s) == [s] && Interleaved([s], [""]) == s && '\n' !in s && IsLineEnd(s, "", true)
  {
    LineHasNoEnd(s);
    assert s + "" + Interleaved([], []) == s;
  }

  lemma CutAll(line: string, lines: seq<string>, end: string, ends: seq<string>)
    requires |lines| == |ends| && '\n' !in line && (forall last :: IsLineEnd(line, end, last))
    requires forall l <- lines :: '\n' !in l
    requires forall i :: 0 <= i < |ends| ==> IsLineEnd(lines[i], ends[i], i == |ends| - 1)
    ensures forall l <- [line] + lines :: '\n' !in l
    ensures var all, allEnds := [line] + lines, [end] + ends;
            forall i :: 0 <= i < |allEnds| ==> IsLineEnd(all[i], allEnds[i], i == |allEnds| - 1)
  {
    hide IsLineEnd;
    var all, allEnds := [line] + lines, [end] + ends;
    forall i | 0 <= i < |allEnds| ensures IsLineEnd(all[i], allEnds[i], i == |allEnds| - 1)
    {
      if i > 0 {
        assert all[i] == lines[i - 1] && allEnds[i] == ends[i - 1];
      }
    }
  }

  function LineAt(s: string, n: nat): string
    requires n < |s|
  {
    if n > 0 && s[n - 1] == '\r' then s[..n - 1] else s[..n]
  }

  function LineEndAt(s: string, n: nat): string
    requires n < |s|
  {
    s[if n > 0 && s[n - 1] == '\r' then n - 1 else n..n + 1]
  }

  lemma LineEndsThere(s: string, n: nat)
    requires n < |s| && s[n] == '\n' && forall i :: 0 <= i < n ==> s[i] != '\n'
    ensures s == LineAt(s, n) + LineEndAt(s, n) + s[n + 1..]
    ensures forall last :: IsLineEnd(LineAt(s, n), LineEndAt(s, n), last)
    ensures '\n' !in LineAt(s, n)
  {
    if n > 0 && s[n - 1] == '\r' {
      assert LineEndAt(s, n) == "\r\n";
    } else {
      assert LineEndAt(s, n) == "\n";
    }
  }

  lemma LinesUnfold(s: string)
    requires LineLength(s) < |s|
    ensures Lines(s) == [LineAt(s, LineLength(s))] + Lines(s[LineLength(s) + 1..])
  {
  }

  /** The first line of several, and its end. */
  lemma LineCut(s: string, rest: seq<string>)
    requires LineLength(s) < |s|
    requires var tail := s[LineLength(s) + 1..]; |rest| == |Lines(tail)| && Interleaved(Lines(tail), rest) == tail
    ensures var n := LineLength(s);
            && Lines(s) == [LineAt(s, n)] + Lines(s[n + 1..])
            && Interleaved(Lines(s), [LineEndAt(s, n)] + rest) == s
            && (forall last :: IsLineEnd(LineAt(s, n), LineEndAt(s, n), last))
            && '\n' !in LineAt(s, n)
  {
    hide Interleaved, Lines, LineLength, LineAt, LineEndAt, IsLineEnd;
    var n := LineLength(s);
    LineHasNoEnd(s);
    LineEndsThere(s, n);
    LinesUnfold(s);
    InterleavedCons(LineAt(s, n), Lines(s[n + 1..]), LineEndAt(s, n), rest);
  }

  lemma InterleavedCons(part: string, parts: seq<string>, end: string, ends: seq<string>)
    requires |parts| == |ends|
    ensures Interleaved([part] + parts, [end] + ends) == part + end + Interleaved(parts, ends)
  {
    assert ([part] + parts)[1..] == parts && ([end] + ends)[1..] == ends;
  }

  lemma {:induction false} LineHasNoEnd(s: string)
    ensures forall i :: 0 <= i < LineLength(s) ==> s[i] != '\n'
  {
    if s != "" && s[0] != '\n' {
      LineHasNoEnd(s[1..]);
      forall i | 0 <= i < LineLength(s) ensures s[i] != '\n'
      {
        assert i > 0 ==> s[i] == s[1..][i - 1];
      }
    }
  }

  /** The words are the maximal runs of characters that are not whitespace: between two words, and only there,
      there must be whitespace, and there may be some at either end. */
  lemma {:induction false} WordsAreMaximal(s: string) returns (first: string, gaps: seq<string>)
    ensures |gaps| == |SplitWhitespace(s)| && s == first + Interleaved(SplitWhitespace(s), gaps)
    ensures Blank(first) && forall gap <- gaps :: Blank(gap)
    ensures forall i :: 0 <= i < |gaps| - 1 ==> gaps[i] != ""
    ensures forall w <- SplitWhitespace(s) :: Solid(w)
    decreases |s|
  {
    hide Solid, Blank, Interleaved, SplitWhitespace, TrimStart;
    var n := TrimStartCuts(s);
    var t := TrimStart(s);
    first := s[..n];
    SplitUnfolds(s);
    NothingInterleaved();
    if t == "" {
      gaps := [];
      assert first == s;
    } else {
      var k := WordLength(t);
      var w, words := t[..k], SplitWhitespace(t[k..]);
      var gap, rest := WordsAreMaximal(t[k..]);
      gaps := [gap] + rest;
      InterleavedCons(w, words, gap, rest);
      Assembled(s, first, t, w, gap, Interleaved(words, rest));
      if words != [] {
        GapFollowsWord(t[k..], gap, words, rest);
      }
    }
  }

  lemma SplitUnfolds(s: string)
    ensures var t := TrimStart(s);
            if t == "" then SplitWhitespace(s) == []
            else
              var k := WordLength(t);
              k > 0 && t == t[..k] + t[k..] && (t[k..] != "" ==> IsSpace(t[k..][0]))
              && SplitWhitespace(s) == [t[..k]] + SplitWhitespace(t[k..])
  {
  }

  lemma Assembled(s: string, first: string, t: string, w: string, gap: string, tail: string)
    requires s == first + t && t == w + (gap + tail)
    ensures s == first + (w + gap + tail)
  {
    assert w + (gap + tail) == w + gap + tail;
  }

  lemma NothingInterleaved()
    ensures Interleaved([], []) == "" && forall s: string :: s + "" == s
  {
  }

  /** What starts with whitespace has a gap before its first word. */
  lemma GapFollowsWord(s: string, gap: string, words: seq<string>, rest: seq<string>)
    requires |words| == |rest| && words != [] && s == gap + Interleaved(words, rest)
    requires Solid(words[0]) && (s != "" ==> IsSpace(s[0]))
    ensures gap != ""
  {
    StartsSolid(words, rest);
    assert s[|gap|..] == Interleaved(words, rest);
  }

  lemma StartsSolid(words: seq<string>, gaps: seq<string>)
    requires |words| == |gaps| && words != [] && Solid(words[0])
    ensures Interleaved(words, gaps) != "" && !IsSpace(Interleaved(words, gaps)[0])
  {
    assert Interleaved(words, gaps)[0] == words[0][0];
  }

  /** All slices but the last are full. */
  lemma {:induction false} SlicesAreFull(s: string, size: nat)
    requires size > 0
    ensures var parts := Slices(s, size);
            && Concat(parts) == s && (s != "" ==> parts != [] && 0 < |parts[|parts| - 1]| <= size)
            && forall i :: 0 <= i < |parts| - 1 ==> |parts[i]| == size
    decreases |s|
  {
    if |s| > size {
      SlicesAreFull(s[size..], size);
    }
  }

  // ---------------------------------------------------------------- visible characters

  lemma {:induction false} VisibleConcat(a: string, b: string)
    ensures Visible(a + b) == Visible(a) + Visible(b)
  {
    if a == "" {
      assert a + b == b;
    } else {
      assert (a + b)[1..] == a[1..] + b;
      VisibleConcat(a[1..], b);
    }
  }

  lemma {:induction false} VisibleConcat3(a: string, b: string, c: string)
    requires Blank(b)
    ensures Visible(a + b + c) == Visible(a) + Visible(c)
  {
    VisibleConcat(a + b, c);
    VisibleConcat(a, b);
  }

  lemma {:induction false} ConcatAppend(a: seq<string>, b: seq<string>)
    ensures Concat(a + b) == Concat(a) + Concat(b)
  {
    if a == [] {
      assert a + b == b;
    } else {
      assert (a + b)[1..] == a[1..] + b;
      ConcatAppend(a[1..], b);
    }
  }

  lemma {:induction false} TrimStartKeepsVisible(s: string)
    ensures Visible(TrimStart(s)) == Visible(s)
  {
    if s != "" && IsSpace(s[0]) {
      TrimStartKeepsVisible(s[1..]);
    }
  }

  lemma {:induction false} TrimEndKeepsVisible(s: string)
    ensures Visible(TrimEnd(s)) == Visible(s)
  {
    if s != "" && IsSpace(s[|s| - 1]) {
      var t := s[..|s| - 1];
      TrimEndKeepsVisible(t);
      assert s == t + s[|s| - 1..];
      VisibleConcat(t, s[|s| - 1..]);
    }
  }

  lemma TrimKeepsVisible(s: string)
    ensures Visible(Trim(s)) == Visible(s)
    ensures Trim(s) == "" <==> Blank(s)
  {
    TrimStartKeepsVisible(s);
    TrimEndKeepsVisible(TrimStart(s));
  }

  lemma {:induction false} WordsKeepVisible(s: string)
    ensures Visible(Concat(SplitWhitespace(s))) == Visible(s)
    decreases |s|
  {
    hide Visible;
    var t := TrimStart(s);
    TrimStartKeepsVisible(s);
    if t != "" {
      var n := WordLength(t);
      WordsKeepVisible(t[n..]);
      assert t == t[..n] + t[n..];
      VisibleConcat(t[..n], t[n..]);
      ConcatOne(t[..n], SplitWhitespace(t[n..]));
      VisibleConcat(t[..n], Concat(SplitWhitespace(t[n..])));
    }
  }

  lemma {:induction false} LinesKeepVisible(s: string)
    ensures Visible(Concat(Lines(s))) == Visible(s)
    decreases |s|
  {
    hide Visible, Lines, LineLength, LineAt, LineEndAt;
    if s == "" {
      NoLines();
    } else if LineLength(s) == |s| {
      OneLine(s);
      ConcatOne(s, []);
      assert s + "" == s;
    } else {
      var n := LineLength(s);
      LineHasNoEnd(s);
      LineEndsThere(s, n);
      LinesUnfold(s);
      LinesKeepVisible(s[n + 1..]);
      EndIsBlank(s, n);
      VisibleConcat3(LineAt(s, n), LineEndAt(s, n), s[n + 1..]);
      ConcatOne(LineAt(s, n), Lines(s[n + 1..]));
      VisibleConcat(LineAt(s, n), Concat(Lines(s[n + 1..])));
    }
  }

  lemma EndIsBlank(s: string, n: nat)
    requires n < |s| && s[n] == '\n'
    ensures Blank(LineEndAt(s, n))
  {
  }

  lemma ConcatOne(part: string, parts: seq<string>)
    ensures Concat([part] + parts) == part + Concat(parts)
    ensures [part] + [] == [part]
  {
    assert ([part] + parts)[1..] == parts;
  }
}
