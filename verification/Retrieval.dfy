/**
 Retrieval after ranking: graph fusion, cross-layer deduplication, and the packing of results into
 a character budget by maximal marginal relevance.

 Scores are reals.  A record carries the token set that the similarity measure extracts from its
 text, and the text of its content with whitespace runs already collapsed to single spaces, which
 is what deduplication hashes.  The hash is taken to be injective.
 */
module Retrieval {

  import opened Sequences

  datatype Memory = Memory(
    id: string,
    title: string,
    content: string,
    tags: seq<string>,
    tokens: set<string>,
    kind: string,
    words: string,
    precedence: nat,
    updatedAtMs: int)

  datatype Ranked = Ranked(memory: Memory, score: real)

  ghost predicate DistinctIds(ranked: seq<Ranked>)
  {
    forall i, j :: 0 <= i < j < |ranked| ==> ranked[i].memory.id != ranked[j].memory.id
  }

  // ---------------------------------------------------------------- order on ids

  /** Strict lexicographic order, as `str::cmp`. */
  predicate Before(a: string, b: string)
  {
    b != "" && (a == "" || a[0] < b[0] || (a[0] == b[0] && Before(a[1..], b[1..])))
  }

  lemma {:induction false} BeforeTotal(a: string, b: string)
    ensures Before(a, b) || Before(b, a) || a == b
    ensures !(Before(a, b) && Before(b, a))
    ensures !Before(a, a)
  {
    if a != "" && b != "" {
      BeforeTotal(a[1..], b[1..]);
      if a[0] == b[0] && a[1..] == b[1..] {
        HeadTail(a);
        HeadTail(b);
      }
    }
    if a != "" {
      BeforeTotal(a[1..], a[1..]);
    }
  }

  lemma {:induction false} BeforeTransitive(a: string, b: string, c: string)
    requires Before(a, b) && Before(b, c)
    ensures Before(a, c)
  {
    if a != "" && a[0] == b[0] == c[0] {
      BeforeTransitive(a[1..], b[1..], c[1..]);
    }
  }

  // ---------------------------------------------------------------- maximal marginal relevance

  function Max(a: real, b: real): real
  {
    if a < b then b else a
  }

  /** `bounded_usize_f32`. */
  function Bounded16(n: nat): real
  {
    if n <= 65535 then n as real else 65535.0
  }

  /** `memory_similarity`: the Jaccard index of the token sets. */
  function Similarity(a: Memory, b: Memory): real
  {
    if a.tokens == {} || b.tokens == {} then 0.0
    else Bounded16(|a.tokens * b.tokens|) / Max(Bounded16(|a.tokens + b.tokens|), 1.0)
  }

  function Closest(m: Memory, selected: seq<Memory>): real
  {
    if selected == [] then 0.0
    else Max(Closest(m, selected[..|selected| - 1]), Similarity(m, selected[|selected| - 1]))
  }

  function Relevance(c: Ranked, selected: seq<Memory>): real
  {
    0.75 * c.score - 0.25 * Closest(c.memory, selected)
  }

  /** `a` loses to `b`: by relevance, then by score, then by the greater id. */
  predicate Loses(a: Ranked, b: Ranked, selected: seq<Memory>)
  {
    var ra, rb := Relevance(a, selected), Relevance(b, selected);
    ra < rb || (ra == rb && (a.score < b.score || (a.score == b.score && Before(b.memory.id, a.memory.id))))
  }

  lemma LosesTotal(a: Ranked, b: Ranked, selected: seq<Memory>)
    ensures a.memory.id != b.memory.id ==> Loses(a, b, selected) || Loses(b, a, selected)
    ensures !(Loses(a, b, selected) && Loses(b, a, selected))
  {
    BeforeTotal(a.memory.id, b.memory.id);
  }

  lemma LosesTransitive(a: Ranked, b: Ranked, c: Ranked, selected: seq<Memory>)
    requires Loses(a, b, selected) && Loses(b, c, selected)
    ensures Loses(a, c, selected)
  {
    if a.score == b.score == c.score && Relevance(a, selected) == Relevance(c, selected) {
      BeforeTransitive(c.memory.id, b.memory.id, a.memory.id);
    }
  }

  function Total(parts: seq<string>): nat
  {
    if parts == [] then 0 else |parts[0]| + Total(parts[1..])
  }

  /** `estimate_memory_chars`. */
  function Estimate(m: Memory): (n: nat)
    ensures n >= 320
  {
    |m.title| + |m.content| + Total(m.tags) + 320
  }

  function Used(selected: seq<Memory>): nat
  {
    if selected == [] then 0 else Used(selected[..|selected| - 1]) + Estimate(selected[|selected| - 1])
  }

  /** The candidates that could still be picked after `selected`. */
  ghost predicate Eligible(c: Ranked, pool: set<Ranked>, selected: seq<Memory>, budget: nat)
  {
    c in pool && c.memory !in selected && Used(selected) + Estimate(c.memory) <= budget
  }

  /** What a selection is, without saying how it is found: each pick is the best of all candidates
      that still fit the budget when it is made, there are at most `max` picks, and if there are
      fewer, nothing that is left fits. */
  ghost predicate IsMmrSelection(selected: seq<Memory>, pool: set<Ranked>, max: nat, budget: nat)
  {
    && |selected| <= max
    && (forall i :: 0 <= i < |selected| ==> IsBestPick(selected[i], pool, selected[..i], budget))
    && (|selected| < max ==> forall c <- pool :: !Eligible(c, pool, selected, budget))
  }

  ghost predicate IsBestPick(pick: Memory, pool: set<Ranked>, selected: seq<Memory>, budget: nat)
  {
    exists best <- pool ::
      && best.memory == pick
      && Eligible(best, pool, selected, budget)
      && forall c <- pool :: c != best && Eligible(c, pool, selected, budget) ==> Loses(c, best, selected)
  }

  function PoolOf(candidates: seq<Ranked>): set<Ranked>
  {
    set c | c in candidates
  }

  /** There is only one selection. */
  lemma {:induction false} MmrSelectionIsUnique(a: seq<Memory>, b: seq<Memory>, pool: set<Ranked>, max: nat, budget: nat)
    requires IsMmrSelection(a, pool, max, budget) && IsMmrSelection(b, pool, max, budget)
    ensures a == b
  {
    hide IsMmrSelection;
    AgreeUpTo(a, b, pool, max, budget, |a|);
    AgreeUpTo(b, a, pool, max, budget, |b|);
    assert a[..|a|] == a && b[..|b|] == b;
  }

  lemma {:induction false} AgreeUpTo(a: seq<Memory>, b: seq<Memory>, pool: set<Ranked>, max: nat, budget: nat, n: nat)
    requires IsMmrSelection(a, pool, max, budget) && IsMmrSelection(b, pool, max, budget)
    requires n <= |a|
    ensures n <= |b| && a[..n] == b[..n]
  {
    hide IsBestPick, Eligible;
    if n > 0 {
      AgreeUpTo(a, b, pool, max, budget, n - 1);
      assert IsBestPick(a[n - 1], pool, a[..n - 1], budget);
      BestPickIsEligible(a[n - 1], pool, a[..n - 1], budget);
      assert b[..|b|] == b;
      assert IsBestPick(b[n - 1], pool, b[..n - 1], budget);
      BestPicksAgree(a[n - 1], b[n - 1], pool, a[..n - 1], budget);
      assert a[..n] == a[..n - 1] + [a[n - 1]] && b[..n] == b[..n - 1] + [b[n - 1]];
    }
  }

  lemma BestPickIsEligible(pick: Memory, pool: set<Ranked>, selected: seq<Memory>, budget: nat)
    requires IsBestPick(pick, pool, selected, budget)
    ensures exists c <- pool :: Eligible(c, pool, selected, budget)
  {
  }

  lemma BestPicksAgree(p: Memory, q: Memory, pool: set<Ranked>, selected: seq<Memory>, budget: nat)
    requires IsBestPick(p, pool, selected, budget) && IsBestPick(q, pool, selected, budget)
    ensures p == q
  {
    hide Loses, Eligible;
    var x :| x in pool && x.memory == p && Eligible(x, pool, selected, budget)
             && forall c <- pool :: c != x && Eligible(c, pool, selected, budget) ==> Loses(c, x, selected);
    var y :| y in pool && y.memory == q && Eligible(y, pool, selected, budget)
             && forall c <- pool :: c != y && Eligible(c, pool, selected, budget) ==> Loses(c, y, selected);
    LosesTotal(x, y, selected);
  }

  /** Order-independence: for candidates with the same members, whatever their order, the picks and
      the characters used are the same. */
  lemma OrderIndependence(first: seq<Ranked>, second: seq<Ranked>, a: seq<Memory>, b: seq<Memory>,
                          max: nat, budget: nat)
    requires multiset(first) == multiset(second)
    requires IsMmrSelection(a, PoolOf(first), max, budget)
    requires IsMmrSelection(b, PoolOf(second), max, budget)
    ensures a == b && Used(a) == Used(b)
  {
    forall c ensures c in PoolOf(first) <==> c in PoolOf(second)
    {
      assert c in first <==> c in multiset(first);
      assert c in second <==> c in multiset(second);
    }
    assert PoolOf(first) == PoolOf(second);
    MmrSelectionIsUnique(a, b, PoolOf(first), max, budget);
  }

  /** `max_by` over the candidates of one round. */
  method BestIndex(candidates: seq<Ranked>, selected: seq<Memory>) returns (best: nat)
    requires candidates != [] && DistinctIds(candidates)
    ensures best < |candidates|
    ensures forall i :: 0 <= i < |candidates| && i != best ==> Loses(candidates[i], candidates[best], selected)
  {
    best := 0;
    for i := 1 to |candidates|
      invariant best < i
      invariant forall k :: 0 <= k < i && k != best ==> Loses(candidates[k], candidates[best], selected)
    {
      hide Loses;
      LosesTotal(candidates[best], candidates[i], selected);
      if !Loses(candidates[i], candidates[best], selected) {
        forall k | 0 <= k < i && k != best ensures Loses(candidates[k], candidates[i], selected)
        {
          LosesTransitive(candidates[k], candidates[best], candidates[i], selected);
        }
        best := i;
      }
    }
  }

  /** `swap_remove`: the last element takes the place of the removed one. */
  function SwapRemove<T>(s: seq<T>, index: nat): seq<T>
    requires index < |s|
  {
    s[index := s[|s| - 1]][..|s| - 1]
  }

  lemma SwapRemoveKeeps(candidates: seq<Ranked>, index: nat)
    requires index < |candidates| && DistinctIds(candidates)
    ensures DistinctIds(SwapRemove(candidates, index))
    ensures PoolOf(SwapRemove(candidates, index)) == PoolOf(candidates) - {candidates[index]}
  {
    var s := SwapRemove(candidates, index);
    var last := |candidates| - 1;
    forall c ensures c in s <==> c in candidates && c != candidates[index]
    {
      if c in candidates && c != candidates[index] {
        var i :| 0 <= i < |candidates| && candidates[i] == c;
        assert s[if i == last then index else i] == c;
      }
    }
  }

  /** What holds between rounds: the working vector holds exactly the candidates not yet taken out,
      and those taken out are selected or no longer fit. */
  ghost predicate RoundInvariant(working: set<Ranked>, pool: set<Ranked>, selected: seq<Memory>, budget: nat)
  {
    && working <= pool
    && Used(selected) <= budget
    && (forall c <- working :: c.memory !in selected)
    && (forall c <- pool :: c !in working && c.memory !in selected ==> Used(selected) + Estimate(c.memory) > budget)
    && (forall i :: 0 <= i < |selected| ==> IsBestPick(selected[i], pool, selected[..i], budget))
  }

  lemma RoundSkips(working: set<Ranked>, pool: set<Ranked>, selected: seq<Memory>, budget: nat, best: Ranked)
    requires RoundInvariant(working, pool, selected, budget) && best in working
    requires Used(selected) + Estimate(best.memory) > budget
    ensures RoundInvariant(working - {best}, pool, selected, budget)
  {
  }

  lemma RoundPicks(working: set<Ranked>, pool: set<Ranked>, selected: seq<Memory>, budget: nat, best: Ranked)
    requires RoundInvariant(working, pool, selected, budget) && best in working
    requires forall c <- working :: c != best ==> Loses(c, best, selected) && c.memory != best.memory
    requires Used(selected) + Estimate(best.memory) <= budget
    ensures RoundInvariant(working - {best}, pool, selected + [best.memory], budget)
    ensures Used(selected + [best.memory]) == Used(selected) + Estimate(best.memory)
  {
    hide Loses, Estimate, IsBestPick;
    var longer := selected + [best.memory];
    BestOfWorking(working, pool, selected, budget, best);
    assert longer[..|longer| - 1] == selected;
    PicksGrow(selected, best.memory, pool, budget);
    LeftOutGrows(working, pool, selected, budget, best);
  }

  lemma PicksGrow(selected: seq<Memory>, pick: Memory, pool: set<Ranked>, budget: nat)
    requires forall i :: 0 <= i < |selected| ==> IsBestPick(selected[i], pool, selected[..i], budget)
    requires IsBestPick(pick, pool, selected, budget)
    ensures var longer := selected + [pick];
            forall i :: 0 <= i < |longer| ==> IsBestPick(longer[i], pool, longer[..i], budget)
  {
    hide IsBestPick;
    var longer := selected + [pick];
    assert longer[..|selected|] == selected;
    forall i | 0 <= i < |longer| ensures IsBestPick(longer[i], pool, longer[..i], budget)
    {
      if i < |selected| {
        assert longer[..i] == selected[..i];
      }
    }
  }

  lemma LeftOutGrows(working: set<Ranked>, pool: set<Ranked>, selected: seq<Memory>, budget: nat, best: Ranked)
    requires forall c <- pool :: c !in working && c.memory !in selected ==> Used(selected) + Estimate(c.memory) > budget
    ensures var longer := selected + [best.memory];
            forall c <- pool :: c !in working - {best} && c.memory !in longer ==> Used(longer) + Estimate(c.memory) > budget
  {
    hide Estimate;
    var longer := selected + [best.memory];
    assert longer[..|longer| - 1] == selected;
    forall c | c in pool && c !in working - {best} && c.memory !in longer
      ensures Used(longer) + Estimate(c.memory) > budget
    {
      assert c.memory !in selected;
    }
  }

  lemma BestOfWorking(working: set<Ranked>, pool: set<Ranked>, selected: seq<Memory>, budget: nat, best: Ranked)
    requires RoundInvariant(working, pool, selected, budget) && best in working
    requires forall c <- working :: c != best ==> Loses(c, best, selected)
    requires Used(selected) + Estimate(best.memory) <= budget
    ensures IsBestPick(best.memory, pool, selected, budget)
  {
    hide Loses, Estimate, Used;
    assert Eligible(best, pool, selected, budget);
  }

  /** `select_mmr`.  The result is a selection in the sense above, so it does not depend on the order
      of the candidates, although every round reorders the working vector. */
  method SelectMmr(input: seq<Ranked>, maxResults: nat, budgetChars: nat)
    returns (selected: seq<Memory>, usedChars: nat)
    requires DistinctIds(input)
    ensures IsMmrSelection(selected, PoolOf(input), maxResults, budgetChars)
    ensures usedChars == Used(selected) <= budgetChars
  {
    var candidates := input;
    selected, usedChars := [], 0;
    while candidates != [] && |selected| < maxResults
      invariant DistinctIds(candidates)
      invariant |selected| <= maxResults && usedChars == Used(selected)
      invariant RoundInvariant(PoolOf(candidates), PoolOf(input), selected, budgetChars)
      decreases |candidates|
    {
      hide RoundInvariant, Loses, Used, Estimate;
      var index := BestIndex(candidates, selected);
      var candidate := candidates[index];
      ghost var working := PoolOf(candidates);
      OthersLose(candidates, index, selected);
      SwapRemoveKeeps(candidates, index);
      candidates := SwapRemove(candidates, index);
      var estimated := Estimate(candidate.memory);
      if usedChars + estimated > budgetChars {
        RoundSkips(working, PoolOf(input), selected, budgetChars, candidate);
        continue;
      }
      RoundPicks(working, PoolOf(input), selected, budgetChars, candidate);
      usedChars := usedChars + estimated;
      selected := selected + [candidate.memory];
    }
  }

  lemma OthersLose(candidates: seq<Ranked>, index: nat, selected: seq<Memory>)
    requires index < |candidates| && DistinctIds(candidates)
    requires forall i :: 0 <= i < |candidates| && i != index ==> Loses(candidates[i], candidates[index], selected)
    ensures forall c <- PoolOf(candidates) :: c != candidates[index] ==>
      Loses(c, candidates[index], selected) && c.memory != candidates[index].memory
  {
  }

  /** A selection is a maximal packing: distinct records of the candidates, within the budget, and when
      there are fewer than asked for, no record that was left out fits what remains of it. */
  lemma SelectionIsMaximalPacking(selected: seq<Memory>, input: seq<Ranked>, max: nat, budget: nat)
    requires IsMmrSelection(selected, PoolOf(input), max, budget)
    ensures |selected| <= max && Used(selected) <= budget
    ensures forall i :: 0 <= i < |selected| ==> exists c <- input :: c.memory == selected[i]
    ensures forall i, j :: 0 <= i < j < |selected| ==> selected[i] != selected[j]
    ensures |selected| < max ==>
              forall c <- input :: c.memory !in selected ==> Used(selected) + Estimate(c.memory) > budget
  {
    hide Loses, Estimate;
    forall i | 0 <= i < |selected|
      ensures exists c <- input :: c.memory == selected[i]
      ensures selected[i] !in selected[..i] && Used(selected[..i]) + Estimate(selected[i]) <= budget
    {
      assert IsBestPick(selected[i], PoolOf(input), selected[..i], budget);
    }
    forall i, j | 0 <= i < j < |selected|
      ensures selected[i] != selected[j]
    {
      assert selected[i] == selected[..j][i];
    }
    if |selected| < max {
      forall c | c in input && c.memory !in selected
        ensures Used(selected) + Estimate(c.memory) > budget
      {
        assert !Eligible(c, PoolOf(input), selected, budget);
      }
    }
  }

  // ---------------------------------------------------------------- what a pick is worth

  /** The Jaccard index: as long as the counts fit 16 bits, the number of common tokens over the number of all;
      symmetric and within [0, 1]; 0 exactly for records without a common token, and 1 for equal tokens. */
  lemma SimilarityIsJaccard(a: Memory, b: Memory)
    ensures Similarity(a, b) == Similarity(b, a) && 0.0 <= Similarity(a, b) <= 1.0
    ensures Similarity(a, b) == 0.0 <==> a.tokens * b.tokens == {}
    ensures a.tokens == b.tokens != {} ==> Similarity(a, b) == 1.0
    ensures |a.tokens + b.tokens| <= 65535 ==>
              Similarity(a, b) * (|a.tokens + b.tokens| as real) == |a.tokens * b.tokens| as real
    ensures |a.tokens * b.tokens| >= 65535 ==> Similarity(a, b) == 1.0
  {
    assert a.tokens * b.tokens == b.tokens * a.tokens && a.tokens + b.tokens == b.tokens + a.tokens;
    CommonAreFewer(a.tokens, b.tokens);
    if a.tokens != {} && b.tokens != {} {
      var x, y := Bounded16(|a.tokens * b.tokens|), Bounded16(|a.tokens + b.tokens|);
      assert |a.tokens + b.tokens| >= 1 && y >= 1.0 && 0.0 <= x <= y;
      QuotientInUnit(x, y);
      if a.tokens == b.tokens {
        assert a.tokens * b.tokens == a.tokens == a.tokens + b.tokens;
      }
    } else {
      assert a.tokens * b.tokens == {};
    }
  }

  lemma CommonAreFewer(a: set<string>, b: set<string>)
    ensures |a * b| <= |a + b| && (a != {} ==> |a + b| >= 1) && (|a * b| == 0 <==> a * b == {})
  {
    assert a + b == (a * b) + ((a + b) - (a * b));
    assert a != {} ==> a + b != {};
  }

  lemma QuotientInUnit(x: real, y: real)
    requires 0.0 <= x <= y && y >= 1.0
    ensures 0.0 <= x / y <= 1.0 && (x / y == 0.0 <==> x == 0.0) && (x == y ==> x / y == 1.0) && x / y * y == x
  {
    var q := x / y;
    assert q * y == x;
    NoMoreThanOne(q, y);
    NotNegative(q, y);
  }

  lemma NoMoreThanOne(q: real, y: real)
    requires y > 0.0 && q * y <= y
    ensures q <= 1.0
  {
    assert q > 1.0 ==> (q - 1.0) * y > 0.0;
    assert q * y == (q - 1.0) * y + y;
  }

  lemma NotNegative(q: real, y: real)
    requires y > 0.0 && q * y >= 0.0
    ensures q >= 0.0
  {
    assert q < 0.0 ==> q * y < 0.0;
  }

  /** How similar a record is to the selection: the largest similarity to a selected record, and 0 if there is
      none. */
  ghost predicate IsClosest(m: Memory, selected: seq<Memory>, sim: real)
  {
    && (forall s <- selected :: Similarity(m, s) <= sim)
    && (if selected == [] then sim == 0.0 else exists s <- selected :: Similarity(m, s) == sim)
  }

  lemma {:induction false} ClosestIsLargest(m: Memory, selected: seq<Memory>)
    ensures IsClosest(m, selected, Closest(m, selected))
    decreases |selected|
  {
    if selected != [] {
      hide Similarity;
      var front, last := selected[..|selected| - 1], selected[|selected| - 1];
      ClosestIsLargest(m, front);
      SimilarityIsJaccard(m, last);
      assert selected == front + [last];
    }
  }

  lemma ClosestIsOne(m: Memory, selected: seq<Memory>, a: real, b: real)
    requires IsClosest(m, selected, a) && IsClosest(m, selected, b)
    ensures a == b
  {
    hide Similarity;
  }

  /** What every pick is worth: against any other candidate that still fitted when it was picked, three times what
      the other has more in score is no more than what it has more in similarity to the picks before; in a draw the
      pick has the greater score or, with equal scores, the smaller id. */
  lemma PicksAreWorthIt(selected: seq<Memory>, pool: set<Ranked>, max: nat, budget: nat, i: nat) returns (pick: Ranked)
    requires IsMmrSelection(selected, pool, max, budget) && i < |selected|
    ensures pick in pool && pick.memory == selected[i]
    ensures forall other, mine, its |
              && other in pool && other != pick && other.memory !in selected[..i]
              && Used(selected[..i]) + Estimate(other.memory) <= budget
              && IsClosest(pick.memory, selected[..i], mine) && IsClosest(other.memory, selected[..i], its) ::
              && 3.0 * (other.score - pick.score) <= its - mine
              && (3.0 * (other.score - pick.score) == its - mine ==>
                    other.score < pick.score || (other.score == pick.score && Before(pick.memory.id, other.memory.id)))
  {
    hide Similarity, Closest, Estimate, Used, IsClosest;
    assert IsBestPick(selected[i], pool, selected[..i], budget);
    pick :| pick in pool && pick.memory == selected[i] && Eligible(pick, pool, selected[..i], budget)
            && forall c <- pool :: c != pick && Eligible(c, pool, selected[..i], budget) ==> Loses(c, pick, selected[..i]);
    forall other, mine, its |
      && other in pool && other != pick && other.memory !in selected[..i]
      && Used(selected[..i]) + Estimate(other.memory) <= budget
      && IsClosest(pick.memory, selected[..i], mine) && IsClosest(other.memory, selected[..i], its)
      ensures 3.0 * (other.score - pick.score) <= its - mine
      ensures 3.0 * (other.score - pick.score) == its - mine ==>
                other.score < pick.score || (other.score == pick.score && Before(pick.memory.id, other.memory.id))
    {
      assert Eligible(other, pool, selected[..i], budget);
      ClosestIsLargest(pick.memory, selected[..i]);
      ClosestIsLargest(other.memory, selected[..i]);
      ClosestIsOne(pick.memory, selected[..i], mine, Closest(pick.memory, selected[..i]));
      ClosestIsOne(other.memory, selected[..i], its, Closest(other.memory, selected[..i]));
      LosingInNumbers(other, pick, selected[..i]);
    }
  }

  lemma LosingInNumbers(a: Ranked, b: Ranked, selected: seq<Memory>)
    requires Loses(a, b, selected)
    ensures var d, e := 3.0 * (a.score - b.score), Closest(a.memory, selected) - Closest(b.memory, selected);
            && d <= e
            && (d == e ==> a.score < b.score || (a.score == b.score && Before(b.memory.id, a.memory.id)))
  {
    hide Closest;
  }

  function Text(parts: seq<string>): string
  {
    if parts == [] then "" else parts[0] + Text(parts[1..])
  }

  /** What a record takes of the budget: the characters of its title, its content and its tags, and 320 more. */
  lemma {:induction false} TotalIsLength(parts: seq<string>)
    ensures Total(parts) == |Text(parts)|
  {
    if parts != [] {
      TotalIsLength(parts[1..]);
    }
  }

  lemma {:induction false} UsedIsLength(selected: seq<Memory>) returns (texts: seq<string>)
    ensures |texts| == |selected| && forall i :: 0 <= i < |texts| ==>
              texts[i] == selected[i].title + selected[i].content + Text(selected[i].tags)
    ensures Used(selected) == |Text(texts)| + 320 * |selected|
    decreases |selected|
  {
    if selected == [] {
      texts := [];
    } else {
      var n := |selected| - 1;
      var last := selected[n];
      var front := UsedIsLength(selected[..n]);
      TotalIsLength(last.tags);
      texts := front + [last.title + last.content + Text(last.tags)];
      TextSnoc(front, last.title + last.content + Text(last.tags));
    }
  }

  lemma {:induction false} TextSnoc(parts: seq<string>, part: string)
    ensures Text(parts + [part]) == Text(parts) + part
  {
    if parts == [] {
      assert [part][1..] == [] && [] + [part] == [part] && part + "" == part && "" + part == part;
    } else {
      assert (parts + [part])[1..] == parts[1..] + [part];
      TextSnoc(parts[1..], part);
      assert parts[0] + (Text(parts[1..]) + part) == parts[0] + Text(parts[1..]) + part;
    }
  }

  // ---------------------------------------------------------------- deduplication across layers

  /** What the content key hashes. */
  function ContentKey(c: Ranked): (string, string)
  {
    (c.memory.kind, c.memory.words)
  }

  /** `candidate_priority > existing_priority`: scope precedence, then score, then recency. */
  predicate Outranks(a: Ranked, b: Ranked)
  {
    a.memory.precedence > b.memory.precedence
    || (a.memory.precedence == b.memory.precedence
        && (a.score > b.score || (a.score == b.score && a.memory.updatedAtMs > b.memory.updatedAtMs)))
  }

  /** The map from content key to the best record so far. */
  function Layers(ranked: seq<Ranked>): map<(string, string), Ranked>
  {
    if ranked == [] then map[]
    else
      var m, c := Layers(ranked[..|ranked| - 1]), ranked[|ranked| - 1];
      if ContentKey(c) in m && !Outranks(c, m[ContentKey(c)]) then m else m[ContentKey(c) := c]
  }

  /** The record at i is the one kept for its key: it outranks every earlier record with that key,
      and no later one outranks it. */
  ghost predicate Keeps(ranked: seq<Ranked>, i: nat)
  {
    i < |ranked|
    && (forall j :: 0 <= j < i && ContentKey(ranked[j]) == ContentKey(ranked[i]) ==> Outranks(ranked[i], ranked[j]))
    && (forall j :: i < j < |ranked| && ContentKey(ranked[j]) == ContentKey(ranked[i]) ==> !Outranks(ranked[j], ranked[i]))
  }

  /** Deduplication keeps, for every content key that occurs, the first record of maximal priority,
      and nothing else. */
  lemma {:induction false} LayersKeepFirstMaximum(ranked: seq<Ranked>, k: nat) returns (i: nat)
    requires k < |ranked|
    ensures Keeps(ranked, i) && ContentKey(ranked[i]) == ContentKey(ranked[k])
    ensures ContentKey(ranked[k]) in Layers(ranked) && Layers(ranked)[ContentKey(ranked[k])] == ranked[i]
    ensures forall j :: 0 <= j < |ranked| && ContentKey(ranked[j]) == ContentKey(ranked[k]) ==> !Outranks(ranked[j], ranked[i])
    decreases |ranked|
  {
    var front, last, key := ranked[..|ranked| - 1], |ranked| - 1, ContentKey(ranked[k]);
    if exists j :: 0 <= j < last && ContentKey(ranked[j]) == key {
      var j :| 0 <= j < last && ContentKey(ranked[j]) == key;
      i := LayersKeepFirstMaximum(front, j);
      if ContentKey(ranked[last]) == key && Outranks(ranked[last], ranked[i]) {
        i := last;
      }
    } else {
      NoLayer(front, key);
      i := last;
    }
  }

  lemma {:induction false} NoLayer(ranked: seq<Ranked>, key: (string, string))
    ensures key in Layers(ranked) ==> Layers(ranked)[key] in ranked && ContentKey(Layers(ranked)[key]) == key
    decreases |ranked|
  {
    if ranked != [] {
      var front := ranked[..|ranked| - 1];
      NoLayer(front, key);
    }
  }

  ghost predicate SortedById(ranked: seq<Ranked>)
  {
    forall i, j :: 0 <= i < j < |ranked| ==> Before(ranked[i].memory.id, ranked[j].memory.id)
  }

  ghost predicate HasMember(m: map<(string, string), Ranked>, keys: set<(string, string)>, c: Ranked)
  {
    exists k <- keys :: k in m && m[k] == c
  }

  /** What the deduplicated list is: the kept records, sorted by id. */
  ghost predicate IsDeduplication(values: seq<Ranked>, ranked: seq<Ranked>)
  {
    SortedById(values) && forall c :: c in values <==> HasMember(Layers(ranked), Layers(ranked).Keys, c)
  }

  /** Sorting leaves only one possible list, so the iteration order of the map does not show. */
  lemma DeduplicationIsUnique(a: seq<Ranked>, b: seq<Ranked>, ranked: seq<Ranked>)
    requires IsDeduplication(a, ranked) && IsDeduplication(b, ranked)
    ensures a == b
  {
    forall c ensures c in a <==> c in b
    {
      assert c in a <==> HasMember(Layers(ranked), Layers(ranked).Keys, c);
    }
    SortedIsUnique(a, b);
  }

  lemma {:induction false} SortedIsUnique(a: seq<Ranked>, b: seq<Ranked>)
    requires SortedById(a) && SortedById(b) && forall c :: c in a <==> c in b
    ensures a == b
    decreases |a|
  {
    assert a != [] ==> a[0] in a;
    assert b != [] ==> b[0] in b;
    if a != [] {
      assert a[0] in b && b[0] in a;
      FirstIsLeast(a, b[0]);
      FirstIsLeast(b, a[0]);
      BeforeTotal(a[0].memory.id, b[0].memory.id);
      TailExcludesHead(a);
      TailExcludesHead(b);
      SortedIsUnique(a[1..], b[1..]);
      HeadTail(a);
      HeadTail(b);
    }
  }

  lemma FirstIsLeast(a: seq<Ranked>, c: Ranked)
    requires SortedById(a) && c in a
    ensures c == a[0] || Before(a[0].memory.id, c.memory.id)
  {
  }

  lemma TailExcludesHead(a: seq<Ranked>)
    requires SortedById(a) && a != []
    ensures SortedById(a[1..]) && forall c :: c in a[1..] <==> c in a && c != a[0]
  {
    BeforeTotal(a[0].memory.id, a[0].memory.id);
    HeadTail(a);
  }

  /** No record with the same content outranks this one. */
  ghost predicate Top(c: Ranked, ranked: seq<Ranked>)
  {
    c in ranked && forall d <- ranked :: ContentKey(d) == ContentKey(c) ==> !Outranks(d, c)
  }

  /** Two records with one content share the highest priority. */
  ghost predicate Tie(c: Ranked, d: Ranked, ranked: seq<Ranked>)
  {
    c != d && ContentKey(c) == ContentKey(d) && Top(c, ranked) && Top(d, ranked)
  }

  lemma KeptAreTop(ranked: seq<Ranked>, c: Ranked)
    requires c in ranked
    ensures ContentKey(c) in Layers(ranked) && Top(Layers(ranked)[ContentKey(c)], ranked)
    ensures ContentKey(Layers(ranked)[ContentKey(c)]) == ContentKey(c)
    ensures HasMember(Layers(ranked), Layers(ranked).Keys, c) <==> Layers(ranked)[ContentKey(c)] == c
  {
    hide Outranks, Layers;
    var k :| 0 <= k < |ranked| && ranked[k] == c;
    var i := LayersKeepFirstMaximum(ranked, k);
    if HasMember(Layers(ranked), Layers(ranked).Keys, c) {
      var key :| key in Layers(ranked) && Layers(ranked)[key] == c;
      NoLayer(ranked, key);
    }
  }

  lemma MembersAreInput(ranked: seq<Ranked>, c: Ranked)
    requires HasMember(Layers(ranked), Layers(ranked).Keys, c)
    ensures c in ranked
  {
    var key :| key in Layers(ranked) && Layers(ranked)[key] == c;
    NoLayer(ranked, key);
  }

  /** No record loses to a worse one: for every record of the input the list has one with the same kind and text
      that is not behind it in precedence, nor with equal precedence in score, nor with both equal in recency; and
      the list has nothing but records of the input. */
  lemma DeduplicationKeepsTheBest(values: seq<Ranked>, ranked: seq<Ranked>, d: Ranked) returns (v: Ranked)
    requires IsDeduplication(values, ranked) && d in ranked
    ensures v in values && v.memory.kind == d.memory.kind && v.memory.words == d.memory.words
    ensures v.memory.precedence >= d.memory.precedence
    ensures v.memory.precedence == d.memory.precedence ==> v.score >= d.score
    ensures v.memory.precedence == d.memory.precedence && v.score == d.score ==> v.memory.updatedAtMs >= d.memory.updatedAtMs
    ensures forall w <- values :: w in ranked && (w != v ==> w.memory.kind != d.memory.kind || w.memory.words != d.memory.words)
  {
    KeptAreTop(ranked, d);
    v := Layers(ranked)[ContentKey(d)];
    hide Layers;
    assert HasMember(Layers(ranked), Layers(ranked).Keys, v);
    forall w | w in values
      ensures w in ranked && (w != v ==> w.memory.kind != d.memory.kind || w.memory.words != d.memory.words)
    {
      assert HasMember(Layers(ranked), Layers(ranked).Keys, w);
      MembersAreInput(ranked, w);
      KeptAreTop(ranked, w);
    }
  }

  /** Without a tie the kept records are those that nothing outranks. */
  lemma MembersWithoutTie(ranked: seq<Ranked>, c: Ranked)
    requires forall x, y :: !Tie(x, y, ranked)
    ensures HasMember(Layers(ranked), Layers(ranked).Keys, c) <==> Top(c, ranked)
  {
    hide Layers, HasMember;
    if HasMember(Layers(ranked), Layers(ranked).Keys, c) {
      MembersAreInput(ranked, c);
    }
    if c in ranked {
      KeptAreTop(ranked, c);
      assert !Tie(c, Layers(ranked)[ContentKey(c)], ranked);
    }
  }

  /** Without a tie the order of the ranked records does not show in the result. */
  lemma OrderHiddenWithoutTie(first: seq<Ranked>, second: seq<Ranked>, a: seq<Ranked>, b: seq<Ranked>)
    requires (forall c :: c in first <==> c in second) && (forall x, y :: !Tie(x, y, first))
    requires IsDeduplication(a, first) && IsDeduplication(b, second)
    ensures a == b
  {
    hide Layers, HasMember, Outranks;
    forall c ensures Top(c, first) <==> Top(c, second)
    {
    }
    forall x, y ensures !Tie(x, y, second)
    {
      assert !Tie(x, y, first);
    }
    forall c ensures c in a <==> c in b
    {
      MembersWithoutTie(first, c);
      MembersWithoutTie(second, c);
    }
    SortedIsUnique(a, b);
  }

  /** With a tie it does: with the losing record of the tie moved to the front, that record is kept
      instead, so the result is another one. */
  lemma OrderShowsWithTie(first: seq<Ranked>, c: Ranked, d: Ranked) returns (second: seq<Ranked>)
    requires DistinctIds(first) && Tie(c, d, first)
    ensures multiset(first) == multiset(second) && DistinctIds(second)
    ensures forall a, b :: IsDeduplication(a, first) && IsDeduplication(b, second) ==> a != b
  {
    hide Layers, HasMember, Outranks;
    KeptAreTop(first, c);
    KeptAreTop(first, d);
    var loser := if Layers(first)[ContentKey(c)] == c then d else c;
    second := ToFront(first, loser);
    FirstOfTieIsKept(second);
    KeptAreTop(second, loser);
  }

  lemma ToFront(first: seq<Ranked>, c: Ranked) returns (second: seq<Ranked>)
    requires c in first && DistinctIds(first)
    ensures multiset(first) == multiset(second) && second != [] && second[0] == c && DistinctIds(second)
    ensures forall x :: x in first <==> x in second
  {
    hide DistinctIds;
    var j :| 0 <= j < |first| && first[j] == c;
    var rest := first[..j] + first[j + 1..];
    second := [c] + rest;
    assert first == first[..j] + [c] + first[j + 1..];
    forall x ensures x in first <==> x in second
    {
      assert x in first <==> x in multiset(first);
      assert x in second <==> x in multiset(second);
    }
    DistinctToFront(first, j);
  }

  lemma DistinctToFront(first: seq<Ranked>, j: nat)
    requires j < |first| && DistinctIds(first)
    ensures DistinctIds([first[j]] + (first[..j] + first[j + 1..]))
  {
    var rest := first[..j] + first[j + 1..];
    assert forall k :: 0 <= k < |rest| ==> rest[k] == first[if k < j then k else k + 1];
  }

  lemma FirstOfTieIsKept(ranked: seq<Ranked>)
    requires ranked != [] && Top(ranked[0], ranked)
    ensures ContentKey(ranked[0]) in Layers(ranked) && Layers(ranked)[ContentKey(ranked[0])] == ranked[0]
  {
    hide Layers, Outranks;
    var i := LayersKeepFirstMaximum(ranked, 0);
    assert Outranks(ranked[i], ranked[0]) ==> i == 0;
  }

  /** One insertion of the sort. */
  method InsertById(values: seq<Ranked>, c: Ranked) returns (longer: seq<Ranked>)
    requires SortedById(values) && forall v <- values :: v.memory.id != c.memory.id
    ensures SortedById(longer) && forall x :: x in longer <==> x in values || x == c
  {
    var i := 0;
    while i < |values| && Before(values[i].memory.id, c.memory.id)
      invariant i <= |values|
      invariant forall k :: 0 <= k < i ==> Before(values[k].memory.id, c.memory.id)
    {
      i := i + 1;
    }
    hide Before;
    longer := values[..i] + [c] + values[i..];
    if i < |values| {
      BeforeTotal(values[i].memory.id, c.memory.id);
      forall k | i < k < |values| ensures Before(c.memory.id, values[k].memory.id)
      {
        BeforeTransitive(c.memory.id, values[i].memory.id, values[k].memory.id);
      }
    }
    assert values == values[..i] + values[i..];
  }

  /** `deduplicate_layers`: a map from content key to the best record so far, then its values sorted.
      The map is drained in an arbitrary order. */
  method DeduplicateLayers(ranked: seq<Ranked>) returns (values: seq<Ranked>)
    requires DistinctIds(ranked)
    ensures IsDeduplication(values, ranked)
  {
    var deduplicated: map<(string, string), Ranked> := map[];
    for n := 0 to |ranked|
      invariant deduplicated == Layers(ranked[..n])
    {
      var candidate := ranked[n];
      var key := ContentKey(candidate);
      assert ranked[..n + 1][..n] == ranked[..n];
      if key in deduplicated {
        if Outranks(candidate, deduplicated[key]) {
          deduplicated := deduplicated[key := candidate];
        }
      } else {
        deduplicated := deduplicated[key := candidate];
      }
    }
    assert ranked[..|ranked|] == ranked;
    values := [];
    ghost var drained: set<(string, string)> := {};
    var keys := deduplicated.Keys;
    while keys != {}
      invariant drained + keys == deduplicated.Keys && drained !! keys
      invariant SortedById(values)
      invariant forall c :: c in values <==> HasMember(deduplicated, drained, c)
      decreases keys
    {
      hide SortedById, Layers, HasMember;
      var k :| k in keys;
      forall v | v in values ensures v.memory.id != deduplicated[k].memory.id
      {
        LayersHaveDistinctIds(ranked, drained, k, v);
      }
      HasMemberGrows(deduplicated, drained, k);
      keys := keys - {k};
      drained := drained + {k};
      values := InsertById(values, deduplicated[k]);
    }
    assert drained == Layers(ranked).Keys;
  }

  lemma HasMemberGrows(m: map<(string, string), Ranked>, keys: set<(string, string)>, k: (string, string))
    requires k in m
    ensures forall c :: HasMember(m, keys + {k}, c) <==> HasMember(m, keys, c) || c == m[k]
  {
    assert k in keys + {k};
  }

  lemma LayersHaveDistinctIds(ranked: seq<Ranked>, keys: set<(string, string)>, k: (string, string), v: Ranked)
    requires DistinctIds(ranked) && k in Layers(ranked) && k !in keys && HasMember(Layers(ranked), keys, v)
    ensures v.memory.id != Layers(ranked)[k].memory.id
  {
    var j :| j in keys && j in Layers(ranked) && Layers(ranked)[j] == v;
    NoLayer(ranked, j);
    NoLayer(ranked, k);
  }
}
