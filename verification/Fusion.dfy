/** Fusing the knowledge-graph channel into the ranked candidates, with real arithmetic. */
module Fusion {

  import opened Retrieval
  import opened Sequences
  import opened Wrappers

  /** What `graph_memory_record` finds for an id: nothing eligible, a record, or a storage failure. */
  datatype GraphLookup = Absent | Found(memory: Memory) | Failed

  const MAX_SEARCH_RESULTS := 20
  const ABSTENTION_THRESHOLD := 0.42
  const GRAPH_RRF_WEIGHT := 0.25
  const GRAPH_ONLY_RRF_WEIGHT := 0.45

  /** `reciprocal_rank`; ranks beyond 16 bits count as the largest 16-bit rank. */
  function ReciprocalRank(rank: nat): (r: real)
    ensures 0.0 < r <= 1.0
  {
    61.0 / (61.0 + Bounded16(rank))
  }

  function Clamp(x: real): real
  {
    if x < 0.0 then 0.0 else if x > 1.0 then 1.0 else x
  }

  /** `graph_fused_score`. */
  function FusedScore(normal: real, rrf: real): real
  {
    if normal > 0.0 then Clamp(normal * (1.0 - GRAPH_RRF_WEIGHT) + rrf * GRAPH_RRF_WEIGHT)
    else Clamp(rrf * GRAPH_ONLY_RRF_WEIGHT)
  }

  function Threshold(minScore: real): real
  {
    Max(minScore, ABSTENTION_THRESHOLD)
  }

  /** The rank of an id in the graph channel: its last position. */
  function RankOf(graphIds: seq<string>, id: string): Option<nat>
  {
    if graphIds == [] then None
    else if graphIds[|graphIds| - 1] == id then Some(|graphIds| - 1)
    else RankOf(graphIds[..|graphIds| - 1], id)
  }

  /** The score of a candidate once the graph channel is fused in. */
  function Rescored(c: Ranked, graphIds: seq<string>): Ranked
  {
    match RankOf(graphIds, c.memory.id)
    case None => c
    case Some(rank) => c.(score := FusedScore(c.score, ReciprocalRank(rank)))
  }

  ghost predicate HasId(ranked: seq<Ranked>, id: string)
  {
    exists c <- ranked :: c.memory.id == id
  }

  ghost predicate Faithful(lookup: string -> GraphLookup)
  {
    forall id: string :: lookup(id).Found? ==> lookup(id).memory.id == id
  }

  /** The candidates before filtering: the ranked ones, and the eligible records only the graph knows. */
  ghost predicate Considered(c: Ranked, ranked: seq<Ranked>, graphIds: seq<string>, lookup: string -> GraphLookup)
  {
    c in ranked
    || (c.memory.id in graphIds && !HasId(ranked, c.memory.id)
        && lookup(c.memory.id) == Found(c.memory) && c.score == 0.0)
  }

  ghost predicate Survives(o: Ranked, ranked: seq<Ranked>, graphIds: seq<string>, lookup: string -> GraphLookup, t: real)
  {
    o.score >= t && exists c :: Considered(c, ranked, graphIds, lookup) && Rescored(c, graphIds) == o
  }

  /** The record of a candidate is still there after fusing, under whatever score. */
  ghost predicate Remains(c: Ranked, ranked: seq<Ranked>, graphIds: seq<string>, lookup: string -> GraphLookup, t: real)
  {
    exists o: Ranked :: o.memory.id == c.memory.id && Survives(o, ranked, graphIds, lookup, t)
  }

  ghost predicate RescoredFrom(o: Ranked, candidates: seq<Ranked>, graphIds: seq<string>)
  {
    exists c <- candidates :: Rescored(c, graphIds) == o
  }

  // ---------------------------------------------------------------- the fused list

  ghost predicate Joins(id: string, input: seq<Ranked>, earlier: seq<string>, lookup: string -> GraphLookup)
  {
    id !in earlier && !HasId(input, id) && lookup(id).Found?
  }

  /** The records that only the graph knows, in the order in which it first names them. */
  ghost function GraphOnly(input: seq<Ranked>, graphIds: seq<string>, lookup: string -> GraphLookup): seq<Ranked>
  {
    if graphIds == [] then []
    else
      var earlier, id := graphIds[..|graphIds| - 1], graphIds[|graphIds| - 1];
      GraphOnly(input, earlier, lookup)
      + if Joins(id, input, earlier, lookup) then [Ranked(lookup(id).memory, 0.0)] else []
  }

  /** The candidates whose fused score meets the threshold, with that score, in their order. */
  function Kept(ranked: seq<Ranked>, graphIds: seq<string>, t: real): seq<Ranked>
  {
    if ranked == [] then []
    else
      var rescored := Rescored(ranked[|ranked| - 1], graphIds);
      Kept(ranked[..|ranked| - 1], graphIds, t) + if rescored.score >= t then [rescored] else []
  }

  ghost function Fused(input: seq<Ranked>, graphIds: seq<string>, lookup: string -> GraphLookup, minScore: real): seq<Ranked>
  {
    if graphIds == [] then input else Kept(input + GraphOnly(input, graphIds, lookup), graphIds, Threshold(minScore))
  }

  lemma AppendKeepsDistinct(ranked: seq<Ranked>, c: Ranked)
    requires DistinctIds(ranked) && !HasId(ranked, c.memory.id)
    ensures DistinctIds(ranked + [c])
  {
    forall i | 0 <= i < |ranked| ensures ranked[i].memory.id != c.memory.id
    {
      assert ranked[i] in ranked;
    }
  }

  /** Exactly the considered candidates stand before the threshold, each once. */
  lemma {:induction false} GraphOnlyJoins(input: seq<Ranked>, graphIds: seq<string>, lookup: string -> GraphLookup)
    requires DistinctIds(input) && Faithful(lookup)
    ensures DistinctIds(input + GraphOnly(input, graphIds, lookup))
    ensures forall c :: c in input + GraphOnly(input, graphIds, lookup) <==> Considered(c, input, graphIds, lookup)
    decreases |graphIds|
  {
    assert input + [] == input;
    if graphIds != [] {
      hide DistinctIds;
      var n := |graphIds| - 1;
      var earlier, id := graphIds[..n], graphIds[n];
      GraphOnlyJoins(input, earlier, lookup);
      assert graphIds == earlier + [id];
      var before := input + GraphOnly(input, earlier, lookup);
      if Joins(id, input, earlier, lookup) {
        var c := Ranked(lookup(id).memory, 0.0);
        AppendKeepsDistinct(before, c);
        ConcatAssociates(input, GraphOnly(input, earlier, lookup), [c]);
      } else {
        assert GraphOnly(input, graphIds, lookup) == GraphOnly(input, earlier, lookup);
      }
      JoinedOnce(input, earlier, id, lookup);
    }
  }

  lemma JoinedOnce(input: seq<Ranked>, earlier: seq<string>, id: string, lookup: string -> GraphLookup)
    requires Faithful(lookup)
    ensures forall c :: Considered(c, input, earlier + [id], lookup)
                        <==> Considered(c, input, earlier, lookup)
                             || (Joins(id, input, earlier, lookup) && c == Ranked(lookup(id).memory, 0.0))
  {
  }

  /** Exactly the candidates whose fused score meets the threshold are kept, each once. */
  lemma {:induction false} KeptMeetThreshold(ranked: seq<Ranked>, graphIds: seq<string>, t: real)
    requires DistinctIds(ranked)
    ensures DistinctIds(Kept(ranked, graphIds, t))
    ensures forall o :: o in Kept(ranked, graphIds, t) <==> o.score >= t && RescoredFrom(o, ranked, graphIds)
    decreases |ranked|
  {
    if ranked != [] {
      hide DistinctIds, RescoredFrom;
      var n := |ranked| - 1;
      InitKeepsDistinct(ranked);
      KeptMeetThreshold(ranked[..n], graphIds, t);
      RescoredGrows(ranked, graphIds);
      FreshId(ranked, Kept(ranked[..n], graphIds, t), graphIds);
      if Rescored(ranked[n], graphIds).score >= t {
        AppendKeepsDistinct(Kept(ranked[..n], graphIds, t), Rescored(ranked[n], graphIds));
      }
    }
  }

  lemma InitKeepsDistinct(ranked: seq<Ranked>)
    requires DistinctIds(ranked) && ranked != []
    ensures DistinctIds(ranked[..|ranked| - 1])
  {
  }

  lemma RescoredGrows(ranked: seq<Ranked>, graphIds: seq<string>)
    requires ranked != []
    ensures var n := |ranked| - 1;
            forall o :: RescoredFrom(o, ranked, graphIds)
                        <==> RescoredFrom(o, ranked[..n], graphIds) || o == Rescored(ranked[n], graphIds)
  {
    hide Rescored;
    var n := |ranked| - 1;
    assert ranked == ranked[..n] + [ranked[n]];
  }

  lemma FreshId(ranked: seq<Ranked>, retained: seq<Ranked>, graphIds: seq<string>)
    requires ranked != [] && DistinctIds(ranked)
    requires forall o <- retained :: RescoredFrom(o, ranked[..|ranked| - 1], graphIds)
    ensures !HasId(retained, ranked[|ranked| - 1].memory.id)
  {
  }

  /** The fused list, by its members: exactly the considered candidates whose fused score meets the
      threshold, each once. */
  lemma FusedAreSurvivors(input: seq<Ranked>, graphIds: seq<string>, lookup: string -> GraphLookup, minScore: real)
    requires DistinctIds(input) && Faithful(lookup)
    ensures DistinctIds(Fused(input, graphIds, lookup, minScore))
    ensures graphIds != [] ==>
              forall o :: o in Fused(input, graphIds, lookup, minScore)
                          <==> Survives(o, input, graphIds, lookup, Threshold(minScore))
  {
    hide DistinctIds, Kept, Considered, Rescored, Threshold;
    GraphOnlyJoins(input, graphIds, lookup);
    KeptMeetThreshold(input + GraphOnly(input, graphIds, lookup), graphIds, Threshold(minScore));
  }

  // ---------------------------------------------------------------- the three loops

  /** The rank map: later positions overwrite earlier ones. */
  method RankGraph(graphIds: seq<string>) returns (ranks: map<string, nat>)
    ensures forall id :: RankOf(graphIds, id) == if id in ranks then Some(ranks[id]) else None
  {
    ranks := map[];
    for n := 0 to |graphIds|
      invariant forall id :: RankOf(graphIds[..n], id) == if id in ranks then Some(ranks[id]) else None
    {
      assert graphIds[..n + 1][..n] == graphIds[..n];
      ranks := ranks[graphIds[n] := n];
    }
    assert graphIds[..|graphIds|] == graphIds;
  }

  method AddGraphOnly(input: seq<Ranked>, graphIds: seq<string>, lookup: string -> GraphLookup)
    returns (r: Result<seq<Ranked>, string>)
    ensures r.Err? <==> exists id <- graphIds :: !HasId(input, id) && lookup(id).Failed?
    ensures r.Ok? ==> r.value == input + GraphOnly(input, graphIds, lookup)
  {
    var ranked := input;
    var present := set c <- input :: c.memory.id;
    for n := 0 to |graphIds|
      invariant forall id :: id in present <==> HasId(input, id) || id in graphIds[..n]
      invariant ranked == input + GraphOnly(input, graphIds[..n], lookup)
      invariant forall id <- graphIds[..n] :: HasId(input, id) || !lookup(id).Failed?
    {
      hide HasId;
      var id := graphIds[n];
      assert graphIds[..n + 1][..n] == graphIds[..n];
      if id in present {
        continue;
      }
      present := present + {id};
      match lookup(id)
      case Failed => return Err(id);
      case Absent =>
      case Found(memory) =>
        ConcatAssociates(input, GraphOnly(input, graphIds[..n], lookup), [Ranked(memory, 0.0)]);
        ranked := ranked + [Ranked(memory, 0.0)];
    }
    assert graphIds[..|graphIds|] == graphIds;
    return Ok(ranked);
  }

  /** `retain_mut`: rescore each candidate in place and drop those below the threshold. */
  method RetainFused(ranked: seq<Ranked>, graphIds: seq<string>, ranks: map<string, nat>, threshold: real)
    returns (retained: seq<Ranked>)
    requires forall id :: RankOf(graphIds, id) == if id in ranks then Some(ranks[id]) else None
    ensures retained == Kept(ranked, graphIds, threshold)
  {
    retained := [];
    for n := 0 to |ranked|
      invariant retained == Kept(ranked[..n], graphIds, threshold)
    {
      hide FusedScore, ReciprocalRank, RankOf;
      var candidate := ranked[n];
      var rescored := candidate;
      if candidate.memory.id in ranks {
        rescored := candidate.(score := FusedScore(candidate.score, ReciprocalRank(ranks[candidate.memory.id])));
      }
      assert rescored == Rescored(candidate, graphIds);
      assert ranked[..n + 1][..n] == ranked[..n];
      if rescored.score >= threshold {
        retained := retained + [rescored];
      }
    }
    assert ranked[..|ranked|] == ranked;
  }

  /** `fuse_graph_channel`.  It fails exactly when the record of an id that only the graph knows cannot
      be read. */
  method FuseGraphChannel(input: seq<Ranked>, graphIds: seq<string>, lookup: string -> GraphLookup, minScore: real)
    returns (r: Result<seq<Ranked>, string>)
    ensures r.Err? <==> exists id <- graphIds :: !HasId(input, id) && lookup(id).Failed?
    ensures r.Ok? ==> r.value == Fused(input, graphIds, lookup, minScore)
  {
    if graphIds == [] {
      return Ok(input);
    }
    var ranks := RankGraph(graphIds);
    var ranked := AddGraphOnly(input, graphIds, lookup);
    if ranked.Err? {
      return ranked;
    }
    var retained := RetainFused(ranked.value, graphIds, ranks, Threshold(minScore));
    return Ok(retained);
  }

  /** The threshold is both: a candidate is in the fused list, with its fused score, exactly if that score is at
      least the minimum asked for and at least 0.42. */
  lemma FusedMeetBothBounds(input: seq<Ranked>, graphIds: seq<string>, lookup: string -> GraphLookup, minScore: real, c: Ranked)
    requires DistinctIds(input) && Faithful(lookup) && graphIds != [] && Considered(c, input, graphIds, lookup)
    ensures var o := Rescored(c, graphIds);
            o in Fused(input, graphIds, lookup, minScore) <==> o.score >= minScore && o.score >= 0.42
    ensures forall o <- Fused(input, graphIds, lookup, minScore) :: o.score >= minScore && o.score >= 0.42
  {
    FusedAreSurvivors(input, graphIds, lookup, minScore);
    hide Fused, Considered, Rescored, DistinctIds, Faithful;
  }

  /** A rank is the last position of its id. */
  lemma {:induction false} RankIsLastPosition(graphIds: seq<string>, id: string, rank: nat)
    ensures RankOf(graphIds, id) == Some(rank) <==>
            rank < |graphIds| && graphIds[rank] == id && forall k :: rank < k < |graphIds| ==> graphIds[k] != id
    ensures RankOf(graphIds, id) == None <==> id !in graphIds
    decreases |graphIds|
  {
    if graphIds != [] {
      var last := |graphIds| - 1;
      RankIsLastPosition(graphIds[..last], id, rank);
      assert graphIds == graphIds[..last] + [graphIds[last]];
    }
  }

  /** Fusing moves a score that is not 0 a quarter of the way to the reciprocal rank, and one that is 0 up to 0.45
      of it; a record that the graph does not rank keeps its score.  Nothing but the score changes. */
  lemma FusingMovesScores(c: Ranked, graphIds: seq<string>)
    requires 0.0 <= c.score <= 1.0
    ensures Rescored(c, graphIds).memory == c.memory
    ensures match RankOf(graphIds, c.memory.id)
            case None => Rescored(c, graphIds).score == c.score
            case Some(rank) =>
              var way := ReciprocalRank(rank) - c.score;
              Rescored(c, graphIds).score == if c.score > 0.0 then c.score + way / 4.0 else 0.45 * way
  {
    hide RankOf;
    var r := RankOf(graphIds, c.memory.id);
    if r.Some? {
      Blend(c.score, ReciprocalRank(r.value));
    }
  }

  lemma Blend(s: real, rrf: real)
    requires 0.0 <= s <= 1.0 && 0.0 < rrf <= 1.0
    ensures FusedScore(s, rrf) == if s > 0.0 then s + (rrf - s) / 4.0 else 0.45 * (rrf - s)
  {
  }

  // ---------------------------------------------------------------- rank arithmetic

  lemma GoodScore(s: real, rank: nat, t: real)
    requires 0.0 < t <= s && t <= 1.0
    ensures FusedScore(s, ReciprocalRank(rank)) >= t <==> ReciprocalRank(rank) >= 4.0 * t - 3.0 * s
  {
  }

  /** A ranked candidate at or above the threshold is in the fused list exactly when the graph does not
      rank it or its rank contributes what its score lacks. */
  lemma GoodCandidateSurvives(c: Ranked, input: seq<Ranked>, graphIds: seq<string>, lookup: string -> GraphLookup, t: real)
    requires DistinctIds(input) && c in input && 0.0 < t <= c.score && t <= 1.0
    ensures Remains(c, input, graphIds, lookup, t)
            <==> match RankOf(graphIds, c.memory.id)
                 case None => true
                 case Some(rank) => ReciprocalRank(rank) >= 4.0 * t - 3.0 * c.score
  {
    hide FusedScore, ReciprocalRank, RankOf;
    var r := RankOf(graphIds, c.memory.id);
    if r.Some? {
      GoodScore(c.score, r.value, t);
    }
    assert Considered(c, input, graphIds, lookup);
    if Rescored(c, graphIds).score >= t {
      assert Survives(Rescored(c, graphIds), input, graphIds, lookup, t);
    }
    forall o: Ranked | o.memory.id == c.memory.id && Survives(o, input, graphIds, lookup, t)
      ensures Rescored(c, graphIds).score >= t
    {
      var d :| Considered(d, input, graphIds, lookup) && Rescored(d, graphIds) == o;
      assert d.memory.id == c.memory.id;
    }
  }

  /** Whatever a graph channel of at most n ids says, no candidate of a score within [t, 1] is lost to a
      rank. */
  ghost predicate KeepsGoodCandidates(t: real, n: nat)
  {
    forall c: Ranked, input: seq<Ranked>, graphIds: seq<string>, lookup: string -> GraphLookup ::
      DistinctIds(input) && c in input && t <= c.score <= 1.0 && |graphIds| <= n
      ==> Remains(c, input, graphIds, lookup, t)
  }

  /** Channels of at most n ids can only add to a search exactly when its threshold is at most the
      reciprocal rank of the last of n ids. */
  lemma ChannelOnlyAdds(t: real, n: nat)
    requires 0.0 < t <= 1.0 && n >= 1
    ensures KeepsGoodCandidates(t, n) <==> t <= ReciprocalRank(n - 1)
  {
    hide FusedScore, ReciprocalRank, Considered, Remains, RankOf;
    if t <= ReciprocalRank(n - 1) {
      forall c: Ranked, input: seq<Ranked>, graphIds: seq<string>, lookup: string -> GraphLookup
        | DistinctIds(input) && c in input && t <= c.score <= 1.0 && |graphIds| <= n
        ensures Remains(c, input, graphIds, lookup, t)
      {
        EarlyRankKeeps(c, input, graphIds, lookup, t, n);
      }
    } else {
      var graphIds := DistinctStrings(n);
      var c := Ranked(Memory(graphIds[n - 1], "", "", [], {}, "", "", 0, 0), t);
      LateRankDropsCandidate(c, [c], graphIds, _ => Absent, t, n - 1);
      assert !Remains(c, [c], graphIds, _ => Absent, t);
    }
  }

  /** So a search, whose channel has at most 20 ids, loses no candidate to its rank exactly when its
      threshold is at most 61/80, as it is by default. */
  lemma FusionOnlyAdds(minScore: real)
    requires 0.0 <= minScore <= 1.0
    ensures KeepsGoodCandidates(Threshold(minScore), MAX_SEARCH_RESULTS) <==> Threshold(minScore) <= 61.0 / 80.0
  {
    ChannelOnlyAdds(Threshold(minScore), MAX_SEARCH_RESULTS);
    assert ReciprocalRank(19) == 61.0 / 80.0;
  }

  lemma EarlyRankKeeps(c: Ranked, input: seq<Ranked>, graphIds: seq<string>, lookup: string -> GraphLookup, t: real, n: nat)
    requires DistinctIds(input) && c in input && 0.0 < t <= c.score <= 1.0 && |graphIds| <= n
    requires n >= 1 && t <= ReciprocalRank(n - 1)
    ensures Remains(c, input, graphIds, lookup, t)
  {
    GoodCandidateSurvives(c, input, graphIds, lookup, t);
    RankInRange(graphIds, c.memory.id);
    var r := RankOf(graphIds, c.memory.id);
    if r.Some? {
      LaterIsLess(r.value, n - 1);
    }
  }

  lemma LaterIsLess(early: nat, late: nat)
    requires early <= late
    ensures ReciprocalRank(early) >= ReciprocalRank(late)
  {
    var d, e := 61.0 + Bounded16(early), 61.0 + Bounded16(late);
    QuotientFalls(61.0, d, e);
  }

  lemma QuotientFalls(x: real, d: real, e: real)
    requires 0.0 <= x && 0.0 < d <= e
    ensures x / d >= x / e
  {
    var a, b := x / d, x / e;
    assert a * d == x == b * e && b >= 0.0;
    assert b * d <= b * e;
    GreaterFactor(a, b, d);
  }

  lemma GreaterFactor(a: real, b: real, d: real)
    requires d > 0.0
    ensures a < b ==> a * d < b * d
  {
  }

  /** Ranks count only up to 65535. */
  lemma RanksSaturate(rank: nat)
    requires rank >= 65535
    ensures ReciprocalRank(rank) == 61.0 / 65596.0
  {
  }

  /** Every threshold above its reciprocal rank drops the ranked candidate that meets it exactly. */
  lemma LateRankDropsCandidate(c: Ranked, input: seq<Ranked>, graphIds: seq<string>, lookup: string -> GraphLookup,
                               t: real, rank: nat)
    requires DistinctIds(input) && c in input && c.score == t && 0.0 < t <= 1.0
    requires RankOf(graphIds, c.memory.id) == Some(rank) && ReciprocalRank(rank) < t
    ensures !Remains(c, input, graphIds, lookup, t)
  {
    GoodCandidateSurvives(c, input, graphIds, lookup, t);
  }

  lemma DistinctStrings(n: nat) returns (ids: seq<string>)
    requires n >= 1
    ensures |ids| == n && (forall i, j :: 0 <= i < j < n ==> ids[i] != ids[j])
    ensures RankOf(ids, ids[n - 1]) == Some(n - 1)
  {
    ids := seq(n, k requires 0 <= k => seq(k, _ => 'm'));
    forall i, j | 0 <= i < j < n ensures ids[i] != ids[j]
    {
      assert |ids[i]| == i && |ids[j]| == j;
    }
  }

  lemma GraphOnlyScore(rank: nat)
    ensures FusedScore(0.0, ReciprocalRank(rank)) >= 0.42 <==> rank <= 4
  {
    var d := 61.0 + Bounded16(rank);
    assert ReciprocalRank(rank) * d == 61.0;
    var f := FusedScore(0.0, ReciprocalRank(rank));
    assert f == 0.45 * ReciprocalRank(rank);
    assert f * d == 27.45;
    if rank <= 4 {
      assert d <= 65.0;
      assert f * d <= f * 65.0;
    } else {
      assert d >= 66.0;
      assert f * d >= f * 66.0;
    }
  }

  /** At the default threshold a record that only the graph channel knows survives exactly when it is
      among the first five of that channel. */
  lemma GraphOnlySurvival(input: seq<Ranked>, graphIds: seq<string>, lookup: string -> GraphLookup, id: string)
    requires Faithful(lookup) && id in graphIds && !HasId(input, id) && lookup(id).Found?
    ensures RankOf(graphIds, id).Some?
    ensures (exists o: Ranked :: o.memory.id == id && Survives(o, input, graphIds, lookup, Threshold(0.0)))
            <==> RankOf(graphIds, id).value <= 4
  {
    RankExists(graphIds, id);
    var c := Ranked(lookup(id).memory, 0.0);
    var rank := RankOf(graphIds, id).value;
    GraphOnlyScore(rank);
    assert Considered(c, input, graphIds, lookup);
    if rank <= 4 {
      assert Survives(Rescored(c, graphIds), input, graphIds, lookup, Threshold(0.0));
    }
    forall o: Ranked | o.memory.id == id && Survives(o, input, graphIds, lookup, Threshold(0.0)) ensures rank <= 4
    {
      var d :| Considered(d, input, graphIds, lookup) && Rescored(d, graphIds) == o;
      assert d.memory.id == id;
      assert d == c;
    }
  }

  lemma {:induction false} RankExists(graphIds: seq<string>, id: string)
    requires id in graphIds
    ensures RankOf(graphIds, id).Some?
    decreases |graphIds|
  {
    var last := |graphIds| - 1;
    if graphIds[last] != id {
      assert id in graphIds[..last];
      RankExists(graphIds[..last], id);
    }
  }

  lemma {:induction false} RankInRange(graphIds: seq<string>, id: string)
    ensures RankOf(graphIds, id).Some? ==> RankOf(graphIds, id).value < |graphIds|
    decreases |graphIds|
  {
    if graphIds != [] {
      RankInRange(graphIds[..|graphIds| - 1], id);
    }
  }
}
