/** The end of a search: fusion, deduplication and selection, one after the other.  A search that does not
    ask for the graph channel has an empty one. */
module Search {

  import opened Fusion
  import opened Retrieval
  import opened Wrappers

  /** The deduplicated list of the fused candidates, from which the selection picks. */
  ghost predicate IsLayered(layers: seq<Ranked>, ranked: seq<Ranked>, graphIds: seq<string>, lookup: string -> GraphLookup,
                            minScore: real)
  {
    IsDeduplication(layers, Fused(ranked, graphIds, lookup, minScore))
  }

  ghost predicate IsResult(selected: seq<Memory>, ranked: seq<Ranked>, graphIds: seq<string>, lookup: string -> GraphLookup,
                           minScore: real, max: nat, budget: nat)
  {
    exists layers :: IsLayered(layers, ranked, graphIds, lookup, minScore) && IsMmrSelection(selected, PoolOf(layers), max, budget)
  }

  lemma SortedAreDistinct(layers: seq<Ranked>)
    requires SortedById(layers)
    ensures DistinctIds(layers)
  {
    forall i, j | 0 <= i < j < |layers| ensures layers[i].memory.id != layers[j].memory.id
    {
      BeforeTotal(layers[i].memory.id, layers[j].memory.id);
    }
  }

  /** The end of `search`, after ranking. */
  method Select(ranked: seq<Ranked>, graphIds: seq<string>, lookup: string -> GraphLookup, minScore: real,
                maxResults: nat, budgetChars: nat)
    returns (r: Result<(seq<Memory>, nat), string>)
    requires DistinctIds(ranked) && Faithful(lookup)
    ensures r.Err? <==> exists id <- graphIds :: !HasId(ranked, id) && lookup(id).Failed?
    ensures r.Ok? ==>
              && IsResult(r.value.0, ranked, graphIds, lookup, minScore, maxResults, budgetChars)
              && r.value.1 == Used(r.value.0) <= budgetChars
  {
    var fused := FuseGraphChannel(ranked, graphIds, lookup, minScore);
    if fused.Err? {
      return Err(fused.error);
    }
    FusedAreSurvivors(ranked, graphIds, lookup, minScore);
    var layers := DeduplicateLayers(fused.value);
    SortedAreDistinct(layers);
    var selected, usedChars := SelectMmr(layers, maxResults, budgetChars);
    assert IsLayered(layers, ranked, graphIds, lookup, minScore);
    return Ok((selected, usedChars));
  }

  lemma FusedMembers(first: seq<Ranked>, second: seq<Ranked>, graphIds: seq<string>, lookup: string -> GraphLookup, minScore: real)
    requires DistinctIds(first) && DistinctIds(second) && Faithful(lookup)
    requires forall c :: c in first <==> c in second
    ensures forall c :: c in Fused(first, graphIds, lookup, minScore) <==> c in Fused(second, graphIds, lookup, minScore)
  {
    FusedAreSurvivors(first, graphIds, lookup, minScore);
    FusedAreSurvivors(second, graphIds, lookup, minScore);
    hide DistinctIds, Faithful, Kept, GraphOnly, Rescored, Threshold;
    if graphIds != [] {
      forall c ensures Considered(c, first, graphIds, lookup) <==> Considered(c, second, graphIds, lookup)
      {
      }
      forall o ensures Survives(o, first, graphIds, lookup, Threshold(minScore))
                       <==> Survives(o, second, graphIds, lookup, Threshold(minScore))
      {
        hide Considered;
      }
    }
  }

  /** A search is determined: whatever the order of the ranked candidates, unless two fused records with
      the same content tie for the highest priority, the picks and the characters used are the same. */
  lemma ResultIsDetermined(first: seq<Ranked>, second: seq<Ranked>, graphIds: seq<string>, lookup: string -> GraphLookup,
                           minScore: real, a: seq<Memory>, b: seq<Memory>, max: nat, budget: nat)
    requires DistinctIds(first) && DistinctIds(second) && Faithful(lookup)
    requires multiset(first) == multiset(second)
    requires forall x, y :: !Tie(x, y, Fused(first, graphIds, lookup, minScore))
    requires IsResult(a, first, graphIds, lookup, minScore, max, budget)
    requires IsResult(b, second, graphIds, lookup, minScore, max, budget)
    ensures a == b && Used(a) == Used(b)
  {
    forall c ensures c in first <==> c in second
    {
      assert c in first <==> c in multiset(first);
      assert c in second <==> c in multiset(second);
    }
    FusedMembers(first, second, graphIds, lookup, minScore);
    hide Fused, DistinctIds, Faithful, Tie, IsDeduplication, IsMmrSelection;
    var x :| IsLayered(x, first, graphIds, lookup, minScore) && IsMmrSelection(a, PoolOf(x), max, budget);
    var y :| IsLayered(y, second, graphIds, lookup, minScore) && IsMmrSelection(b, PoolOf(y), max, budget);
    OrderHiddenWithoutTie(Fused(first, graphIds, lookup, minScore), Fused(second, graphIds, lookup, minScore), x, y);
    MmrSelectionIsUnique(a, b, PoolOf(x), max, budget);
  }

  /** Where a pick comes from: a fused candidate at or above the threshold that no fused record with the
      same content outranks. */
  ghost predicate Justified(m: Memory, fused: seq<Ranked>, t: real)
  {
    exists o <- fused :: o.memory == m && o.score >= t && Top(o, fused)
  }

  function KeyOf(m: Memory): (string, string)
  {
    (m.kind, m.words)
  }

  /** What a search promises of its picks, from end to end: each is justified, no two have the same content
      or the same id, and together they stay within the budget. */
  lemma ResultIsSound(selected: seq<Memory>, ranked: seq<Ranked>, graphIds: seq<string>, lookup: string -> GraphLookup,
                      minScore: real, max: nat, budget: nat)
    requires DistinctIds(ranked) && Faithful(lookup)
    requires forall c <- ranked :: c.score >= minScore && c.score >= 0.42
    requires IsResult(selected, ranked, graphIds, lookup, minScore, max, budget)
    ensures |selected| <= max && Used(selected) <= budget
    ensures forall m <- selected ::
              && Justified(m, Fused(ranked, graphIds, lookup, minScore), minScore)
              && Justified(m, Fused(ranked, graphIds, lookup, minScore), 0.42)
    ensures forall i, j :: 0 <= i < j < |selected| ==>
              KeyOf(selected[i]) != KeyOf(selected[j]) && selected[i].id != selected[j].id
  {
    var fused := Fused(ranked, graphIds, lookup, minScore);
    FusedAreSurvivors(ranked, graphIds, lookup, minScore);
    assert forall o <- fused :: o.score >= minScore && o.score >= 0.42;
    hide Fused, Threshold, Faithful, IsMmrSelection, Survives;
    var layers :| IsLayered(layers, ranked, graphIds, lookup, minScore) && IsMmrSelection(selected, PoolOf(layers), max, budget);
    SelectionIsMaximalPacking(selected, layers, max, budget);
    forall m | m in selected ensures Justified(m, fused, minScore) && Justified(m, fused, 0.42)
    {
      var o := PickOf(m, selected, layers);
      LayerIsTop(o, layers, fused);
    }
    forall i, j | 0 <= i < j < |selected|
      ensures KeyOf(selected[i]) != KeyOf(selected[j]) && selected[i].id != selected[j].id
    {
      var x := PickOf(selected[i], selected, layers);
      var y := PickOf(selected[j], selected, layers);
      LayersAreApart(x, y, layers, fused);
    }
  }

  lemma PickOf(m: Memory, selected: seq<Memory>, layers: seq<Ranked>) returns (o: Ranked)
    requires m in selected
    requires forall i :: 0 <= i < |selected| ==> exists c <- layers :: c.memory == selected[i]
    ensures o in layers && o.memory == m
  {
    var i :| 0 <= i < |selected| && selected[i] == m;
    o :| o in layers && o.memory == selected[i];
  }

  lemma LayerIsTop(o: Ranked, layers: seq<Ranked>, fused: seq<Ranked>)
    requires IsDeduplication(layers, fused) && o in layers
    ensures o in fused && Top(o, fused)
  {
    hide Layers, SortedById, Outranks, HasMember;
    assert HasMember(Layers(fused), Layers(fused).Keys, o);
    MembersAreInput(fused, o);
    KeptAreTop(fused, o);
  }

  /** Different records of the deduplicated list have different content and different ids. */
  lemma LayersAreApart(x: Ranked, y: Ranked, layers: seq<Ranked>, fused: seq<Ranked>)
    requires IsDeduplication(layers, fused) && x in layers && y in layers && x.memory != y.memory
    ensures KeyOf(x.memory) != KeyOf(y.memory) && x.memory.id != y.memory.id
  {
    hide Layers, Outranks, HasMember;
    LayerIsTop(x, layers, fused);
    LayerIsTop(y, layers, fused);
    assert HasMember(Layers(fused), Layers(fused).Keys, x) && HasMember(Layers(fused), Layers(fused).Keys, y);
    KeptAreTop(fused, x);
    KeptAreTop(fused, y);
    SortedAreDistinct(layers);
  }
}
