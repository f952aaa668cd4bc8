/**
 The pool of native clients shared by the plugin instances of one process.

 JavaScript runs one callback at a time, so the interleavings of acquisitions, releases and
 disposals are the orders in which the methods below are called.  An acquisition that finds a
 closing entry waits, and takes the same step again later.  Entries and handles are shared by
 reference in the source; here a reference is an index into the entries made, or the handles given
 out, so far.
 */
module ClientPool {

  import opened Wrappers

  /** `closing` says that the client's disposal has started, `disposals` how often it was started,
      and `closed` that it has settled. */
  datatype Entry = Entry(key: string, leases: int, closing: bool, disposals: nat, closed: bool)

  datatype Lease = Lease(entry: nat, released: bool)

  /** The handles of an entry that have not been released. */
  function Held(handles: seq<Lease>, e: nat): nat
  {
    if handles == [] then 0
    else Held(handles[..|handles| - 1], e)
         + if handles[|handles| - 1] == Lease(e, false) then 1 else 0
  }

  lemma HeldAppend(handles: seq<Lease>, lease: Lease, e: nat)
    ensures Held(handles + [lease], e) == Held(handles, e) + if lease == Lease(e, false) then 1 else 0
  {
    assert (handles + [lease])[..|handles|] == handles;
  }

  lemma {:induction false} HeldRelease(handles: seq<Lease>, h: nat, e: nat)
    requires h < |handles| && !handles[h].released
    ensures Held(handles[h := Lease(handles[h].entry, true)], e)
            == Held(handles, e) - if handles[h].entry == e then 1 else 0
    decreases |handles|
  {
    var last := |handles| - 1;
    var after := handles[h := Lease(handles[h].entry, true)];
    if h < last {
      HeldRelease(handles[..last], h, e);
      assert after[..last] == handles[..last][h := Lease(handles[h].entry, true)];
    } else {
      assert after[..last] == handles[..last];
    }
  }

  lemma {:induction false} HeldPositive(handles: seq<Lease>, h: nat)
    requires h < |handles| && !handles[h].released
    ensures Held(handles, handles[h].entry) > 0
    decreases |handles|
  {
    if h < |handles| - 1 {
      HeldPositive(handles[..|handles| - 1], h);
    }
  }

  lemma {:induction false} HeldFresh(handles: seq<Lease>, e: nat)
    requires forall h :: 0 <= h < |handles| ==> handles[h].entry != e
    ensures Held(handles, e) == 0
    decreases |handles|
  {
    if handles != [] {
      HeldFresh(handles[..|handles| - 1], e);
    }
  }

  ghost predicate EntryValid(entries: map<string, nat>, made: seq<Entry>, handles: seq<Lease>, e: nat)
    requires e < |made|
  {
    && made[e].leases == Held(handles, e)
    && (made[e].closing <==> made[e].leases == 0)
    && made[e].disposals == (if made[e].closing then 1 else 0)
    && (made[e].closed ==> made[e].closing)
    && (!made[e].closed <==> made[e].key in entries && entries[made[e].key] == e)
  }

  /** Lease counts are the unreleased handles; a client is disposed once, and only at zero leases;
      and the map holds exactly the entries whose disposal has not settled, so there is at most one
      such entry per key. */
  ghost predicate PoolValid(entries: map<string, nat>, made: seq<Entry>, handles: seq<Lease>)
  {
    && (forall k <- entries :: entries[k] < |made| && made[entries[k]].key == k)
    && (forall e :: 0 <= e < |made| ==> EntryValid(entries, made, handles, e))
    && (forall h :: 0 <= h < |handles| ==> handles[h].entry < |made|)
  }

  lemma AddLeaseKeeps(entries: map<string, nat>, made: seq<Entry>, handles: seq<Lease>, key: string)
    requires PoolValid(entries, made, handles) && key in entries && !made[entries[key]].closing
    ensures PoolValid(entries, WithLeases(made, entries[key], made[entries[key]].leases + 1),
                      handles + [Lease(entries[key], false)])
  {
    var lease := Lease(entries[key], false);
    var after := WithLeases(made, entries[key], made[entries[key]].leases + 1);
    forall e | 0 <= e < |after| ensures EntryValid(entries, after, handles + [lease], e)
    {
      assert EntryValid(entries, made, handles, e);
      HeldAppend(handles, lease, e);
    }
  }

  lemma AddEntryKeeps(entries: map<string, nat>, made: seq<Entry>, handles: seq<Lease>, key: string)
    requires PoolValid(entries, made, handles) && key !in entries
    ensures PoolValid(entries[key := |made|], made + [Entry(key, 1, false, 0, false)],
                      handles + [Lease(|made|, false)])
    ensures forall e :: 0 <= e < |made| && made[e].key == key ==> made[e].closed
  {
    var lease, entry := Lease(|made|, false), Entry(key, 1, false, 0, false);
    var now, after := entries[key := |made|], made + [entry];
    forall e | 0 <= e < |after| ensures EntryValid(now, after, handles + [lease], e)
    {
      HeldAppend(handles, lease, e);
      if e < |made| {
        assert EntryValid(entries, made, handles, e);
      } else {
        HeldFresh(handles, e);
      }
    }
    forall e | 0 <= e < |made| && made[e].key == key ensures made[e].closed
    {
      assert EntryValid(entries, made, handles, e);
    }
  }

  /** The entry after one of its leases is given back. */
  function Lessened(entry: Entry): Entry
  {
    var left := entry.leases - 1;
    if left > 0 then entry.(leases := left)
    else entry.(leases := left, closing := true, disposals := entry.disposals + 1)
  }

  lemma ReleaseKeeps(entries: map<string, nat>, made: seq<Entry>, handles: seq<Lease>, h: nat)
    requires PoolValid(entries, made, handles) && h < |handles| && !handles[h].released
    ensures var e := handles[h].entry;
            && e < |made| && !made[e].closing && made[e].disposals == 0
            && PoolValid(entries, made[e := Lessened(made[e])], handles[h := Lease(e, true)])
  {
    var g := handles[h].entry;
    var after, left := made[g := Lessened(made[g])], handles[h := Lease(g, true)];
    HeldPositive(handles, h);
    assert EntryValid(entries, made, handles, g);
    forall e | 0 <= e < |after| ensures EntryValid(entries, after, left, e)
    {
      assert EntryValid(entries, made, handles, e);
      HeldRelease(handles, h, e);
    }
  }

  lemma FinishKeeps(entries: map<string, nat>, made: seq<Entry>, handles: seq<Lease>, g: nat)
    requires PoolValid(entries, made, handles) && g < |made| && made[g].closing && !made[g].closed
    ensures made[g].key in entries && entries[made[g].key] == g
    ensures PoolValid(entries - {made[g].key}, made[g := made[g].(closed := true)], handles)
  {
    var now, after := entries - {made[g].key}, made[g := made[g].(closed := true)];
    assert EntryValid(entries, made, handles, g);
    forall e | 0 <= e < |after| ensures EntryValid(now, after, handles, e)
    {
      assert EntryValid(entries, made, handles, e);
    }
  }

  class NativeMemoryClientPool {
    var entries: map<string, nat>
    var made: seq<Entry>
    var handles: seq<Lease>

    ghost predicate Valid()
      reads this
    {
      PoolValid(entries, made, handles)
    }

    constructor ()
      ensures Valid() && entries == map[] && made == [] && handles == []
    {
      entries, made, handles := map[], [], [];
    }

    /** One turn of the loop of `acquire`: None means that the caller waits for a closing entry.  A
        client is created only when every earlier client of the key has finished closing. */
    method Acquire(key: string) returns (r: Option<nat>)
      requires Valid()
      modifies this
      ensures Valid()
      ensures r.None? <==> key in old(entries) && old(made[entries[key]].closing)
      ensures r.None? ==> entries == old(entries) && made == old(made) && handles == old(handles)
      ensures r.Some? ==>
        && key in entries
        && r.value == |old(handles)| && handles == old(handles) + [Lease(entries[key], false)]
      ensures r.Some? && key in old(entries) ==>
        && entries == old(entries)
        && made == WithLeases(old(made), entries[key], old(made[entries[key]].leases) + 1)
      ensures r.Some? && key !in old(entries) ==>
        && (forall e :: 0 <= e < |old(made)| && old(made)[e].key == key ==> old(made)[e].closed)
        && entries == old(entries)[key := |old(made)|]
        && made == old(made) + [Entry(key, 1, false, 0, false)]
    {
      if key in entries {
        if made[entries[key]].closing {
          return None;
        }
        AddLeaseKeeps(entries, made, handles, key);
        made := WithLeases(made, entries[key], made[entries[key]].leases + 1);
      } else {
        AddEntryKeeps(entries, made, handles, key);
        entries := entries[key := |made|];
        made := made + [Entry(key, 1, false, 0, false)];
      }
      handles := handles + [Lease(entries[key], false)];
      return Some(|handles| - 1);
    }

    /** The handle's `release`, up to the point where it waits for the disposal it started.  Releasing
        a handle again does nothing; releasing the last one starts the only disposal of the client. */
    method Release(h: nat) returns (disposes: bool)
      requires Valid() && h < |handles|
      modifies this
      ensures Valid() && entries == old(entries)
      ensures old(handles[h].released) ==> !disposes && handles == old(handles) && made == old(made)
      ensures !old(handles[h].released) ==>
        var e := old(handles[h].entry);
        && e < |old(made)| && old(made)[e].disposals == 0
        && handles == old(handles)[h := Lease(e, true)]
        && (disposes <==> Held(handles, e) == 0)
        && made == old(made)[e := Lessened(old(made)[e])]
    {
      if handles[h].released {
        return false;
      }
      var e := handles[h].entry;
      ReleaseKeeps(entries, made, handles, h);
      handles := handles[h := Lease(e, true)];
      made := WithLeases(made, e, made[e].leases - 1);
      if made[e].leases > 0 {
        assert made == old(made)[e := Lessened(old(made)[e])];
        assert EntryValid(entries, made, handles, e);
        return false;
      }
      made := made[e := made[e].(closing := true, disposals := made[e].disposals + 1)];
      assert made == old(made)[e := Lessened(old(made)[e])];
      assert EntryValid(entries, made, handles, e);
      return true;
    }

    /** The disposal of an entry's client settles, and its entry leaves the map. */
    method FinishClosing(e: nat)
      requires Valid() && e < |made| && made[e].closing && !made[e].closed
      modifies this
      ensures Valid() && handles == old(handles)
      ensures made == old(made)[e := old(made)[e].(closed := true)]
      ensures entries == old(entries) - {made[e].key}
    {
      FinishKeeps(entries, made, handles, e);
      if made[e].key in entries && entries[made[e].key] == e {
        entries := entries - {made[e].key};
      }
      made := made[e := made[e].(closed := true)];
    }
  }

  function WithLeases(made: seq<Entry>, e: nat, leases: int): seq<Entry>
    requires e < |made|
  {
    made[e := made[e].(leases := leases)]
  }
}
