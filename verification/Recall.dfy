/**
 The recall cache of the plugin's sessions, fenced by generations across awaits.

 JavaScript runs one callback at a time.  The transform hook is split at its awaits: `HookSearches`
 runs from the last await before the search to the search itself, and `HookResumes` after it.  What a
 hook carries across the await is a `Hook` value.  Invalidations, messages, other hooks and settling
 searches happen in any order in between.
 */
module Recall {

  import opened Wrappers

  type SessionId = string

  /** The two epochs that `recallGeneration` prints around a colon. */
  datatype Generation = Generation(epoch: nat, sessionEpoch: nat)

  /** The parts of a cache key.  The generation is the last part and contains no separator, so equal
      keys have equal generations. */
  datatype CacheKey = CacheKey(text: string, generation: Generation)

  /** A search in flight: its promise is identified by a number. */
  datatype Search = Search(key: CacheKey, promise: nat)

  /** A finished response, identified by the promise that produced it. */
  datatype Cached = Cached(key: CacheKey, promise: nat)

  /** What a hook remembers while it waits: the identity of the latest query it read, the generation
      and key it computed, and the promise it awaits. */
  datatype Hook = Hook(session: SessionId, latest: nat, key: CacheKey, promise: nat)

  datatype HookStep = Stops | UsesCache(cached: Cached) | Awaits(hook: Hook)

  predicate NotAfter(a: Generation, b: Generation)
  {
    a.epoch <= b.epoch && a.sessionEpoch <= b.sessionEpoch
  }

  function GenerationOf(epoch: nat, epochs: map<SessionId, nat>, session: SessionId): Generation
  {
    Generation(epoch, if session in epochs then epochs[session] else 0)
  }

  /** The promise belongs to a search of this session that started in the key's generation. */
  predicate StartedFor(searches: seq<(SessionId, Generation)>, promise: nat, session: SessionId, key: CacheKey)
  {
    promise < |searches| && searches[promise] == (session, key.generation)
  }

  class SessionContext {
    var latestQuery: map<SessionId, nat>       // identity of the query object
    var recallCache: map<SessionId, Cached>
    var recallEpoch: nat
    var sessionRecallEpochs: map<SessionId, nat>
    var automaticRecallSearches: map<SessionId, Search>
    var queries: nat  // identities handed out so far
    var searches: seq<(SessionId, Generation)>  // for each promise, its session and the generation it started in

    /** `recallGeneration`. */
    function RecallGeneration(session: SessionId): Generation
      reads this`recallEpoch, this`sessionRecallEpochs
    {
      GenerationOf(recallEpoch, sessionRecallEpochs, session)
    }

    /** Coherence: every cache entry carries the current generation of its session, and was answered
        by a search that started in that generation, that is, after the last invalidation. */
    ghost predicate Valid()
      reads this
    {
      && (forall s <- recallCache ::
            recallCache[s].key.generation == RecallGeneration(s)
            && StartedFor(searches, recallCache[s].promise, s, recallCache[s].key))
      && (forall s <- automaticRecallSearches ::
            StartedFor(searches, automaticRecallSearches[s].promise, s, automaticRecallSearches[s].key))
      && (forall p :: 0 <= p < |searches| ==> NotAfter(searches[p].1, RecallGeneration(searches[p].0)))
      && (forall s <- latestQuery :: latestQuery[s] < queries)
    }

    constructor ()
      ensures Valid() && recallCache == map[] && automaticRecallSearches == map[] && searches == []
    {
      latestQuery, recallCache, sessionRecallEpochs, automaticRecallSearches := map[], map[], map[], map[];
      recallEpoch, queries := 0, 0;
      searches := [];
    }

    /** `invalidateRecall`, for one session or, without one, for all of them: the generations concerned
        become larger than any search so far has seen, and their entries are gone. */
    method InvalidateRecall(session: Option<SessionId>)
      requires Valid()
      modifies this`recallEpoch, this`sessionRecallEpochs, this`recallCache
      ensures Valid()
      ensures session.None? ==> recallCache == map[]
      ensures session.Some? ==> recallCache == old(recallCache) - {session.value}
      ensures session.None? ==> recallEpoch == old(recallEpoch) + 1 && sessionRecallEpochs == old(sessionRecallEpochs)
      ensures session.Some? ==>
        && recallEpoch == old(recallEpoch)
        && sessionRecallEpochs == old(sessionRecallEpochs)[session.value := old(RecallGeneration(session.value)).sessionEpoch + 1]
    {
      if session.None? {
        recallEpoch := recallEpoch + 1;
        recallCache := map[];
        return;
      }
      var s := session.value;
      sessionRecallEpochs := sessionRecallEpochs[s := RecallGeneration(s).sessionEpoch + 1];
      recallCache := recallCache - {s};
    }

    /** A new user message: the old query and the session's recall are dropped, and a message with a
        query installs a fresh query object. */
    method ChatMessage(session: SessionId, hasQuery: bool)
      requires Valid()
      modifies this`latestQuery, this`recallEpoch, this`sessionRecallEpochs, this`recallCache, this`queries
      ensures Valid()
      ensures session !in recallCache && recallCache == old(recallCache) - {session}
      ensures RecallGeneration(session) != old(RecallGeneration(session))
      ensures forall s :: s != session ==> RecallGeneration(s) == old(RecallGeneration(s))
      ensures session in latestQuery <==> hasQuery
      ensures hasQuery ==> latestQuery[session] == old(queries)
      ensures latestQuery - {session} == old(latestQuery) - {session}
    {
      hide StartedFor, NotAfter;
      latestQuery := latestQuery - {session};
      InvalidateRecall(Some(session));
      if hasQuery {
        latestQuery := latestQuery[session := queries];
        queries := queries + 1;
      }
      assert latestQuery - {session} == old(latestQuery) - {session};
    }

    /** `searchRecallOnce` up to its await: an equal key joins the search in flight, any other key
        starts a search and replaces it. */
    method SearchRecallOnce(session: SessionId, key: CacheKey) returns (promise: nat)
      requires Valid() && key.generation == RecallGeneration(session)
      modifies this`automaticRecallSearches, this`searches
      ensures Valid()
      ensures StartedFor(searches, promise, session, key)
      ensures session in automaticRecallSearches && automaticRecallSearches[session] == Search(key, promise)
      ensures automaticRecallSearches - {session} == old(automaticRecallSearches) - {session}
      ensures session in old(automaticRecallSearches) && old(automaticRecallSearches)[session].key == key
              ==> promise == old(automaticRecallSearches)[session].promise && searches == old(searches)
      ensures !(session in old(automaticRecallSearches) && old(automaticRecallSearches)[session].key == key)
              ==> promise == |old(searches)| && searches == old(searches) + [(session, key.generation)]
    {
      if session in automaticRecallSearches && automaticRecallSearches[session].key == key {
        return automaticRecallSearches[session].promise;
      }
      promise := |searches|;
      searches := searches + [(session, key.generation)];
      automaticRecallSearches := automaticRecallSearches[session := Search(key, promise)];
    }

    /** The finally-callback of a search: it removes its own registration and never that of a newer
        search, of any session. */
    method SearchSettles(session: SessionId, promise: nat)
      requires Valid()
      modifies this`automaticRecallSearches
      ensures Valid()
      ensures forall s <- old(automaticRecallSearches) ::
        (s != session || old(automaticRecallSearches)[s].promise != promise)
        ==> s in automaticRecallSearches && automaticRecallSearches[s] == old(automaticRecallSearches)[s]
      ensures session in automaticRecallSearches ==> automaticRecallSearches[session].promise != promise
      ensures forall s <- automaticRecallSearches :: s in old(automaticRecallSearches)
    {
      if session in automaticRecallSearches && automaticRecallSearches[session].promise == promise {
        automaticRecallSearches := automaticRecallSearches - {session};
      }
    }

    /** The hook after it has resolved the session root, with the latest query it read at its start:
        it uses the cached entry for its key, or searches. */
    method HookSearches(session: SessionId, latest: nat, text: string) returns (step: HookStep)
      requires Valid()
      modifies this`automaticRecallSearches, this`searches
      ensures Valid() && recallCache == old(recallCache)
      ensures var key := CacheKey(text, RecallGeneration(session));
        if session in recallCache && recallCache[session].key == key then
          step == UsesCache(recallCache[session])
        else if session !in latestQuery || latestQuery[session] != latest then step == Stops
        else step.Awaits? && step.hook == Hook(session, latest, key, step.hook.promise)
             && StartedFor(searches, step.hook.promise, session, key)
    {
      var generation := RecallGeneration(session);
      var key := CacheKey(text, generation);
      if session in recallCache && recallCache[session].key == key {
        return UsesCache(recallCache[session]);
      }
      if session !in latestQuery || latestQuery[session] != latest || RecallGeneration(session) != generation {
        return Stops;
      }
      var promise := SearchRecallOnce(session, key);
      return Awaits(Hook(session, latest, key, promise));
    }

    /** The hook after its search answered.  It stores the response exactly when neither a newer query
        nor an invalidation has come in between; a late response is dropped. */
    method HookResumes(hook: Hook) returns (stored: bool)
      requires Valid() && StartedFor(searches, hook.promise, hook.session, hook.key)
      modifies this`recallCache
      ensures Valid()
      ensures stored <==> hook.session in latestQuery && latestQuery[hook.session] == hook.latest
                          && RecallGeneration(hook.session) == hook.key.generation
      ensures recallCache == if stored then old(recallCache)[hook.session := Cached(hook.key, hook.promise)]
                             else old(recallCache)
    {
      if hook.session !in latestQuery || latestQuery[hook.session] != hook.latest
         || RecallGeneration(hook.session) != hook.key.generation {
        return false;
      }
      recallCache := recallCache[hook.session := Cached(hook.key, hook.promise)];
      return true;
    }
  }
}
