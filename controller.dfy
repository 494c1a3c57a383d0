/**
 * The cache-aside protocol of `TodosController`. The controller keeps no
 * state of its own between requests: it only orders requests to the backend
 * and the cache. Reads consult the cache first and fall back to the backend
 * on a miss; writes go to the backend first and then post the backend's
 * answer to the cache; deletes remove from the backend, then from the cache.
 * `UUID.randomUUID()` and the clock become the `freshId` and `today`
 * parameters (`today` is the date already formatted as yyyy/MM/dd).
 */
module Controller {
  import opened Wrappers
  import opened TodoRecord
  import opened Stores

  /** What a request can fail with. */
  datatype ApiError =
    | BadRequest               // HttpStatus.BAD_REQUEST raised by the controller
    | NotFound(id: string)     // HttpStatus.NOT_FOUND naming the id
    | Downstream(cause: StoreError)  // a store's failure, propagated as thrown

  /** `todos.api.limit` when the configuration does not set it. */
  const DefaultLimit: int := 100

  /** The category given to a todo that has none. */
  const DefaultGroup: string := "Default group"

  /** Spring's `ObjectUtils.isEmpty` on a String: null or "". */
  predicate IsEmpty(s: Option<string>) {
    s.None? || s.value == ""
  }

  // ---------------------------------------------------------------------
  // Building the record that is written to the stores
  // ---------------------------------------------------------------------

  /**
   * The defaulting shared by create, put and patch: `complete` is copied
   * (`isEmpty` on a boxed boolean is always false), an empty category becomes
   * "Default group" and an empty deadline becomes today's date.
   */
  predicate Defaulted(r: Todo, input: Todo, today: string) {
    && r.complete == input.complete
    && (IsEmpty(input.category) ==> r.category == Some(DefaultGroup))
    && (!IsEmpty(input.category) ==> r.category == input.category)
    && (IsEmpty(input.deadline) ==> r.deadline == Some(today))
    && (!IsEmpty(input.deadline) ==> r.deadline == input.deadline)
  }

  function ApplyDefaults(obj: Todo, input: Todo, today: string): (r: Todo)
    ensures r.id == obj.id && r.title == obj.title
    ensures Defaulted(r, input, today)
    ensures !IsEmpty(r.category)
    ensures today != "" ==> !IsEmpty(r.deadline)
  {
    var obj := SetComplete(obj, input.complete);
    var obj := if IsEmpty(input.category) then SetCategory(obj, Some(DefaultGroup))
               else SetCategory(obj, input.category);
    if IsEmpty(input.deadline) then SetDeadline(obj, Some(today))
    else SetDeadline(obj, input.deadline)
  }

  /** The record `create` writes: a supplied id or a generated one, a non-empty title kept. */
  function BuildCreated(input: Todo, freshId: string, today: string): (r: Todo)
    requires freshId != ""
    ensures r.id.Some? && r.id.value != ""
    ensures !IsEmpty(input.id) ==> r.id == input.id
    ensures IsEmpty(input.id) ==> r.id == Some(freshId)
    ensures !IsEmpty(input.title) ==> r.title == input.title
    ensures IsEmpty(input.title) ==> r.title == None
    ensures Defaulted(r, input, today)
  {
    var obj := NewTodo();
    var obj := if IsEmpty(input.id) then SetId(obj, Some(freshId)) else SetId(obj, input.id);
    var obj := if !IsEmpty(input.title) then SetTitle(obj, input.title) else obj;
    ApplyDefaults(obj, input, today)
  }

  /** The record `put` writes: the body's id, never a title. */
  function BuildReplaced(input: Todo, today: string): (r: Todo)
    ensures r.id == input.id
    ensures r.title == None
    ensures Defaulted(r, input, today)
  {
    var obj := SetId(NewTodo(), input.id);
    ApplyDefaults(obj, input, today)
  }

  /** The record `update` (PATCH) writes: the body's id, a non-empty title kept. */
  function BuildPatched(input: Todo, today: string): (r: Todo)
    ensures r.id == input.id
    ensures !IsEmpty(input.title) ==> r.title == input.title
    ensures IsEmpty(input.title) ==> r.title == None
    ensures Defaulted(r, input, today)
  {
    var obj := SetId(NewTodo(), input.id);
    var obj := if !IsEmpty(input.title) then SetTitle(obj, input.title) else obj;
    ApplyDefaults(obj, input, today)
  }

  /** A replace differs from a patch of the same body only in dropping the title. */
  lemma ReplaceIsPatchWithoutTitle(input: Todo, today: string)
    ensures BuildReplaced(input, today) == SetTitle(BuildPatched(input, today), None)
  {
  }

  /** With a non-empty body id, a patch writes exactly what a create would. */
  lemma PatchAgreesWithCreate(input: Todo, freshId: string, today: string)
    requires freshId != "" && !IsEmpty(input.id)
    ensures BuildPatched(input, today) == BuildCreated(input, freshId, today)
  {
  }

  /** Submitting a written record again (with any id and date) writes the same record. */
  lemma RebuildIsIdentity(input: Todo, freshId: string, freshId': string, today: string, today': string)
    requires freshId != "" && freshId' != "" && today != ""
    ensures BuildCreated(BuildCreated(input, freshId, today), freshId', today') == BuildCreated(input, freshId, today)
    ensures BuildPatched(BuildPatched(input, today), today') == BuildPatched(input, today)
    ensures BuildReplaced(BuildReplaced(input, today), today') == BuildReplaced(input, today)
  {
  }

  // ---------------------------------------------------------------------
  // What the requests do to the two stores
  // ---------------------------------------------------------------------

  /**
   * The effect of posting `obj` to the backend and then the backend's answer
   * to the cache, from stores `b0`, `c0` and log `t0` to `b1`, `c1`, `t1`.
   * The backend is always written first; the cache receives what the backend
   * stored and answered, which is also what is returned; the cache is never
   * written unless the backend was; a failure of either post is propagated.
   */
  ghost predicate WriteThroughEffect(
    obj: Todo, r: Result<Todo, ApiError>,
    b0: map<string, Todo>, c0: map<string, Todo>, t0: seq<Call>,
    b1: map<string, Todo>, c1: map<string, Todo>, t1: seq<Call>)
    requires obj.id.Some?
  {
    var k := obj.id.value;
    // the backend refused the write: nothing stored, the cache not asked
    || (&& r == Failure(Downstream(Unavailable)) && b1 == b0 && c1 == c0
        && t1 == t0 + [Call(Backend, Post(obj), Failed)])
    // the backend stored its answer but the cache post failed: the failure propagates
    || (&& r == Failure(Downstream(Unavailable))
        && k in b1 && b1[k].id == obj.id && b1 == b0[k := b1[k]] && c1 == c0
        && t1 == t0 + [Call(Backend, Post(obj), Answered), Call(Cache, Post(b1[k]), Failed)])
    // both stores hold the backend's answer, which is returned
    || (&& k in b1 && r == Success(b1[k])
        && b1[k].id == obj.id && b1 == b0[k := b1[k]] && c1 == c0[k := b1[k]]
        && t1 == t0 + [Call(Backend, Post(obj), Answered), Call(Cache, Post(b1[k]), Answered)])
  }

  /**
   * The outcomes of `retrieve(id)` with backend `b`, from cache `c0` and log
   * `t0` to cache `c1` and log `t1`. The cache is asked first; only its 404
   * sends the request on to the backend; a backend hit is posted to the cache.
   */
  ghost predicate RetrieveOutcome(
    id: string, r: Result<Todo, ApiError>, b: map<string, Todo>,
    c0: map<string, Todo>, t0: seq<Call>, c1: map<string, Todo>, t1: seq<Call>)
  {
    var cacheGet, backendGet := Call(Cache, Get(id), Answered), Call(Backend, Get(id), Answered);
    var cacheMiss, backendMiss := Call(Cache, Get(id), Absent), Call(Backend, Get(id), Absent);
    // a cache hit
    || (id in c0 && r == Success(c0[id]) && c1 == c0 && t1 == t0 + [cacheGet])
    // a cache failure other than a 404 ends the request
    || (r == Failure(Downstream(Unavailable)) && c1 == c0 && t1 == t0 + [Call(Cache, Get(id), Failed)])
    // a cache 404, then a backend failure
    || (&& id !in c0 && r == Failure(Downstream(Unavailable)) && c1 == c0
        && t1 == t0 + [cacheMiss, Call(Backend, Get(id), Failed)])
    // a 404 from both
    || (&& id !in c0 && id !in b && r == Failure(NotFound(id)) && c1 == c0
        && t1 == t0 + [cacheMiss, backendMiss])
    // a cache 404, a backend hit, and the cache post failed
    || (&& id !in c0 && id in b && r == Failure(Downstream(Unavailable)) && c1 == c0
        && t1 == t0 + [cacheMiss, backendGet, Call(Cache, Post(b[id]), Failed)])
    // a cache 404, a backend hit posted to the cache and returned
    || (&& id !in c0 && id in b && r == Success(b[id]) && c1 == c0[id := b[id]]
        && t1 == t0 + [cacheMiss, backendGet, Call(Cache, Post(b[id]), Answered)])
  }

  /** A sub-map with the same keys is the whole map. */
  lemma SameKeysSubMap(a: map<string, Todo>, b: map<string, Todo>)
    requires SubMap(a, b) && a.Keys == b.Keys
    ensures a == b
  {
  }

  /**
   * A write-through whose cache post fails can leave the cache incoherent:
   * here the cache keeps the old record while the backend holds the new one.
   */
  lemma WriteThroughCanLeaveStaleEntry()
    ensures
      var old_ := Todo(Some("a"), Some("t"), false, Some(DefaultGroup), Some("2024/01/01"));
      var new_ := SetComplete(old_, true);
      var before := map["a" := old_];
      && SubMap(before, before)
      && WriteThroughEffect(new_, Failure(Downstream(Unavailable)), before, before, [],
           before["a" := new_], before,
           [Call(Backend, Post(new_), Answered), Call(Cache, Post(new_), Failed)])
      && !SubMap(before, before["a" := new_])
  {
    var old_ := Todo(Some("a"), Some("t"), false, Some(DefaultGroup), Some("2024/01/01"));
    var new_ := SetComplete(old_, true);
    var after := map["a" := old_]["a" := new_];
    assert after["a"] == new_ && new_ != old_;
  }

  /** The cache posts `retrieve()` makes while rehydrating the cache with `s`, all answered. */
  function CachePosts(s: seq<Todo>): (calls: seq<Call>)
    ensures |calls| == |s|
    ensures forall i :: 0 <= i < |s| ==> calls[i] == Call(Cache, Post(s[i]), Answered)
  {
    if s == [] then [] else CachePosts(s[..|s| - 1]) + [Call(Cache, Post(s[|s| - 1]), Answered)]
  }

  class TodosController {
    const backend: Store
    const cache: Store
    /** `todos.api.limit`: the cache size at which creates are refused. */
    const limit: int
    /** The log both stores append their requests to. */
    const log: Log

    /**
     * Two distinct stores sharing the controller's log; the backend answers
     * what it stores and the cache stores what it is sent.
     */
    ghost predicate Valid()
      reads this, backend, cache
    {
      && backend != cache && backend.Valid() && cache.Valid()
      && backend.side == Backend && cache.side == Cache
      && backend.log == log && cache.log == log
      && backend.mode != Lookaside && cache.mode != Authoritative
    }

    /** The cache-aside invariant: every cache entry is the backend's record for that id. */
    ghost predicate Coherent()
      reads this, backend, cache
    {
      SubMap(cache.data, backend.data)
    }

    constructor (backend: Store, cache: Store, limit: int)
      requires backend != cache && backend.Valid() && cache.Valid()
      requires backend.side == Backend && cache.side == Cache && backend.log == cache.log
      requires backend.mode != Lookaside && cache.mode != Authoritative
      ensures Valid()
      ensures this.backend == backend && this.cache == cache && this.limit == limit
      ensures log == backend.log
    {
      this.backend := backend;
      this.cache := cache;
      this.limit := limit;
      this.log := backend.log;
    }

    /** `retrieve()`: the cache's list, or the backend's after rehydrating an empty cache. */
    method RetrieveAll() returns (r: Result<seq<Todo>, ApiError>)
      requires Valid()
      modifies cache`data, log
      ensures Valid() && backend.data == old(backend.data)
      // the cache listing is always the first request; a failed request is the last one
      ensures |log.calls| > |old(log.calls)| && log.calls[|old(log.calls)|].side == Cache && log.calls[|old(log.calls)|].op == List
      ensures r.Failure? ==> r.error == Downstream(Unavailable) && log.calls[|log.calls| - 1].answer == Failed
      // a non-empty cache answers alone: no backend request, nothing written
      ensures old(cache.data) != map[] ==>
        && cache.data == old(cache.data)
        && (|| (r.Success? && IsListing(old(cache.data), r.value)
                && log.calls == old(log.calls) + [Call(Cache, List, Answered)])
            || (r.Failure? && log.calls == old(log.calls) + [Call(Cache, List, Failed)]))
      // an empty cache is refilled from the backend, one post per record
      ensures old(cache.data) == map[] && r.Success? ==>
        && IsListing(backend.data, r.value)
        && cache.data == backend.data
        && log.calls == old(log.calls) + [Call(Cache, List, Answered), Call(Backend, List, Answered)] + CachePosts(r.value)
      // a partial refill never puts in the cache what the backend does not hold
      ensures old(cache.data) == map[] ==> Coherent()
      ensures old(Coherent()) ==> Coherent()
    {
      var cached := cache.ListAll();
      if cached.Failure? {
        return Failure(Downstream(cached.error));
      }
      if |cached.value| < 1 {
        assert cache.data.Keys == {};
        assert cache.data == map[];
        var resp := backend.ListAll();
        if resp.Failure? {
          return Failure(Downstream(resp.error));
        }
        ghost var listed := log.calls;
        var refilled := Rehydrate(resp.value);
        assert log.calls[..|listed|] == listed;
        assert log.calls[|old(log.calls)|] == listed[|old(log.calls)|];
        if refilled.Failure? {
          return Failure(refilled.error);
        }
        return Success(resp.value);
      } else {
        return Success(cached.value);
      }
    }

    /** The `forEach` of `retrieve()`: posts each backend record to the empty cache, in order. */
    method Rehydrate(all: seq<Todo>) returns (r: Result<(), ApiError>)
      requires Valid() && cache.data == map[] && IsListing(backend.data, all)
      modifies cache`data, log
      ensures Valid() && backend.data == old(backend.data)
      ensures r.Failure? ==> r.error == Downstream(Unavailable)
      ensures |log.calls| >= |old(log.calls)| && log.calls[..|old(log.calls)|] == old(log.calls)
      ensures r.Failure? ==> |log.calls| > |old(log.calls)| && log.calls[|log.calls| - 1].answer == Failed
      ensures r.Success? ==> cache.data == backend.data && log.calls == old(log.calls) + CachePosts(all)
      ensures Coherent()
    {
      UpsertedFromEmpty(backend.data, all);
      var i := 0;
      while i < |all|
        invariant 0 <= i <= |all|
        invariant Valid() && backend.data == old(backend.data)
        invariant cache.data == Upserted(map[], all[..i])
        invariant log.calls == old(log.calls) + CachePosts(all[..i])
        invariant Coherent()
      {
        assert all[..i + 1][..i] == all[..i];
        UpsertedFromEmpty(backend.data, all[..i + 1]);
        var posted := cache.Post(all[i]);
        if posted.Failure? {
          return Failure(Downstream(posted.error));
        }
        i := i + 1;
      }
      assert all[..|all|] == all;
      SameKeysSubMap(cache.data, backend.data);
      return Success(());
    }

    /** `throwIfOverLimit`: refuses when the cache already holds `limit` records. */
    method CheckLimit() returns (r: Result<(), ApiError>)
      requires Valid()
      modifies log
      ensures r.Success? ==> |cache.data| < limit
      ensures |cache.data| >= limit ==> r.Failure?
      ensures r.Failure? ==> r.error == Downstream(Unavailable) || (r.error == BadRequest && |cache.data| >= limit)
      // one cache listing, whose failure is the Downstream one
      ensures r == Failure(Downstream(Unavailable)) ==> log.calls == old(log.calls) + [Call(Cache, List, Failed)]
      ensures r != Failure(Downstream(Unavailable)) ==> log.calls == old(log.calls) + [Call(Cache, List, Answered)]
    {
      var cached := cache.ListAll();
      if cached.Failure? {
        return Failure(Downstream(cached.error));
      }
      if |cached.value| >= limit {
        return Failure(BadRequest);
      }
      return Success(());
    }

    /** Posts `obj` to the backend, then the backend's answer to the cache. */
    method WriteThrough(obj: Todo) returns (r: Result<Todo, ApiError>)
      requires Valid() && obj.id.Some?
      modifies backend`data, cache`data, log
      ensures Valid()
      ensures WriteThroughEffect(obj, r, old(backend.data), old(cache.data), old(log.calls), backend.data, cache.data, log.calls)
      ensures r.Success? && backend.mode == Echo ==> r.value == obj
    {
      var saved := backend.Post(obj);
      if saved.Failure? {
        return Failure(Downstream(saved.error));
      }
      // the cache's answer is not used
      var cached := cache.Post(saved.value);
      if cached.Failure? {
        return Failure(Downstream(cached.error));
      }
      return Success(saved.value);
    }

    /** `create`: admission check, title check, then write-through of the built record. */
    method Create(input: Todo, freshId: string, today: string) returns (r: Result<Todo, ApiError>)
      requires Valid() && freshId != ""
      modifies backend`data, cache`data, log
      ensures Valid()
      // the admission check's cache listing is always the first request
      ensures |log.calls| > |old(log.calls)| && log.calls[|old(log.calls)|].side == Cache && log.calls[|old(log.calls)|].op == List
      // over the limit, or without a title: a bad request (or the listing's failure), nothing written
      ensures |old(cache.data)| >= limit || input.title == None ==>
        && (r == Failure(BadRequest) || r == Failure(Downstream(Unavailable)))
        && backend.data == old(backend.data) && cache.data == old(cache.data)
        && |log.calls| == |old(log.calls)| + 1
      ensures r == Failure(BadRequest) ==>
        && (|old(cache.data)| >= limit || input.title == None)
        && log.calls == old(log.calls) + [Call(Cache, List, Answered)]
      // ... and it is a bad request exactly when the listing was answered
      ensures |old(cache.data)| >= limit || input.title == None ==>
        && (r == Failure(BadRequest) <==> log.calls == old(log.calls) + [Call(Cache, List, Answered)])
        && (r == Failure(Downstream(Unavailable)) <==> log.calls == old(log.calls) + [Call(Cache, List, Failed)])
      // within the limit and with a title: the built record is written through,
      // unless the admission check's listing itself failed
      ensures |old(cache.data)| < limit && input.title != None ==>
        || (&& r == Failure(Downstream(Unavailable))
            && backend.data == old(backend.data) && cache.data == old(cache.data)
            && log.calls == old(log.calls) + [Call(Cache, List, Failed)])
        || WriteThroughEffect(BuildCreated(input, freshId, today), r,
             old(backend.data), old(cache.data), old(log.calls) + [Call(Cache, List, Answered)],
             backend.data, cache.data, log.calls)
      ensures r.Success? ==> r.value.id == BuildCreated(input, freshId, today).id
      ensures r.Success? && backend.mode == Echo ==> r.value == BuildCreated(input, freshId, today)
      ensures old(Coherent()) && (r.Success? || backend.data == old(backend.data)) ==> Coherent()
    {
      var admitted := CheckLimit();
      if admitted.Failure? {
        return Failure(admitted.error);
      }
      if input.title == None {
        return Failure(BadRequest);
      }
      var obj := BuildCreated(input, freshId, today);
      r := WriteThrough(obj);
    }

    /** `put` (POST on an id): the body id must be the path id; the title is never written. */
    method Put(id: string, input: Todo, today: string) returns (r: Result<Todo, ApiError>)
      requires Valid()
      modifies backend`data, cache`data, log
      ensures Valid()
      // a missing or different body id is refused before any store is asked
      ensures input.id != Some(id) ==>
        && r == Failure(BadRequest)
        && backend.data == old(backend.data) && cache.data == old(cache.data)
        && log.calls == old(log.calls)
      ensures input.id == Some(id) ==>
        WriteThroughEffect(BuildReplaced(input, today), r,
          old(backend.data), old(cache.data), old(log.calls), backend.data, cache.data, log.calls)
      ensures r.Success? ==> r.value.id == Some(id)
      ensures r.Success? && backend.mode == Echo ==> r.value == BuildReplaced(input, today) && r.value.title == None
      ensures old(Coherent()) && (r.Success? || backend.data == old(backend.data)) ==> Coherent()
    {
      if input.id == None {
        return Failure(BadRequest);
      }
      if input.id.value != id {
        return Failure(BadRequest);
      }
      var obj := BuildReplaced(input, today);
      r := WriteThrough(obj);
    }

    /** `update` (PATCH on an id): the body id must be the path id; a non-empty title is kept. */
    method Update(id: string, input: Todo, today: string) returns (r: Result<Todo, ApiError>)
      requires Valid()
      modifies backend`data, cache`data, log
      ensures Valid()
      // a missing or different body id is refused before any store is asked
      ensures input.id != Some(id) ==>
        && r == Failure(BadRequest)
        && backend.data == old(backend.data) && cache.data == old(cache.data)
        && log.calls == old(log.calls)
      ensures input.id == Some(id) ==>
        WriteThroughEffect(BuildPatched(input, today), r,
          old(backend.data), old(cache.data), old(log.calls), backend.data, cache.data, log.calls)
      ensures r.Success? ==> r.value.id == Some(id)
      ensures r.Success? && backend.mode == Echo ==> r.value == BuildPatched(input, today)
      ensures old(Coherent()) && (r.Success? || backend.data == old(backend.data)) ==> Coherent()
    {
      if input.id == None {
        return Failure(BadRequest);
      }
      if input.id.value != id {
        return Failure(BadRequest);
      }
      var obj := BuildPatched(input, today);
      r := WriteThrough(obj);
    }

    /** `retrieve(id)`: the cache's record, or the backend's, which then fills the cache. */
    method Retrieve(id: string) returns (r: Result<Todo, ApiError>)
      requires Valid()
      modifies cache`data, log
      ensures Valid() && backend.data == old(backend.data)
      ensures RetrieveOutcome(id, r, backend.data, old(cache.data), old(log.calls), cache.data, log.calls)
      ensures old(Coherent()) ==> Coherent()
    {
      var cached := cache.Get(id);
      if cached.Failure? && cached.error != Missing {
        return Failure(Downstream(cached.error));
      }
      if cached.Success? {
        return Success(cached.value);
      }
      var source := backend.Get(id);
      if source.Failure? && source.error != Missing {
        return Failure(Downstream(source.error));
      }
      if source.Success? {
        // the cache's answer is not used; its failure propagates
        var posted := cache.Post(source.value);
        if posted.Failure? {
          return Failure(Downstream(posted.error));
        }
        return Success(source.value);
      }
      return Failure(NotFound(id));
    }

    /** `delete(id)`: removes the id from the backend, then from the cache. */
    method Delete(id: string) returns (r: Result<(), ApiError>)
      requires Valid()
      modifies backend`data, cache`data, log
      ensures Valid()
      ensures || (&& r == Success(())
                  && backend.data == old(backend.data) - {id} && cache.data == old(cache.data) - {id}
                  && log.calls == old(log.calls) + [Call(Backend, Remove(id), Answered), Call(Cache, Remove(id), Answered)])
              || (&& r == Failure(Downstream(Unavailable))
                  && backend.data == old(backend.data) && cache.data == old(cache.data)
                  && log.calls == old(log.calls) + [Call(Backend, Remove(id), Failed)])
              || (&& r == Failure(Downstream(Unavailable))
                  && backend.data == old(backend.data) - {id} && cache.data == old(cache.data)
                  && log.calls == old(log.calls) + [Call(Backend, Remove(id), Answered), Call(Cache, Remove(id), Failed)])
      ensures old(Coherent()) && (r.Success? || backend.data == old(backend.data)) ==> Coherent()
    {
      var removed := backend.Delete(id);
      if removed.Failure? {
        return Failure(Downstream(removed.error));
      }
      var evicted := cache.Delete(id);
      if evicted.Failure? {
        return Failure(Downstream(evicted.error));
      }
      return Success(());
    }

    /** `deleteAll()`: empties the backend, then the cache. */
    method DeleteAll() returns (r: Result<(), ApiError>)
      requires Valid()
      modifies backend`data, cache`data, log
      ensures Valid()
      ensures || (&& r == Success(())
                  && backend.data == map[] && cache.data == map[]
                  && log.calls == old(log.calls) + [Call(Backend, Clear, Answered), Call(Cache, Clear, Answered)])
              || (&& r == Failure(Downstream(Unavailable))
                  && backend.data == old(backend.data) && cache.data == old(cache.data)
                  && log.calls == old(log.calls) + [Call(Backend, Clear, Failed)])
              || (&& r == Failure(Downstream(Unavailable))
                  && backend.data == map[] && cache.data == old(cache.data)
                  && log.calls == old(log.calls) + [Call(Backend, Clear, Answered), Call(Cache, Clear, Failed)])
      ensures r.Success? ==> Coherent()
      ensures old(Coherent()) && backend.data == old(backend.data) ==> Coherent()
    {
      var cleared := backend.DeleteAll();
      if cleared.Failure? {
        return Failure(Downstream(cleared.error));
      }
      var flushed := cache.DeleteAll();
      if flushed.Failure? {
        return Failure(Downstream(flushed.error));
      }
      return Success(());
    }
  }
}
