/**
 * The two collaborators of the controller, the durable backend and the
 * lookaside cache. Both are reached through `RestTemplate` and answer the
 * same requests: list everything, get one record by id, post (create or
 * overwrite by id), delete one, delete all. Each is modelled as a keyed store
 * of records. Any request may fail in transport or on the server side
 * (`Unavailable`, a non-404 `HttpStatusCodeException` or an I/O error in
 * Java); a failed request changes nothing. A get for an absent id answers
 * `Missing`, the 404 the controller treats as a cache miss.
 */
module Stores {
  import opened Wrappers
  import opened TodoRecord

  datatype StoreError = Missing | Unavailable

  /** Every record of `s` carries an id. */
  predicate Keyed(s: seq<Todo>) {
    forall i :: 0 <= i < |s| ==> s[i].id.Some?
  }

  /** `t` is stored in `m` under its own id. */
  predicate Holds(m: map<string, Todo>, t: Todo) {
    t.id.Some? && t.id.value in m && m[t.id.value] == t
  }

  /** `a` agrees with `b` wherever `a` has an entry. */
  predicate SubMap(a: map<string, Todo>, b: map<string, Todo>) {
    forall k :: k in a ==> k in b && a[k] == b[k]
  }

  /** The ids of the records of `s`. */
  function IdsOf(s: seq<Todo>): (ids: set<string>)
    requires Keyed(s)
  {
    if s == [] then {} else IdsOf(s[..|s| - 1]) + {s[|s| - 1].id.value}
  }

  /**
   * `s` is an answer to "list everything" from a store holding `m`: one
   * record per entry, each the stored record, and every id present.
   */
  predicate IsListing(m: map<string, Todo>, s: seq<Todo>) {
    && Keyed(s)
    && |s| == |m|
    && (forall i :: 0 <= i < |s| ==> Holds(m, s[i]))
    && IdsOf(s) == m.Keys
  }

  /** The contents of `m` after posting the records of `s` one by one, in order. */
  function Upserted(m: map<string, Todo>, s: seq<Todo>): map<string, Todo>
    requires Keyed(s)
  {
    if s == [] then m
    else
      var last := s[|s| - 1];
      Upserted(m, s[..|s| - 1])[last.id.value := last]
  }

  lemma IdsOfSnoc(s: seq<Todo>, t: Todo)
    requires Keyed(s) && t.id.Some?
    ensures Keyed(s + [t]) && IdsOf(s + [t]) == IdsOf(s) + {t.id.value}
  {
    assert (s + [t])[..|s|] == s;
  }

  /**
   * Posting, into an empty store, records that all come from `m` rebuilds
   * exactly the part of `m` with their ids.
   */
  lemma {:induction false} UpsertedFromEmpty(m: map<string, Todo>, s: seq<Todo>)
    requires forall i :: 0 <= i < |s| ==> Holds(m, s[i])
    ensures Keyed(s)
    ensures Upserted(map[], s).Keys == IdsOf(s)
    ensures SubMap(Upserted(map[], s), m)
  {
    if s != [] {
      var init := s[..|s| - 1];
      assert forall i :: 0 <= i < |init| ==> Holds(m, init[i]) by {
        forall i | 0 <= i < |init| ensures Holds(m, init[i]) {
          assert init[i] == s[i];
        }
      }
      UpsertedFromEmpty(m, init);
      assert Holds(m, s[|s| - 1]);
    }
  }

  // ---------------------------------------------------------------------
  // The log of requests made to the stores
  // ---------------------------------------------------------------------

  /** A request made to one of the two stores and how it was answered. */
  datatype Side = Backend | Cache
  datatype Op = List | Get(id: string) | Post(record: Todo) | Remove(id: string) | Clear
  datatype Answer = Answered | Absent | Failed
  datatype Call = Call(side: Side, op: Op, answer: Answer)

  /** How a store's result is recorded: an answer, a 404, or any other failure. */
  function AnswerOf<T>(r: Result<T, StoreError>): (a: Answer)
    ensures a == Answered <==> r.Success?
    ensures a == Absent <==> r == Failure(Missing)
  {
    if r.Success? then Answered else if r.error == Missing then Absent else Failed
  }

  /** Every request made to the stores that share it, with its answer, in order. */
  class Log {
    ghost var calls: seq<Call>

    constructor ()
      ensures calls == []
    {
      calls := [];
    }
  }

  /**
   * How a store treats a post. `Echo` stores and answers the record it is
   * sent. `Authoritative` stores a record of its own making and answers that
   * same record. `Lookaside` stores the record it is sent and may answer any
   * record carrying its id.
   */
  datatype PostMode = Echo | Authoritative | Lookaside

  /** A keyed store of todos, the backend or the cache. Every request is appended to `log`. */
  class Store {
    var data: map<string, Todo>
    const side: Side
    const mode: PostMode
    const log: Log

    /** Every record is stored under its own id. */
    ghost predicate Valid()
      reads this
    {
      forall k :: k in data ==> data[k].id == Some(k)
    }

    constructor (side: Side, mode: PostMode, log: Log)
      ensures Valid() && data == map[]
      ensures this.side == side && this.mode == mode && this.log == log
    {
      data := map[];
      this.side := side;
      this.mode := mode;
      this.log := log;
    }

    /** GET on the collection: every stored record, in some order. */
    method ListAll() returns (r: Result<seq<Todo>, StoreError>)
      requires Valid()
      modifies log
      ensures log.calls == old(log.calls) + [Call(side, List, AnswerOf(r))]
      ensures r.Success? ==> IsListing(data, r.value)
      ensures r.Failure? ==> r.error == Unavailable
    {
      var rest := data.Keys;
      var s: seq<Todo> := [];
      while rest != {}
        invariant rest <= data.Keys
        invariant Keyed(s) && IdsOf(s) == data.Keys - rest
        invariant forall i :: 0 <= i < |s| ==> Holds(data, s[i])
        invariant |s| + |rest| == |data.Keys|
        invariant log.calls == old(log.calls)
        decreases |rest|
      {
        var k :| k in rest;
        IdsOfSnoc(s, data[k]);
        s := s + [data[k]];
        rest := rest - {k};
      }
      r := Success(s);
      log.calls := log.calls + [Call(side, List, AnswerOf(r))];
    }

    /** GET on one id: the stored record, or a 404 when there is none. */
    method Get(id: string) returns (r: Result<Todo, StoreError>)
      requires Valid()
      modifies log
      ensures log.calls == old(log.calls) + [Call(side, Op.Get(id), AnswerOf(r))]
      ensures id in data ==> r == Success(data[id]) || r == Failure(Unavailable)
      ensures id !in data ==> r == Failure(Missing) || r == Failure(Unavailable)
    {
      if id in data {
        r := Success(data[id]);
      } else {
        r := Failure(Missing);
      }
      log.calls := log.calls + [Call(side, Op.Get(id), AnswerOf(r))];
    }

    /** POST of a record: stores a record under the posted id and answers one carrying that id. */
    method Post(t: Todo) returns (r: Result<Todo, StoreError>)
      requires Valid() && t.id.Some?
      modifies this`data, log
      ensures Valid()
      ensures log.calls == old(log.calls) + [Call(side, Op.Post(t), AnswerOf(r))]
      ensures r.Success? ==> r.value.id == t.id
      ensures r.Success? && mode == Echo ==> r.value == t
      ensures r.Success? && mode == Authoritative ==> data == old(data)[t.id.value := r.value]
      ensures r.Success? && mode != Authoritative ==> data == old(data)[t.id.value := t]
      ensures r.Failure? ==> r.error == Unavailable && data == old(data)
    {
      data := data[t.id.value := t];
      r := Success(t);
      log.calls := log.calls + [Call(side, Op.Post(t), AnswerOf(r))];
    }

    /** DELETE on one id; an absent id is not an error. */
    method Delete(id: string) returns (r: Result<(), StoreError>)
      requires Valid()
      modifies this`data, log
      ensures Valid()
      ensures log.calls == old(log.calls) + [Call(side, Remove(id), AnswerOf(r))]
      ensures || (r == Success(()) && data == old(data) - {id})
              || (r == Failure(Unavailable) && data == old(data))
    {
      data := data - {id};
      r := Success(());
      log.calls := log.calls + [Call(side, Remove(id), AnswerOf(r))];
    }

    /** DELETE on the collection. */
    method DeleteAll() returns (r: Result<(), StoreError>)
      requires Valid()
      modifies this`data, log
      ensures Valid()
      ensures log.calls == old(log.calls) + [Call(side, Clear, AnswerOf(r))]
      ensures || (r == Success(()) && data == map[])
              || (r == Failure(Unavailable) && data == old(data))
    {
      data := map[];
      r := Success(());
      log.calls := log.calls + [Call(side, Clear, AnswerOf(r))];
    }
  }
}
