/**
 * A client of the controller, from fresh empty stores: create a todo with
 * only a title, read it back, delete it, read it again. Only the contracts
 * of the controller and the stores are used.
 */
module Scenario {
  import opened Wrappers
  import opened TodoRecord
  import opened Stores
  import opened Controller

  method CreateReadDeleteRead(freshId: string, today: string)
    returns (created: Result<Todo, ApiError>, fetched: Result<Todo, ApiError>,
             deleted: Result<(), ApiError>, refetched: Result<Todo, ApiError>)
    requires freshId != ""
    // the created todo is fully defaulted: generated id, default group, today, not complete
    ensures created.Success? ==>
      created.value == Todo(Some(freshId), Some("Buy milk"), false, Some("Default group"), Some(today))
    // reading it back answers the same record
    ensures created.Success? && fetched.Success? ==> fetched == created
    // once deleted it can no longer be read
    ensures deleted.Success? ==> refetched.Failure?
    ensures deleted.Success? && refetched.Failure? ==>
      refetched.error == NotFound(freshId) || refetched.error == Downstream(Unavailable)
  {
    // a backend that stores what it is sent, and a cache, logging to one log
    var log := new Log();
    var backend := new Store(Backend, Echo, log);
    var cache := new Store(Cache, Lookaside, log);
    var api := new TodosController(backend, cache, DefaultLimit);
    created := api.Create(Todo(None, Some("Buy milk"), false, None, None), freshId, today);
    ghost var written := BuildCreated(Todo(None, Some("Buy milk"), false, None, None), freshId, today);
    assert written.id == Some(freshId);
    ghost var before := log.calls;
    fetched := api.Retrieve(freshId);
    // once created, the record is served from the cache alone
    assert created.Success? ==>
      log.calls == before + [Call(Cache, Get(freshId), Answered)] || log.calls == before + [Call(Cache, Get(freshId), Failed)];
    deleted := api.Delete(freshId);
    refetched := api.Retrieve(freshId);
  }
}
