# todos-api: the cache-aside controller, in Dafny

This project models the core of the `todos-api` service: `TodosController`,
which fronts a durable backend store with a lookaside cache and serves a
collection of todo records, and the `Todo` record it exchanges.

- `Wrappers` (`wrappers.dfy`): `Option` (a Java `null`) and `Result` (a thrown exception).
- `TodoRecord` (`todo_record.dfy`): the five-field `Todo` bean as an immutable
  datatype. Its getters are the datatype's destructors, which are read-only by
  construction. Its setters are functions that change one field and keep the other four.
- `Stores` (`stores.dfy`): the two collaborators reached through `RestTemplate`.
  Each is a `Store` class holding a map from id to record, with the requests the
  controller makes: list, get one, post, delete one, delete all. Any request may
  fail (`Unavailable`), and a failed request changes nothing. A store's
  `PostMode` says how it treats a post. The backend either stores and answers
  the record it is sent (`Echo`) or stores a record of its own making and
  answers that same record (`Authoritative`). The cache stores the record it is
  sent, and its answer need only carry the posted id (`Lookaside`), so a
  contract that relies on the cache's answer does not verify. A get for an
  absent id answers `Missing`, the 404 the controller uses as the cache-miss
  signal. Both stores append every request they receive, with its answer
  (answered, 404 or failed), to one shared ghost `Log`.
- `Controller` (`controller.dfy`): the record builders for create, put and patch,
  as pure functions of the request body, a generated id and today's date. Also
  the `TodosController` class, whose methods change the two stores in the order
  the Java code does. Because the stores write the log themselves, the
  controller's contracts on the log state the order of requests, which store
  was asked, and that a failed request ends the operation. The
  predicate `Coherent` states the cache-aside invariant: every cache entry equals
  the backend's record for that id.
- `Scenario` (`scenario.dfy`): a client that runs create, get, delete and get
  again against empty stores, using only the contracts.

`UUID.randomUUID()` is a `freshId` parameter, which must be non-empty.
`LocalDateTime.now()` formatted as `yyyy/MM/dd` is a `today` parameter.

Behaviour that is easy to misread:
- A failed cache post is not swallowed. In `create`, `put`, `update`,
  `retrieve(id)` and the refill loop of `retrieve()`, the exception thrown by
  `postForObject` propagates. In `create`, `put` and `update` the backend write
  has already happened by then; in `retrieve(id)` and `retrieve()` the backend
  was only read. Either way the request fails with `Downstream`. `Coherent` is promised only when the
  request succeeds or the backend was not written. A cache request that fails
  after a backend write in `create`, `put`, `update`, `delete` or `deleteAll` can
  leave a stale cache entry; `Controller.WriteThroughCanLeaveStaleEntry` exhibits
  one for a write-through.
- `complete` is always copied from the body, because `ObjectUtils.isEmpty` on a
  boxed boolean is always false.
- A create whose title is `""` passes the null check, but the stored title stays unset.
- `put` sends a record whose title is null. What the backend then stores is its own answer, which an `Echo` backend keeps with a null title.

## Model

| member | source | states |
|---|---|---|
| `TodoRecord.NewTodo` | src/main/java/io/todos/api/data/Todo.java:5-9 | a fresh record has a null id, title, category and deadline, and `complete` is false |
| `TodoRecord.SetId` | src/main/java/io/todos/api/data/Todo.java:11-17 | reading the id after setting it gives the value set; the other four fields are unchanged |
| `TodoRecord.SetTitle` | src/main/java/io/todos/api/data/Todo.java:19-25 | reading the title after setting it gives the value set; the other four fields are unchanged |
| `TodoRecord.SetComplete` | src/main/java/io/todos/api/data/Todo.java:27-33 | reading `complete` after setting it gives the value set; the other four fields are unchanged |
| `TodoRecord.SetCategory` | src/main/java/io/todos/api/data/Todo.java:35-41 | reading the category after setting it gives the value set; the other four fields are unchanged |
| `TodoRecord.SetDeadline` | src/main/java/io/todos/api/data/Todo.java:43-45 | reading the deadline after setting it gives the value set; the other four fields are unchanged |
| `Stores.Store.ListAll` | src/main/java/io/todos/api/TodosController.java:42 | a successful listing has exactly one entry per stored record: as many entries as the store holds, each the record stored under its id, every id present; the request and its answer are appended to the log |
| `Stores.Store.Get` | src/main/java/io/todos/api/TodosController.java:153 | a stored id answers its record or fails as unavailable; an absent id answers a 404 or fails as unavailable; the request and its answer are appended to the log |
| `Stores.Store.Post` | src/main/java/io/todos/api/TodosController.java:91 | answers a record with the posted id; an `Echo` store stores and answers the record sent, an `Authoritative` store stores exactly the record it answers, a `Lookaside` store stores the record sent; or fails and changes nothing; the request and its answer are appended to the log |
| `Stores.Store.Delete` | src/main/java/io/todos/api/TodosController.java:191 | removes exactly that id, or fails and changes nothing; the request is appended to the log |
| `Stores.Store.DeleteAll` | src/main/java/io/todos/api/TodosController.java:142 | empties the store, or fails and changes nothing; the request is appended to the log |
| `Stores.UpsertedFromEmpty` | src/main/java/io/todos/api/TodosController.java:46-48 | posting, in order, records taken from a store into an empty store gives exactly that store's entries for those ids |
| `Controller.ApplyDefaults` | src/main/java/io/todos/api/TodosController.java:113-125 | `complete` is copied; an empty category becomes "Default group" and an empty deadline becomes today; a non-empty value is kept; id and title are untouched |
| `Controller.BuildCreated` | src/main/java/io/todos/api/TodosController.java:67-88 | the id is the body's if non-empty, else the generated one, so it is never empty; the title is set only when non-empty; the shared defaulting applies |
| `Controller.BuildReplaced` | src/main/java/io/todos/api/TodosController.java:110-125 | the id is the body's, the title is always null, and the shared defaulting applies |
| `Controller.BuildPatched` | src/main/java/io/todos/api/TodosController.java:206-224 | the id is the body's, the title is set only when non-empty, and the shared defaulting applies |
| `Controller.ReplaceIsPatchWithoutTitle` | src/main/java/io/todos/api/TodosController.java:110-125 | put writes what patch of the same body writes, with the title cleared |
| `Controller.PatchAgreesWithCreate` | src/main/java/io/todos/api/TodosController.java:206-224 | for a body with a non-empty id, patch writes the same record as create |
| `Controller.RebuildIsIdentity` | src/main/java/io/todos/api/TodosController.java:67-88 | submitting a record that a builder produced again, with any id and date, produces the same record (defaulting is idempotent) |
| `Controller.TodosController.constructor` | src/main/java/io/todos/api/TodosController.java:23-34 | the controller holds two distinct stores that share its log, and the configured limit |
| `Controller.TodosController.RetrieveAll` | src/main/java/io/todos/api/TodosController.java:40-53 | a non-empty cache is listed and returned with one request and no backend access; an empty cache is refilled from the backend's list, one post per record, and afterwards equals the backend; the backend never changes |
| `Controller.TodosController.Rehydrate` | src/main/java/io/todos/api/TodosController.java:47-48 | posts each backend record to the empty cache in order; on success the cache equals the backend, and even a partial refill keeps the cache coherent |
| `Controller.TodosController.CheckLimit` | src/main/java/io/todos/api/TodosController.java:236-243 | lists the cache; passes only when its size is below the limit, and refuses with a bad request at or above it |
| `Controller.TodosController.WriteThrough` | src/main/java/io/todos/api/TodosController.java:90-97 | posts to the backend first, then posts the backend's answer to the cache, and returns the backend's answer, not the cache's; a failure of either post propagates and ends the request, and the cache is never written unless the backend was |
| `Controller.WriteThroughCanLeaveStaleEntry` | src/main/java/io/todos/api/TodosController.java:90-97 | from a coherent state, a backend post that succeeds followed by a failed cache post leaves the cache holding the old record |
| `Controller.TodosController.Create` | src/main/java/io/todos/api/TodosController.java:58-98 | the limit check is the first request; over the limit or with a null title nothing is written, and the request fails with a bad request exactly when the listing was answered and with the listing's failure otherwise; otherwise the built record is written through and the backend's answer returned |
| `Controller.TodosController.Put` | src/main/java/io/todos/api/TodosController.java:102-135 | a null or different body id is a bad request before any store request; otherwise the built record, with the path id and no title, is written through and the backend's answer, carrying the path id, returned |
| `Controller.TodosController.Update` | src/main/java/io/todos/api/TodosController.java:198-234 | a null or different body id is a bad request before any store request; otherwise the built record, with the path id, is written through and the backend's answer, carrying the path id, returned |
| `Controller.TodosController.Retrieve` | src/main/java/io/todos/api/TodosController.java:148-186 | the cache is asked first: a hit is returned, and a failure other than a 404 ends the request without asking the backend; after a cache 404 a backend hit is posted to the cache and the backend's record, not the cache's answer, is returned, a failed post propagates, and a backend 404 gives not-found with the id; the backend never changes and coherence is kept |
| `Controller.TodosController.Delete` | src/main/java/io/todos/api/TodosController.java:189-195 | removes the id from the backend, then from the cache; no other key changes; a backend failure ends the request and leaves the cache untouched |
| `Controller.TodosController.DeleteAll` | src/main/java/io/todos/api/TodosController.java:138-145 | empties the backend, then the cache; a backend failure ends the request and leaves the cache untouched |
| `Scenario.CreateReadDeleteRead` | src/main/java/io/todos/api/TodosController.java:58-195 | from empty stores, creating a todo with only a title gives the generated id, "Default group", today's date and `complete` false; reading it back gives the same record; after a successful delete, reading it fails; the stores are an `Echo` backend and a `Lookaside` cache |

## Left out

- HTTP transport, URLs, JSON (de)serialisation, Spring annotations and routing, and logging are not modelled. The stores are plain keyed maps.
- HTTP status codes are reduced to three kinds of failure: bad request, not found, and a propagated store failure. The text of error messages is not modelled.
- A random UUID and the clock are parameters. The `yyyy/MM/dd` formatting of the date is not modelled.
- Responses with a null body are not modelled. Every successful store answer carries a record or a list. The Java code would treat a 200 with an empty body on `retrieve(id)` as a miss.
- What a real backend changes in a posted record is left open: an `Authoritative` backend may store and answer any record carrying the posted id. The cache's answer to a post is likewise constrained only by its id, since the controller ignores it.
- Each store request fails or succeeds as a whole. A request that the store carried out but whose answer was lost is not modelled.
- Deleting an absent id is a success for the store. What the real services answer in that case is outside the controller.
- Races between concurrent requests are not modelled, such as two creates that both pass the limit check.
- src/main/java/io/todos/api/TodosApi.java (application bootstrap) is not part of this model.
