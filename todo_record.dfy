/**
 * The `Todo` record exchanged with clients and with both stores
 * (io.todos.api.data.Todo). The Java bean has five private fields with a
 * getter and a setter each; here it is an immutable value: the getters are
 * the datatype's destructors (`t.id`, `t.title`, ...), which cannot change
 * the record, and each setter is a function that returns the updated record.
 */
module TodoRecord {
  import opened Wrappers

  /** A todo; a `None` string field is a Java `null`. */
  datatype Todo = Todo(
    id: Option<string>,
    title: Option<string>,
    complete: bool,
    category: Option<string>,
    deadline: Option<string>)

  /** The record `new Todo()` yields: Java's field defaults. */
  function NewTodo(): (t: Todo)
    ensures t.id == None && t.title == None && t.category == None && t.deadline == None
    ensures !t.complete
  {
    Todo(None, None, false, None, None)
  }

  /** `setId`: the getter then answers `id`; the other four fields are untouched. */
  function SetId(t: Todo, id: Option<string>): (r: Todo)
    ensures r.id == id
    ensures r.title == t.title && r.complete == t.complete
    ensures r.category == t.category && r.deadline == t.deadline
  {
    t.(id := id)
  }

  /** `setTitle`: the getter then answers `title`; the other four fields are untouched. */
  function SetTitle(t: Todo, title: Option<string>): (r: Todo)
    ensures r.title == title
    ensures r.id == t.id && r.complete == t.complete
    ensures r.category == t.category && r.deadline == t.deadline
  {
    t.(title := title)
  }

  /** `setComplete`: the getter then answers `complete`; the other four fields are untouched. */
  function SetComplete(t: Todo, complete: bool): (r: Todo)
    ensures r.complete == complete
    ensures r.id == t.id && r.title == t.title
    ensures r.category == t.category && r.deadline == t.deadline
  {
    t.(complete := complete)
  }

  /** `setCategory`: the getter then answers `category`; the other four fields are untouched. */
  function SetCategory(t: Todo, category: Option<string>): (r: Todo)
    ensures r.category == category
    ensures r.id == t.id && r.title == t.title
    ensures r.complete == t.complete && r.deadline == t.deadline
  {
    t.(category := category)
  }

  /** `setDeadline`: the getter then answers `deadline`; the other four fields are untouched. */
  function SetDeadline(t: Todo, deadline: Option<string>): (r: Todo)
    ensures r.deadline == deadline
    ensures r.id == t.id && r.title == t.title
    ensures r.complete == t.complete && r.category == t.category
  {
    t.(deadline := deadline)
  }
}
