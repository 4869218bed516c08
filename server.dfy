/**
 * The REST surface over the todo store: each route handler looks a record up,
 * calls at most one store operation and answers with a status and a JSON body.
 */
module Server {
  import opened Optional
  import opened Db

  /** The JSON bodies the handlers send. */
  datatype Body =
    | Record(todo: Todo)                  // a bare record
    | Records(todos: seq<Todo>)           // a bare array of records
    | JsonString(s: string)               // a bare JSON string
    | ErrorMessage(errorMessage: string)  // {errorMessage}
    | Fail(message: string)               // {status: "fail", message}
    | Removed(didRemove: Lookup<Todo>)    // {status: "success", data: {didRemove}}
    | Updated(didUpdate: Lookup<Todo>)    // {status: "success", data: {didUpdate}}

  datatype Response = Response(status: int, body: Body)

  /** The body of POST /todos; only `text` is used. */
  datatype PostBody = PostBody(text: Option<string>, createdAt: Option<int>, completed: Option<bool>)

  const NotFoundSentinel := "Not found"
  const MissingTextMessage := "You must provide some text for your todo."
  const NoTodoMessage := "No todo found with that ID."

  /** JavaScript truthiness of an optional string: present and not empty. */
  predicate Truthy(text: Option<string>): (b: bool)
    ensures b <==> text.Some? && |text.value| > 0
  {
    text.Some? && text.value != ""
  }

  /**
   * `getTodoById(parseInt(req.params.id))`, with the parsed path id given as
   * `None` when it is NaN: NaN equals no id, so nothing is found.
   */
  function LookupPathId(store: Store, id: Option<int>): (r: Lookup<Todo>)
    reads store
    ensures r.Found? ==> id.Some? && r.value in store.db && r.value.id == id.value
    ensures r.NotFound? <==> id.None? || !HasId(store.db, id.value)
  {
    if id.None? then NotFound else store.GetTodoById(id.value)
  }

  /** GET /todos: 200 with every record, oldest first. */
  function GetTodos(store: Store): (r: Response)
    reads store
    ensures r.status == 200 && r.body.Records?
    ensures r.body.todos == store.db
    ensures store.Valid() ==> IdsAscending(r.body.todos)
  {
    Response(200, Records(store.GetAllTodos()))
  }

  /** GET /todos/:id: 200 with the record when one has that id, else 404 with the sentinel. */
  function GetTodo(store: Store, id: Option<int>): (r: Response)
    reads store
    ensures r.status == 200 || r.status == 404
    ensures r.status == 200 <==> id.Some? && HasId(store.db, id.value)
    ensures r.status == 200 ==> r.body.Record? && r.body.todo in store.db && r.body.todo.id == id.value
    ensures r.status == 404 ==> r.body == JsonString(NotFoundSentinel)
  {
    var matchingTodo := LookupPathId(store, id);
    match matchingTodo
    case NotFound => Response(404, JsonString(NotFoundSentinel))
    case Found(t) => Response(200, Record(t))
  }

  /**
   * POST /todos: with a truthy `text`, adds one record and answers 201 with
   * it; otherwise answers 400 and leaves the store alone.
   */
  method PostTodo(store: Store, body: PostBody, now: int) returns (r: Response)
    requires store.Valid()
    modifies store
    ensures store.Valid()
    ensures Truthy(body.text) ==>
      var t := Todo(old(store.idCounter) + 1, body.text.value, now, false);
      && r == Response(201, Record(t))
      && store.db == old(store.db) + [t]
      && store.idCounter == old(store.idCounter) + 1
    ensures !Truthy(body.text) ==>
      && r == Response(400, ErrorMessage(MissingTextMessage))
      && store.db == old(store.db)
      && store.idCounter == old(store.idCounter)
  {
    if Truthy(body.text) {
      var createdSignature := store.AddTodo(
        TodoData(body.text.value, body.createdAt.GetOr(0), body.completed.GetOr(false)), now);
      r := Response(201, Record(createdSignature));
    } else {
      r := Response(400, ErrorMessage(MissingTextMessage));
    }
  }

  /**
   * DELETE /todos/:id: when a record has that id, removes it and answers 200
   * with it in a success envelope; otherwise 404 with a fail envelope and the
   * store unchanged.
   */
  method DeleteTodo(store: Store, id: Option<int>) returns (r: Response)
    requires store.Valid()
    modifies store
    ensures store.Valid() && store.idCounter == old(store.idCounter)
    ensures old(LookupPathId(store, id)).NotFound? ==>
      r == Response(404, Fail(NoTodoMessage)) && store.db == old(store.db)
    ensures old(LookupPathId(store, id)).Found? ==>
      var k := FindIndex(old(store.db), id.value);
      && 0 <= k
      && r == Response(200, Removed(Found(old(store.db)[k])))
      && store.db == Splice(old(store.db), k)
    ensures id.Some? ==> !HasId(store.db, id.value)
  {
    var matchingTodo := LookupPathId(store, id);
    if matchingTodo.NotFound? {
      r := Response(404, Fail(NoTodoMessage));
    } else {
      var didRemove := store.DeleteTodoById(matchingTodo.value.id);
      r := Response(200, Removed(didRemove));
    }
  }

  /**
   * PATCH /todos/:id: when a record has that id, merges the body into it and
   * answers 201 (not 200) with it in a success envelope; otherwise 404 with a
   * fail envelope and the store unchanged.
   */
  method PatchTodo(store: Store, id: Option<int>, body: TodoPatch) returns (r: Response)
    requires store.Valid()
    modifies store
    ensures store.Valid() && store.idCounter == old(store.idCounter)
    ensures old(LookupPathId(store, id)).NotFound? ==>
      r == Response(404, Fail(NoTodoMessage)) && store.db == old(store.db)
    ensures old(LookupPathId(store, id)).Found? ==>
      var k := FindIndex(old(store.db), id.value);
      && 0 <= k
      && r == Response(201, Updated(Found(Assign(old(store.db)[k], body))))
      && store.db == old(store.db)[k := Assign(old(store.db)[k], body)]
  {
    var matchingTodo := LookupPathId(store, id);
    if matchingTodo.NotFound? {
      r := Response(404, Fail(NoTodoMessage));
    } else {
      var didUpdate := store.UpdateTodoById(id.value, body);
      r := Response(201, Updated(didUpdate));
    }
  }

  /**
   * Module start-up: a fresh store seeded with ten dummy records, which get
   * the ids 1 to 10, before any request is handled.
   */
  method Startup(picks: seq<nat>, clock: seq<int>) returns (store: Store)
    requires |picks| == 10 && |clock| == 10
    requires forall i :: 0 <= i < 10 ==> picks[i] < |DummyTexts|
    ensures fresh(store) && store.Valid()
    ensures store.idCounter == 10 && |store.db| == 10
    ensures forall i :: 0 <= i < 10 ==>
      store.db[i] == Todo(i + 1, DummyTexts[picks[i]], clock[i], false)
  {
    store := new Store();
    var seeded := store.AddDummyTodos(10, picks, clock);
  }

  /**
   * On an empty store: POST "Buy milk" creates id 1, GET finds the same
   * record, DELETE removes it, and a second GET answers 404.
   */
  method CreateFetchDeleteScenario(now: int)
    returns (created: Response, fetched: Response, removed: Response, refetched: Response)
    ensures created == Response(201, Record(Todo(1, "Buy milk", now, false)))
    ensures fetched == Response(200, Record(Todo(1, "Buy milk", now, false)))
    ensures removed == Response(200, Removed(Found(Todo(1, "Buy milk", now, false))))
    ensures refetched == Response(404, JsonString(NotFoundSentinel))
  {
    var store := new Store();
    created := PostTodo(store, PostBody(Some("Buy milk"), None, None), now);
    fetched := GetTodo(store, Some(1));
    removed := DeleteTodo(store, Some(1));
    refetched := GetTodo(store, Some(1));
  }

  /**
   * After start-up: a POST without text answers 400 and a PATCH of id 999
   * answers 404, and neither changes the seeded records.
   */
  method RejectionScenario(picks: seq<nat>, clock: seq<int>, patch: TodoPatch, now: int)
    returns (emptyPost: Response, missingPatch: Response, records: seq<Todo>)
    requires |picks| == 10 && |clock| == 10
    requires forall i :: 0 <= i < 10 ==> picks[i] < |DummyTexts|
    ensures emptyPost == Response(400, ErrorMessage(MissingTextMessage))
    ensures missingPatch == Response(404, Fail(NoTodoMessage))
    ensures |records| == 10 && forall i :: 0 <= i < 10 ==> records[i].id == i + 1
  {
    var store := Startup(picks, clock);
    emptyPost := PostTodo(store, PostBody(None, None, None), now);
    missingPatch := PatchTodo(store, Some(999), patch);
    records := GetTodos(store).body.todos;
  }
}
