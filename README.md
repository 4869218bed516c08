# Todo record store and its REST handlers, in Dafny

This project models the back end of a todo-list service. The service keeps todo
records in memory and exposes create, list, fetch, update and delete over HTTP.

- `optional.dfy` (module `Optional`): `Option`. It stands for JavaScript's
  `undefined` and for a key that a JSON body leaves out.
- `db.dfy` (module `Db`): the record store. The module-level `db` array and
  `idCounter` become the class `Store`, with a `seq<Todo>` field and a `nat`
  counter. `addTodo`, `addDummyTodos`, `deleteTodoById` and `updateTodoById`
  are methods that change the store. `findIndexOfTodoById`, `getTodoById` and
  `getAllTodos` are functions that read it. The `"Not found"` string sentinel
  becomes the datatype `Lookup` (`Found(value) | NotFound`). The array
  built-ins the store relies on are functions on sequences, each with its own
  contract: `findIndex` (`FindIndex`), `find` (`Find`) and `splice(k, 1)`
  (`Splice`). So is `Object.assign` on a record (`Assign`).
- `server.dfy` (module `Server`): the route handlers for GET/POST `/todos` and
  GET/DELETE/PATCH `/todos/:id`. Each returns a status code and a JSON body
  (`Response`). The start-up seed of ten records is `Startup`. Two scenario
  methods run request sequences and state their outcomes.

The store invariant (`Store.Valid`, i.e. `Wellformed`) says two things. Ids
strictly increase along `db`. Every id lies between 1 and `idCounter`. Together
these make ids unique. Every state-changing method keeps the invariant. Each one
states its new `db` and counter in terms of the old ones. The lemmas beside the
methods prove what those changes mean: the deleted id is gone, a fresh id is
found at the end, an update keeps ids. `idCounter` never decreases and a new id
is always `old(idCounter) + 1`, so in the model an id is never issued twice,
even after its record is deleted. The code's ids are doubles, which stop growing
at 2^53 (see "## Left out").

Three choices follow the code as written:
- PATCH merges all three fields of `todo` (`text`, `createdAt`, `completed`),
  as its `Partial<todo>` body type allows.
- PATCH answers 201 on success.
- The response bodies mix a bare record, a bare `"Not found"` string and
  `{status, data}` envelopes, exactly as the handlers send them.

## Model

| member | source | states |
|---|---|---|
| Db.FindIndex | src/db.ts:92 | `findIndex` gives the first position whose id matches, or -1 exactly when no record has that id |
| Db.Find | src/db.ts:117 | `find` gives the first stored record carrying the id, or `undefined` exactly when no record has that id |
| Db.FindAgreesWithFindIndex | src/db.ts:73-78 | `find` returns the very record at the position `findIndex` reports, so `deleteTodoById` returns the record it removes |
| Db.Splice | src/db.ts:77 | `splice(k, 1)` drops exactly the record at `k`: length one less, the records before and after keep their order, the multiset loses only that record |
| Db.Assign | src/db.ts:141 | the merge overwrites each supplied field, keeps each omitted one, and never changes the id |
| Db.AssignAsWritten | src/db.ts:141 | `Object.assign` on the untyped body also copies an `id` key, which then replaces the record's id |
| Db.AssignAsWrittenBreaksUniqueIds | src/db.ts:134-145 | a PATCH body `{"id": 1}` on the record with id 2 leaves two records with id 1 |
| Db.AssignIdempotent | src/db.ts:141 | merging the same patch twice gives the same record as merging it once |
| Db.AssignEmptyIsIdentity | src/db.ts:141 | an empty patch leaves the record unchanged |
| Db.AssignCompletedOnly | src/db.ts:134-145 | a patch of only `completed` keeps text, creation time and id |
| Db.IndexOfStoredId | src/db.ts:91-99 | with unique ids, the lookup of a stored record's id finds that record's own position |
| Db.AppendPreservesWellformed | src/db.ts:53-62 | appending a record with id counter+1 keeps ids ascending and issued, and that record is then found at the end |
| Db.SplicePreservesWellformed | src/db.ts:72-78 | removing a record keeps the invariant, and no remaining record carries its id |
| Db.ReplacePreservesWellformed | src/db.ts:134-145 | replacing a record by one with the same id keeps the invariant |
| Db.Store.constructor | src/db.ts:12-15 | the store starts empty with the counter at 0 |
| Db.Store.AddTodo | src/db.ts:53-63 | the new id is the old counter plus one and the counter advances by one; exactly one record is appended with the given text, the current time and `completed` false; earlier records are unchanged; a lookup of the new id finds it |
| Db.Store.AddDummyTodos | src/db.ts:23-45 | returns `n` records with consecutive ids old+1 to old+n, each with its picked dummy text and `completed` false; `db` grows by exactly those records |
| Db.Store.FindIndexOfTodoById | src/db.ts:91-99 | gives a valid index of a record with that id, or `NotFound` exactly when none has it |
| Db.Store.GetAllTodos | src/db.ts:105-107 | gives every record in insertion order, which under the invariant is ascending id order |
| Db.Store.GetTodoById | src/db.ts:116-123 | gives a stored record carrying the id, or `NotFound` exactly when none has it; reads only |
| Db.Store.DeleteTodoById | src/db.ts:72-82 | on a present id, removes exactly that record and returns it; on an absent id, returns `NotFound` and leaves `db` alone; afterwards the id is not found; the counter is unchanged |
| Db.Store.UpdateTodoById | src/db.ts:134-145 | on a present id, replaces that one record by its merge with the patch and returns it; length, ids and all other records are unchanged; on an absent id, returns `NotFound` and leaves `db` alone |
| Server.Truthy | src/server.ts:47 | a present, non-empty string is truthy; an absent text or `""` is not |
| Server.LookupPathId | src/server.ts:63 | a NaN path id finds nothing; a number finds a stored record with that id exactly when one exists |
| Server.GetTodos | src/server.ts:39-42 | 200 with all records in store order, ids ascending |
| Server.GetTodo | src/server.ts:62-69 | 200 with a stored record carrying the id exactly when one exists, otherwise 404 with the `"Not found"` string; reads only |
| Server.PostTodo | src/server.ts:45-59 | with truthy `text`, adds exactly one record (next id, that text, `completed` false) and answers 201 with it; otherwise answers 400 with the error message and leaves the store unchanged |
| Server.DeleteTodo | src/server.ts:72-86 | on a present id, removes that record and answers 200 with a success envelope holding it; otherwise 404 with a fail envelope and the store unchanged; afterwards the id is absent |
| Server.PatchTodo | src/server.ts:89-103 | on a present id, merges the body into that record and answers 201 with a success envelope holding it; otherwise 404 with a fail envelope and the store unchanged |
| Server.Startup | src/server.ts:17 | before any request the store holds exactly ten records with ids 1 to 10, none completed, and the counter is 10 |
| Server.CreateFetchDeleteScenario | src/server.ts:45-86 | on a fresh store, POST "Buy milk" gives 201 with id 1, GET /todos/1 gives 200 with the same record, DELETE gives 200 with it, and GET again gives 404 |
| Server.RejectionScenario | src/server.ts:17-103 | after start-up, POST without text gives 400, PATCH /todos/999 gives 404, and the ten seeded records are still there with ids 1 to 10 |

## Left out

- Express, `cors`, `dotenv`, `app.listen` and the PORT fallback. The info page
  at GET `/` (`res.sendFile` through `./filePath`) is left out too; `./filePath`
  is not part of this model.
- JSON serialisation. Bodies are the `Body` datatype. `Lookup` inside an
  envelope stands for either the record or the `"Not found"` string.
- The clock (`+new Date()`). Creation times are the parameters `now` and `clock`.
- `Math.random`. Each seed text's index is the parameter `picks`, with every
  index below 10.
- `parseInt`'s string rules. The path id arrives already parsed as
  `Option<int>`, and `None` stands for NaN.
- Db.Store.AddDummyTodos: `n` is a natural number. A negative or fractional
  `n`, which the loop would treat as 0 or round up, is not modelled.
- Records are values, not shared objects. In the code, `getAllTodos` returns the
  store's own array, and `addTodo`, `getTodoById` and `updateTodoById` return the
  very object kept in `db`. A later update is visible through those references.
  In the model, callers receive copies.
- Server.PatchTodo: the body is the three typed fields of `Partial<todo>`.
  Extra keys that `Object.assign` would copy at run time are not modelled in the
  store, and neither are `null` values. The `id` key is the one exception,
  shown under Findings.
- Server.PostTodo: `text` is a string or absent. Non-string truthy values
  (a number, say), which the code would store as the text, are not modelled. The
  body's `createdAt` and `completed` are passed to the store, which ignores them.
  In the model an absent one becomes a placeholder.
- Numbers are unbounded integers. In the code, ids, `idCounter` and `createdAt`
  are JavaScript numbers (IEEE doubles). So two behaviours are not modelled.
  First, `++idCounter` stops producing new values at 2^53, because 2^53 + 1
  rounds to 2^53, and from then on the code issues the same id again. Second, a
  fractional `createdAt` in a PATCH body (`{"createdAt": 1.5}`), which
  `Object.assign` would store, cannot be expressed by `TodoPatch`.
- Concurrency. The code runs on one thread and each handler runs to completion.

## Findings

| source | as written | input that shows it | evidently intended | confidence | as-written member | corrected member |
|---|---|---|---|---|---|---|
| src/db.ts:141 | `Object.assign(db[idx], newData)` copies every key of the request body, including `id` | PATCH `/todos/2` with body `{"id": 1}` while records 1 and 2 exist: afterwards two records have id 1 | merge only the fields of `todo` (`Partial<todo>`), so ids stay unique | medium, not executed | Db.AssignAsWrittenBreaksUniqueIds | Db.Assign |
