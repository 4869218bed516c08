/**
 * The in-memory todo record store: an ordered collection of records and a
 * counter from which every new record takes its id.
 */
module Db {
  import opened Optional

  /** The fields of a todo as a caller supplies them (the `todo` interface). */
  datatype TodoData = TodoData(text: string, createdAt: int, completed: bool)

  /** A stored todo (`todoWithId`); `createdAt` is milliseconds since the epoch. */
  datatype Todo = Todo(id: int, text: string, createdAt: int, completed: bool)

  /** A partial `todo`: each field is either supplied or omitted. */
  datatype TodoPatch = TodoPatch(text: Option<string>, createdAt: Option<int>, completed: Option<bool>)

  /** The result of a lookup by id: the match, or the `"Not found"` sentinel. */
  datatype Lookup<+T> = Found(value: T) | NotFound

  /** The texts the seed loader picks from. */
  const DummyTexts: seq<string> := [
    "Feed the cat",
    "Water the plants",
    "Put the bins out",
    "Contemplate life",
    "Tidy up",
    "Walk the dog",
    "Write a todo list",
    "Book a holiday",
    "Write a shopping list",
    "Do the shopping"
  ]

  /** Some record of `s` carries `id`. */
  ghost predicate HasId(s: seq<Todo>, id: int) {
    exists i :: 0 <= i < |s| && s[i].id == id
  }

  /** Ids strictly increase by position, so no id occurs twice. */
  ghost predicate IdsAscending(s: seq<Todo>) {
    forall i, j :: 0 <= i < j < |s| ==> s[i].id < s[j].id
  }

  /** Every id lies between 1 and the counter: all were issued already. */
  ghost predicate IdsIssued(s: seq<Todo>, counter: int) {
    forall i :: 0 <= i < |s| ==> 0 < s[i].id <= counter
  }

  /** The store invariant. */
  ghost predicate Wellformed(s: seq<Todo>, counter: int) {
    IdsAscending(s) && IdsIssued(s, counter)
  }

  /**
   * `s.findIndex(entry => entry.id === id)`: the position of the first record
   * with that id, or -1 when there is none.
   */
  function FindIndex(s: seq<Todo>, id: int): (r: int)
    ensures -1 <= r < |s|
    ensures 0 <= r ==> s[r].id == id && forall j :: 0 <= j < r ==> s[j].id != id
    ensures r == -1 <==> !HasId(s, id)
  {
    if |s| == 0 then -1
    else if s[0].id == id then 0
    else
      var k := FindIndex(s[1..], id);
      if k == -1 then -1 else k + 1
  }

  /** `s.find(entry => entry.id === id)`: the first record with that id, or `undefined`. */
  function Find(s: seq<Todo>, id: int): (r: Option<Todo>)
    ensures r.Some? ==> r.value.id == id
    ensures r.Some? ==> exists i :: 0 <= i < |s| && s[i] == r.value && forall j :: 0 <= j < i ==> s[j].id != id
    ensures r.None? <==> !HasId(s, id)
  {
    if |s| == 0 then None
    else if s[0].id == id then Some(s[0])
    else
      var r := Find(s[1..], id);
      assert r.Some? ==> exists i :: 1 <= i < |s| && s[i] == r.value && forall j :: 0 <= j < i ==> s[j].id != id by {
        if r.Some? {
          var i :| 0 <= i < |s| - 1 && s[1..][i] == r.value && forall j :: 0 <= j < i ==> s[1..][j].id != id;
          assert s[i + 1] == r.value;
        }
      }
      r
  }

  /** `find` returns the very record at the position `findIndex` reports. */
  lemma {:induction false} FindAgreesWithFindIndex(s: seq<Todo>, id: int)
    ensures Find(s, id) == if FindIndex(s, id) < 0 then None else Some(s[FindIndex(s, id)])
  {
    if |s| > 0 && s[0].id != id {
      FindAgreesWithFindIndex(s[1..], id);
    }
  }

  /** `s.splice(k, 1)`: the record at `k` leaves, the others keep their order. */
  function Splice(s: seq<Todo>, k: nat): (r: seq<Todo>)
    requires k < |s|
    ensures |r| == |s| - 1
    ensures forall i :: 0 <= i < k ==> r[i] == s[i]
    ensures forall i :: k <= i < |r| ==> r[i] == s[i + 1]
    ensures multiset(r) + multiset{s[k]} == multiset(s)
  {
    assert s == s[..k] + [s[k]] + s[k + 1..];
    s[..k] + s[k + 1..]
  }

  /**
   * `Object.assign(t, p)` restricted to the fields of `todo`: every supplied
   * field overwrites the record's, every omitted one is kept, and so is the id.
   */
  function Assign(t: Todo, p: TodoPatch): (r: Todo)
    ensures r.id == t.id
    ensures r.text == (if p.text.Some? then p.text.value else t.text)
    ensures r.createdAt == (if p.createdAt.Some? then p.createdAt.value else t.createdAt)
    ensures r.completed == (if p.completed.Some? then p.completed.value else t.completed)
  {
    t.(text := p.text.GetOr(t.text),
       createdAt := p.createdAt.GetOr(t.createdAt),
       completed := p.completed.GetOr(t.completed))
  }

  /**
   * A PATCH body as it reaches `updateTodoById` at run time: the typed fields
   * and, when the client sends one, an `id` key that nothing filters out.
   */
  datatype RawPatch = RawPatch(id: Option<int>, fields: TodoPatch)

  /** `Object.assign(t, body)` as written: a supplied `id` key is copied as well. */
  function AssignAsWritten(t: Todo, p: RawPatch): (r: Todo)
    ensures p.id.None? ==> r == Assign(t, p.fields)
    ensures p.id.Some? ==> r.id == p.id.value
  {
    Assign(t, p.fields).(id := p.id.GetOr(t.id))
  }

  /**
   * With that, PATCH /todos/2 with the body {"id": 1} leaves two records with
   * id 1, breaking the store invariant that `Assign` keeps.
   */
  lemma AssignAsWrittenBreaksUniqueIds()
    ensures var s := [Todo(1, "a", 0, false), Todo(2, "b", 0, false)];
      && Wellformed(s, 2)
      && !Wellformed(s[1 := AssignAsWritten(s[1], RawPatch(Some(1), TodoPatch(None, None, None)))], 2)
  {
    var s := [Todo(1, "a", 0, false), Todo(2, "b", 0, false)];
    var s' := s[1 := AssignAsWritten(s[1], RawPatch(Some(1), TodoPatch(None, None, None)))];
    assert s'[0].id == s'[1].id == 1;
  }

  /** Applying the same patch twice changes nothing more. */
  lemma AssignIdempotent(t: Todo, p: TodoPatch)
    ensures Assign(Assign(t, p), p) == Assign(t, p)
  {
  }

  /** An empty patch leaves the record as it was. */
  lemma AssignEmptyIsIdentity(t: Todo)
    ensures Assign(t, TodoPatch(None, None, None)) == t
  {
  }

  /** Setting only `completed` keeps text and creation time. */
  lemma AssignCompletedOnly(t: Todo, b: bool)
    ensures Assign(t, TodoPatch(None, None, Some(b))) == t.(completed := b)
  {
  }

  /** Under unique ids, `findIndex` of a stored record's id is that record's position. */
  lemma IndexOfStoredId(s: seq<Todo>, k: nat)
    requires IdsAscending(s) && k < |s|
    ensures FindIndex(s, s[k].id) == k
  {
    assert HasId(s, s[k].id);
  }

  /** Appending a record with the next id keeps the invariant, and it is found at the end. */
  lemma AppendPreservesWellformed(s: seq<Todo>, counter: int, t: Todo)
    requires Wellformed(s, counter) && counter >= 0 && t.id == counter + 1
    ensures Wellformed(s + [t], counter + 1)
    ensures FindIndex(s + [t], t.id) == |s|
  {
    var s' := s + [t];
    assert forall i :: 0 <= i < |s| ==> s'[i] == s[i];
    IndexOfStoredId(s', |s|);
  }

  /** Removing a record keeps the invariant, and its id is then absent. */
  lemma SplicePreservesWellformed(s: seq<Todo>, counter: int, k: nat)
    requires Wellformed(s, counter) && k < |s|
    ensures Wellformed(Splice(s, k), counter)
    ensures !HasId(Splice(s, k), s[k].id)
  {
    var r := Splice(s, k);
    forall i, j | 0 <= i < j < |r|
      ensures r[i].id < r[j].id
    {
      var i' := if i < k then i else i + 1;
      var j' := if j < k then j else j + 1;
      assert r[i] == s[i'] && r[j] == s[j'];
    }
    forall i | 0 <= i < |r|
      ensures r[i].id != s[k].id
    {
      var i' := if i < k then i else i + 1;
      assert r[i] == s[i'];
    }
  }

  /** Replacing a record by one with the same id keeps the invariant. */
  lemma ReplacePreservesWellformed(s: seq<Todo>, counter: int, k: nat, t: Todo)
    requires Wellformed(s, counter) && k < |s| && t.id == s[k].id
    ensures Wellformed(s[k := t], counter)
  {
    var r := s[k := t];
    assert forall i :: 0 <= i < |s| ==> r[i].id == s[i].id;
  }

  /**
   * The store: the module-level `db` array and `idCounter`. Ids are issued by
   * pre-incrementing the counter, so the first is 1, and because the counter
   * never goes down no id is issued twice, even after a deletion.
   */
  class Store {
    var db: seq<Todo>
    var idCounter: nat

    ghost predicate Valid()
      reads this
    {
      Wellformed(db, idCounter)
    }

    /** The state at module load: no records, counter at zero. */
    constructor ()
      ensures Valid() && db == [] && idCounter == 0
    {
      db := [];
      idCounter := 0;
    }

    /**
     * `addTodo`: appends a record with the next id, the given text, the time
     * `now` and `completed` false, whatever `data` says of those two fields.
     */
    method AddTodo(data: TodoData, now: int) returns (t: Todo)
      requires Valid()
      modifies this
      ensures Valid()
      ensures idCounter == old(idCounter) + 1
      ensures t == Todo(old(idCounter) + 1, data.text, now, false)
      ensures db == old(db) + [t]
      ensures GetTodoById(t.id) == Found(t)
    {
      AppendPreservesWellformed(db, idCounter, Todo(idCounter + 1, data.text, now, false));
      idCounter := idCounter + 1;
      t := Todo(idCounter, data.text, now, false);
      db := db + [t];
      FindAgreesWithFindIndex(db, t.id);
    }

    /**
     * `addDummyTodos(n)`: `n` calls of `addTodo`, the `i`-th with the text
     * `DummyTexts[picks[i]]` (the random pick) at time `clock[i]`.
     */
    method AddDummyTodos(n: nat, picks: seq<nat>, clock: seq<int>) returns (created: seq<Todo>)
      requires Valid()
      requires |picks| == n && |clock| == n
      requires forall i :: 0 <= i < n ==> picks[i] < |DummyTexts|
      modifies this
      ensures Valid()
      ensures idCounter == old(idCounter) + n
      ensures |created| == n
      ensures forall i :: 0 <= i < n ==>
        created[i] == Todo(old(idCounter) + 1 + i, DummyTexts[picks[i]], clock[i], false)
      ensures db == old(db) + created
    {
      created := [];
      var count := 0;
      while count < n
        invariant 0 <= count <= n
        invariant Valid()
        invariant idCounter == old(idCounter) + count
        invariant |created| == count
        invariant forall i :: 0 <= i < count ==>
          created[i] == Todo(old(idCounter) + 1 + i, DummyTexts[picks[i]], clock[i], false)
        invariant db == old(db) + created
      {
        var createdTodo := AddTodo(TodoData(DummyTexts[picks[count]], clock[count], false), clock[count]);
        created := created + [createdTodo];
        count := count + 1;
      }
    }

    /** `findIndexOfTodoById`: the position of the record with that id, or the sentinel. */
    function FindIndexOfTodoById(id: int): (r: Lookup<nat>)
      reads this
      ensures r.Found? ==> r.value < |db| && db[r.value].id == id
      ensures r.NotFound? <==> !HasId(db, id)
    {
      var matchingIdx := FindIndex(db, id);
      if matchingIdx >= 0 then Found(matchingIdx) else NotFound
    }

    /** `getAllTodos`: every record, in insertion order, which is ascending id order. */
    function GetAllTodos(): (r: seq<Todo>)
      reads this
      ensures r == db
      ensures Valid() ==> IdsAscending(r)
    {
      db
    }

    /** `getTodoById`: the record with that id, or the sentinel. */
    function GetTodoById(id: int): (r: Lookup<Todo>)
      reads this
      ensures r.Found? ==> r.value in db && r.value.id == id
      ensures r.NotFound? <==> !HasId(db, id)
    {
      match Find(db, id)
      case Some(maybeEntry) => Found(maybeEntry)
      case None => NotFound
    }

    /**
     * `deleteTodoById`: on a stored id, removes that record and returns it;
     * otherwise returns the sentinel and changes nothing.
     */
    method DeleteTodoById(id: int) returns (r: Lookup<Todo>)
      requires Valid()
      modifies this
      ensures Valid() && idCounter == old(idCounter)
      ensures old(HasId(db, id)) ==>
        var k := FindIndex(old(db), id);
        0 <= k && r == Found(old(db)[k]) && db == Splice(old(db), k)
      ensures !old(HasId(db, id)) ==> r == NotFound && db == old(db)
      ensures GetTodoById(id) == NotFound
    {
      var idxToDelete := FindIndexOfTodoById(id);
      if idxToDelete.Found? {
        var todoToDelete := GetTodoById(id);
        FindAgreesWithFindIndex(db, id);
        SplicePreservesWellformed(db, idCounter, idxToDelete.value);
        db := Splice(db, idxToDelete.value);
        r := todoToDelete;
      } else {
        r := NotFound;
      }
    }

    /**
     * `updateTodoById`: on a stored id, merges `newData` into that record in
     * place and returns it; otherwise returns the sentinel and changes nothing.
     */
    method UpdateTodoById(id: int, newData: TodoPatch) returns (r: Lookup<Todo>)
      requires Valid()
      modifies this
      ensures Valid() && idCounter == old(idCounter)
      ensures old(HasId(db, id)) ==>
        var k := FindIndex(old(db), id);
        0 <= k && r == Found(Assign(old(db)[k], newData)) && db == old(db)[k := Assign(old(db)[k], newData)]
      ensures !old(HasId(db, id)) ==> r == NotFound && db == old(db)
    {
      var idxOfEntry := FindIndexOfTodoById(id);
      if idxOfEntry.Found? {
        var updated := Assign(db[idxOfEntry.value], newData);
        ReplacePreservesWellformed(db, idCounter, idxOfEntry.value, updated);
        db := db[idxOfEntry.value := updated];
        r := Found(updated);
      } else {
        r := NotFound;
      }
    }
  }
}
