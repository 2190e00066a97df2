/** The Transaction Script variant: one script class does every check inline,
    fills a mutable TodoData bean through its setters and hands it to an
    in-memory gateway keyed by id. */
module Transcript {
  import opened Outcomes
  import opened JavaString
  import opened Rules
  import opened Enumeration

  /** The six fields of a TodoData bean, as one value. */
  datatype TodoRecord = TodoRecord(
    id: string,
    title: string,
    description: Nullable<string>,
    completed: bool,
    createdAt: nat,
    updatedAt: nat)

  /** A record the script may store: a valid title and description. */
  predicate RecordOk(t: TodoRecord) {
    TrimmedTitleOk(Some(t.title)) && DescriptionOk(t.description)
  }

  /** The bean the script fills through its setters. Java starts its fields
      as null; here they start empty until the setters run. */
  class TodoData {
    var id: string
    var title: string
    var description: Nullable<string>
    var completed: bool
    var createdAt: nat
    var updatedAt: nat

    constructor ()
      ensures Record() == TodoRecord("", "", Null, false, 0, 0)
    {
      id, title, description := "", "", Null;
      completed, createdAt, updatedAt := false, 0, 0;
    }

    /** A bean holding the fields of `t`. */
    constructor Of(t: TodoRecord)
      ensures Record() == t
    {
      id, title, description := t.id, t.title, t.description;
      completed, createdAt, updatedAt := t.completed, t.createdAt, t.updatedAt;
    }

    function Record(): TodoRecord
      reads this
    {
      TodoRecord(id, title, description, completed, createdAt, updatedAt)
    }
  }

  /** The ids of the stored records whose completed flag is `completed`. */
  function WithCompleted(storage: map<string, TodoRecord>, completed: bool): set<string> {
    KeysWhere(storage, (t: TodoRecord) => t.completed, completed)
  }

  /** The gateway: a map from id to the stored record. */
  class InMemoryTodoGateway {
    var storage: map<string, TodoRecord>

    constructor ()
      ensures storage == map[]
    {
      storage := map[];
    }

    /** Stores the bean's fields under its id, replacing any earlier entry. */
    method Insert(todo: TodoData)
      modifies this
      ensures storage == old(storage)[todo.id := todo.Record()]
    {
      storage := storage[todo.id := todo.Record()];
    }

    /** The same put as Insert. */
    method Update(todo: TodoData)
      modifies this
      ensures storage == old(storage)[todo.id := todo.Record()]
    {
      storage := storage[todo.id := todo.Record()];
    }

    /** Removes the entry under id, if any; nothing else changes. */
    method Delete(id: string)
      modifies this
      ensures storage == old(storage) - {id}
      ensures !Exists(id)
    {
      storage := storage - {id};
    }

    /** `storage.get(id)`: null when nothing is stored under id, else a bean
        holding the stored fields. */
    method FindById(id: string) returns (r: Nullable<TodoData>)
      ensures r.Null? <==> !Exists(id)
      ensures r.Some? ==> fresh(r.value) && r.value.Record() == storage[id]
    {
      if id in storage {
        var todo := new TodoData.Of(storage[id]);
        r := Some(todo);
      } else {
        r := Null;
      }
    }

    /** `containsKey`: whether a record is stored under id. */
    function Exists(id: string): (r: bool)
      reads this
      ensures r <==> id in storage
    {
      id in storage
    }

    /** Every stored record, one per id, in no particular order. */
    method FindAll() returns (r: seq<TodoRecord>, ghost ks: seq<string>)
      ensures Lists(ks, storage.Keys)
      ensures |r| == |ks| == |storage|
      ensures forall i :: 0 <= i < |r| ==> r[i] == storage[ks[i]]
    {
      var keys := ListKeys(storage.Keys);
      ListsSize(keys, storage.Keys);
      var m := storage;
      r := seq(|keys|, i requires 0 <= i < |keys| => m[keys[i]]);
      ks := keys;
    }

    /** Exactly the stored records whose flag equals `completed`, one per id. */
    method FindByCompleted(completed: bool) returns (r: seq<TodoRecord>, ghost ks: seq<string>)
      ensures Lists(ks, WithCompleted(storage, completed))
      ensures |r| == |ks|
      ensures forall i :: 0 <= i < |r| ==> ks[i] in storage && r[i] == storage[ks[i]] && r[i].completed == completed
    {
      var keys := ListKeys(WithCompleted(storage, completed));
      var m := storage;
      r := seq(|keys|, i requires 0 <= i < |keys| => m[keys[i]]);
      ks := keys;
    }

    method Clear()
      modifies this
      ensures storage == map[]
    {
      storage := map[];
    }
  }

  /** The id check of every id-taking operation: not null and not empty
      after trim(). */
  predicate IdGiven(id: Nullable<string>) {
    !NullOrTrimsEmpty(id)
  }

  /** The first of the script's title and description checks that fails, in
      the order the script makes them; null when all pass. */
  function ContentError(title: Nullable<string>, description: Nullable<string>): (r: Nullable<Failure>)
    ensures r.Null? <==> TrimmedTitleOk(title) && DescriptionOk(description)
    ensures NullOrTrimsEmpty(title) ==> r == Some(IllegalArgument(EmptyTitle))
    ensures !NullOrTrimsEmpty(title) && Utf16Length(title.value) > MaxTitleLength ==> r == Some(IllegalArgument(TitleTooLong))
    ensures TrimmedTitleOk(title) && !DescriptionOk(description) ==> r == Some(IllegalArgument(DescriptionTooLong))
  {
    if NullOrTrimsEmpty(title) then Some(IllegalArgument(EmptyTitle))
    else if Utf16Length(title.value) > MaxTitleLength then Some(IllegalArgument(TitleTooLong))
    else if description.Some? && Utf16Length(description.value) > MaxDescriptionLength then Some(IllegalArgument(DescriptionTooLong))
    else Null
  }

  class TodoTransactionScript {
    const gateway: InMemoryTodoGateway

    /** The store invariant the script keeps: records under their own ids,
        each with a valid title and description. */
    ghost predicate Valid()
      reads this, gateway
    {
      forall k :: k in gateway.storage ==> gateway.storage[k].id == k && RecordOk(gateway.storage[k])
    }

    constructor (gateway: InMemoryTodoGateway)
      requires gateway.storage == map[]
      ensures this.gateway == gateway && Valid()
    {
      this.gateway := gateway;
    }

    /** Validates, then inserts a new pending todo under `newId` (the
        generated UUID) stamped `now` twice. */
    method CreateTodo(title: Nullable<string>, description: Nullable<string>, newId: string, now: nat)
      returns (r: Result<TodoData>)
      requires Valid()
      requires newId !in gateway.storage
      modifies gateway
      ensures Valid()
      ensures r.Err? <==> ContentError(title, description).Some?
      ensures r.Err? ==> r.failure == ContentError(title, description).value && gateway.storage == old(gateway.storage)
      ensures r.Ok? ==>
        && fresh(r.value)
        && r.value.Record() == TodoRecord(newId, title.value, description, false, now, now)
        && gateway.storage == old(gateway.storage)[newId := r.value.Record()]
    {
      if NullOrTrimsEmpty(title) {
        return Err(IllegalArgument(EmptyTitle));
      }
      if Utf16Length(title.value) > MaxTitleLength {
        return Err(IllegalArgument(TitleTooLong));
      }
      if description.Some? && Utf16Length(description.value) > MaxDescriptionLength {
        return Err(IllegalArgument(DescriptionTooLong));
      }
      var todo := new TodoData();
      todo.id := newId;
      todo.title := title.value;
      todo.description := description;
      todo.completed := false;
      todo.createdAt := now;
      todo.updatedAt := now;
      gateway.Insert(todo);
      r := Ok(todo);
    }

    /** Checks the id, then that it is stored, then the new fields; only
        then overwrites title and description and refreshes updatedAt. */
    method UpdateTodo(id: Nullable<string>, title: Nullable<string>, description: Nullable<string>, now: nat)
      returns (r: Result<TodoData>)
      requires Valid()
      modifies gateway
      ensures Valid()
      ensures !IdGiven(id) ==> r == Err(IllegalArgument(EmptyId))
      ensures IdGiven(id) && id.value !in old(gateway.storage) ==> r == Err(IllegalArgument(NotFound))
      ensures IdGiven(id) && id.value in old(gateway.storage) ==>
        && (r.Err? <==> ContentError(title, description).Some?)
        && (r.Err? ==> r.failure == ContentError(title, description).value)
      ensures r.Err? ==> gateway.storage == old(gateway.storage)
      ensures r.Ok? ==>
        && IdGiven(id) && id.value in old(gateway.storage)
        && gateway.storage == old(gateway.storage)[id.value :=
             old(gateway.storage)[id.value].(title := title.value, description := description, updatedAt := now)]
        && r.value.Record() == gateway.storage[id.value]
    {
      if NullOrTrimsEmpty(id) {
        return Err(IllegalArgument(EmptyId));
      }
      var found := gateway.FindById(id.value);
      if found.Null? {
        return Err(IllegalArgument(NotFound));
      }
      if NullOrTrimsEmpty(title) {
        return Err(IllegalArgument(EmptyTitle));
      }
      if Utf16Length(title.value) > MaxTitleLength {
        return Err(IllegalArgument(TitleTooLong));
      }
      if description.Some? && Utf16Length(description.value) > MaxDescriptionLength {
        return Err(IllegalArgument(DescriptionTooLong));
      }
      var todo := found.value;
      todo.title := title.value;
      todo.description := description;
      todo.updatedAt := now;
      gateway.Update(todo);
      r := Ok(todo);
    }

    /** Id check, lookup, then refuses a todo that is already completed;
        otherwise sets the flag and refreshes updatedAt. */
    method CompleteTodo(id: Nullable<string>, now: nat) returns (r: Result<TodoData>)
      requires Valid()
      modifies gateway
      ensures Valid()
      ensures !IdGiven(id) ==> r == Err(IllegalArgument(EmptyId))
      ensures IdGiven(id) && id.value !in old(gateway.storage) ==> r == Err(IllegalArgument(NotFound))
      ensures IdGiven(id) && id.value in old(gateway.storage) && old(gateway.storage)[id.value].completed ==>
        r == Err(IllegalState(AlreadyCompleted))
      ensures r.Err? ==> gateway.storage == old(gateway.storage)
      ensures r.Ok? <==> IdGiven(id) && id.value in old(gateway.storage) && !old(gateway.storage)[id.value].completed
      ensures r.Ok? ==>
        && gateway.storage == old(gateway.storage)[id.value :=
             old(gateway.storage)[id.value].(completed := true, updatedAt := now)]
        && r.value.Record() == gateway.storage[id.value]
    {
      if NullOrTrimsEmpty(id) {
        return Err(IllegalArgument(EmptyId));
      }
      var found := gateway.FindById(id.value);
      if found.Null? {
        return Err(IllegalArgument(NotFound));
      }
      var todo := found.value;
      if todo.completed {
        return Err(IllegalState(AlreadyCompleted));
      }
      todo.completed := true;
      todo.updatedAt := now;
      gateway.Update(todo);
      r := Ok(todo);
    }

    /** Id check, lookup, then refuses a todo that is not completed;
        otherwise clears the flag and refreshes updatedAt. */
    method UncompleteTodo(id: Nullable<string>, now: nat) returns (r: Result<TodoData>)
      requires Valid()
      modifies gateway
      ensures Valid()
      ensures !IdGiven(id) ==> r == Err(IllegalArgument(EmptyId))
      ensures IdGiven(id) && id.value !in old(gateway.storage) ==> r == Err(IllegalArgument(NotFound))
      ensures IdGiven(id) && id.value in old(gateway.storage) && !old(gateway.storage)[id.value].completed ==>
        r == Err(IllegalState(NotCompleted))
      ensures r.Err? ==> gateway.storage == old(gateway.storage)
      ensures r.Ok? <==> IdGiven(id) && id.value in old(gateway.storage) && old(gateway.storage)[id.value].completed
      ensures r.Ok? ==>
        && gateway.storage == old(gateway.storage)[id.value :=
             old(gateway.storage)[id.value].(completed := false, updatedAt := now)]
        && r.value.Record() == gateway.storage[id.value]
    {
      if NullOrTrimsEmpty(id) {
        return Err(IllegalArgument(EmptyId));
      }
      var found := gateway.FindById(id.value);
      if found.Null? {
        return Err(IllegalArgument(NotFound));
      }
      var todo := found.value;
      if !todo.completed {
        return Err(IllegalState(NotCompleted));
      }
      todo.completed := false;
      todo.updatedAt := now;
      gateway.Update(todo);
      r := Ok(todo);
    }

    /** Id check, existence check, then removes the entry. */
    method DeleteTodo(id: Nullable<string>) returns (r: Result<()>)
      requires Valid()
      modifies gateway
      ensures Valid()
      ensures !IdGiven(id) ==> r == Err(IllegalArgument(EmptyId))
      ensures IdGiven(id) && id.value !in old(gateway.storage) ==> r == Err(IllegalArgument(NotFound))
      ensures r.Ok? <==> IdGiven(id) && id.value in old(gateway.storage)
      ensures r.Err? ==> gateway.storage == old(gateway.storage)
      ensures r.Ok? ==> gateway.storage == old(gateway.storage) - {id.value}
    {
      if NullOrTrimsEmpty(id) {
        return Err(IllegalArgument(EmptyId));
      }
      if !gateway.Exists(id.value) {
        return Err(IllegalArgument(NotFound));
      }
      gateway.Delete(id.value);
      r := Ok(());
    }

    /** Id check, then the gateway's lookup: null for an unknown id. */
    method FindTodoById(id: Nullable<string>) returns (r: Result<Nullable<TodoData>>)
      ensures !IdGiven(id) ==> r == Err(IllegalArgument(EmptyId))
      ensures IdGiven(id) ==> r.Ok? && (r.value.Null? <==> id.value !in gateway.storage)
      ensures r.Ok? && r.value.Some? ==> r.value.value.Record() == gateway.storage[id.value]
    {
      if NullOrTrimsEmpty(id) {
        return Err(IllegalArgument(EmptyId));
      }
      var found := gateway.FindById(id.value);
      r := Ok(found);
    }

    /** Every stored todo, one per id. */
    method GetAllTodos() returns (r: seq<TodoRecord>, ghost ks: seq<string>)
      ensures Lists(ks, gateway.storage.Keys)
      ensures |r| == |ks| == |gateway.storage|
      ensures forall i :: 0 <= i < |r| ==> r[i] == gateway.storage[ks[i]]
    {
      r, ks := gateway.FindAll();
    }

    /** Every completed todo, one per id. */
    method GetCompletedTodos() returns (r: seq<TodoRecord>, ghost ks: seq<string>)
      ensures Lists(ks, WithCompleted(gateway.storage, true))
      ensures |r| == |ks|
      ensures forall i :: 0 <= i < |r| ==> ks[i] in gateway.storage && r[i] == gateway.storage[ks[i]] && r[i].completed
    {
      r, ks := gateway.FindByCompleted(true);
    }

    /** Every pending todo, one per id. */
    method GetPendingTodos() returns (r: seq<TodoRecord>, ghost ks: seq<string>)
      ensures Lists(ks, WithCompleted(gateway.storage, false))
      ensures |r| == |ks|
      ensures forall i :: 0 <= i < |r| ==> ks[i] in gateway.storage && r[i] == gateway.storage[ks[i]] && !r[i].completed
    {
      r, ks := gateway.FindByCompleted(false);
    }
  }
}
