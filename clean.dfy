/** The Clean Architecture variant: the business rules live in the entity
    Todo, and one use-case class per operation drives an in-memory gateway. */
module Clean {
  import opened Outcomes
  import opened JavaString
  import opened Rules
  import opened Enumeration

  /** The six fields of an entity, as one value; it is also the shape of
      every use-case response and list item. */
  datatype TodoRecord = TodoRecord(
    id: string,
    title: string,
    description: Nullable<string>,
    completed: bool,
    createdAt: nat,
    updatedAt: nat)

  /** `validateTitle`: null or empty after trim() is refused first, then a
      title over 200 characters. */
  function ValidateTitle(title: Nullable<string>): (r: Result<()>)
    ensures r.Ok? <==> TrimmedTitleOk(title)
    ensures NullOrTrimsEmpty(title) ==> r == Err(IllegalArgument(EmptyTitle))
    ensures r.Err? && !NullOrTrimsEmpty(title) ==> r == Err(IllegalArgument(TitleTooLong))
  {
    if NullOrTrimsEmpty(title) then Err(IllegalArgument(EmptyTitle))
    else if Utf16Length(title.value) > MaxTitleLength then Err(IllegalArgument(TitleTooLong))
    else Ok(())
  }

  /** `validateDescription`: a present description over 1000 characters is
      refused. */
  function ValidateDescription(description: Nullable<string>): (r: Result<()>)
    ensures r.Ok? <==> DescriptionOk(description)
    ensures r.Err? ==> r == Err(IllegalArgument(DescriptionTooLong))
  {
    if description.Some? && Utf16Length(description.value) > MaxDescriptionLength then Err(IllegalArgument(DescriptionTooLong))
    else Ok(())
  }

  /** The entity: id and createdAt are final, the rest changes through the
      business rules. */
  class Todo {
    const id: string
    var title: string
    var description: Nullable<string>
    var completed: bool
    const createdAt: nat
    var updatedAt: nat

    /** Stores every argument as given; validation is the caller's step. */
    constructor (id: string, title: string, description: Nullable<string>, completed: bool, createdAt: nat, updatedAt: nat)
      ensures Record() == TodoRecord(id, title, description, completed, createdAt, updatedAt)
    {
      this.id, this.title, this.description := id, title, description;
      this.completed, this.createdAt, this.updatedAt := completed, createdAt, updatedAt;
    }

    function Record(): TodoRecord
      reads this
    {
      TodoRecord(id, title, description, completed, createdAt, updatedAt)
    }

    /** Refuses a completed todo; otherwise sets the flag and stamps `now`. */
    method Complete(now: nat) returns (r: Result<()>)
      modifies this
      ensures old(completed) ==> r == Err(IllegalState(AlreadyCompleted)) && Record() == old(Record())
      ensures !old(completed) ==> r.Ok? && Record() == old(Record()).(completed := true, updatedAt := now)
    {
      if completed {
        return Err(IllegalState(AlreadyCompleted));
      }
      completed := true;
      updatedAt := now;
      r := Ok(());
    }

    /** Refuses a pending todo; otherwise clears the flag and stamps `now`. */
    method Uncomplete(now: nat) returns (r: Result<()>)
      modifies this
      ensures !old(completed) ==> r == Err(IllegalState(NotCompleted)) && Record() == old(Record())
      ensures old(completed) ==> r.Ok? && Record() == old(Record()).(completed := false, updatedAt := now)
    {
      if !completed {
        return Err(IllegalState(NotCompleted));
      }
      completed := false;
      updatedAt := now;
      r := Ok(());
    }

    /** Validates the title, then the description; only then replaces both
        and stamps `now`. */
    method UpdateContent(title: Nullable<string>, description: Nullable<string>, now: nat) returns (r: Result<()>)
      modifies this
      ensures ValidateTitle(title).Err? ==> r == ValidateTitle(title)
      ensures ValidateTitle(title).Ok? ==> r == ValidateDescription(description)
      ensures r.Err? ==> Record() == old(Record())
      ensures r.Ok? ==> Record() == old(Record()).(title := title.value, description := description, updatedAt := now)
    {
      var titleCheck := ValidateTitle(title);
      if titleCheck.Err? {
        return titleCheck;
      }
      if description.Some? && Utf16Length(description.value) > MaxDescriptionLength {
        return Err(IllegalArgument(DescriptionTooLong));
      }
      this.title := title.value;
      this.description := description;
      updatedAt := now;
      r := Ok(());
    }
  }

  /** The ids of the stored records whose completed flag is `completed`. */
  function WithCompleted(storage: map<string, TodoRecord>, completed: bool): set<string> {
    KeysWhere(storage, (t: TodoRecord) => t.completed, completed)
  }

  /** Every record under its own id: the gateway keeps this by itself,
      since `save` stores each entity under its id and ids never change. */
  ghost predicate Keyed(storage: map<string, TodoRecord>) {
    forall k :: k in storage ==> storage[k].id == k
  }

  /** What holds of a store written only through the use cases: keyed, and
      every title and description one the entity rules accept. */
  ghost predicate StoreOk(storage: map<string, TodoRecord>) {
    && Keyed(storage)
    && forall k :: k in storage ==> TrimmedTitleOk(Some(storage[k].title)) && DescriptionOk(storage[k].description)
  }

  /** The gateway: a map from id to the stored entity's fields. */
  class InMemoryTodoGateway {
    var storage: map<string, TodoRecord>

    constructor ()
      ensures storage == map[]
    {
      storage := map[];
    }

    /** Stores the entity under its id, replacing any earlier entry, and
        hands the same entity back. */
    method Save(todo: Todo) returns (saved: Todo)
      modifies this
      ensures saved == todo
      ensures storage == old(storage)[todo.id := todo.Record()]
      ensures Keyed(old(storage)) ==> Keyed(storage)
    {
      storage := storage[todo.id := todo.Record()];
      saved := todo;
    }

    /** `Optional.ofNullable(storage.get(id))`: empty when nothing is
        stored under id, else an entity holding the stored fields. */
    method FindById(id: string) returns (r: Nullable<Todo>)
      ensures r.Null? <==> !ExistsById(id)
      ensures r.Some? ==> fresh(r.value) && r.value.Record() == storage[id]
    {
      if id in storage {
        var t := storage[id];
        var todo := new Todo(t.id, t.title, t.description, t.completed, t.createdAt, t.updatedAt);
        r := Some(todo);
      } else {
        r := Null;
      }
    }

    /** Every stored record, one per id, in no particular order. */
    method FindAll() returns (r: seq<TodoRecord>, ghost ks: seq<string>)
      ensures Lists(ks, storage.Keys)
      ensures |r| == |ks| == |storage|
      ensures forall i :: 0 <= i < |r| ==> r[i] == storage[ks[i]]
    {
      var keys := ListKeys(storage.Keys);
      ListsSize(keys, storage.Keys);
      var m := storage;
      r := seq(|keys|, i requires 0 <= i < |keys| => m[keys[i]]);
      ks := keys;
    }

    /** Exactly the stored records whose flag equals `completed`, one per id. */
    method FindByCompleted(completed: bool) returns (r: seq<TodoRecord>, ghost ks: seq<string>)
      ensures Lists(ks, WithCompleted(storage, completed))
      ensures |r| == |ks|
      ensures forall i :: 0 <= i < |r| ==> ks[i] in storage && r[i] == storage[ks[i]] && r[i].completed == completed
    {
      var keys := ListKeys(WithCompleted(storage, completed));
      var m := storage;
      r := seq(|keys|, i requires 0 <= i < |keys| => m[keys[i]]);
      ks := keys;
    }

    /** Removes the entry under id, if any; nothing else changes. */
    method Delete(id: string)
      modifies this
      ensures storage == old(storage) - {id}
      ensures !ExistsById(id)
      ensures Keyed(old(storage)) ==> Keyed(storage)
    {
      storage := storage - {id};
    }

    /** `containsKey`: whether a record is stored under id. */
    function ExistsById(id: string): (r: bool)
      reads this
      ensures r <==> id in storage
    {
      id in storage
    }

    method Clear()
      modifies this
      ensures storage == map[]
    {
      storage := map[];
    }
  }

  /** Builds a pending entity under `newId` (the generated UUID) stamped
      `now` twice, validates title then description, and saves it. */
  class CreateTodoUseCase {
    const gateway: InMemoryTodoGateway

    constructor (gateway: InMemoryTodoGateway)
      ensures this.gateway == gateway
    {
      this.gateway := gateway;
    }

    method Execute(title: Nullable<string>, description: Nullable<string>, newId: string, now: nat)
      returns (r: Result<TodoRecord>)
      requires Keyed(gateway.storage)
      requires newId !in gateway.storage
      modifies gateway
      ensures Keyed(gateway.storage)
      ensures old(StoreOk(gateway.storage)) ==> StoreOk(gateway.storage)
      ensures ValidateTitle(title).Err? ==> r == Err(ValidateTitle(title).failure)
      ensures ValidateTitle(title).Ok? && ValidateDescription(description).Err? ==> r == Err(ValidateDescription(description).failure)
      ensures r.Err? ==> gateway.storage == old(gateway.storage)
      ensures r.Ok? <==> TrimmedTitleOk(title) && DescriptionOk(description)
      ensures r.Ok? ==>
        && r.value == TodoRecord(newId, title.value, description, false, now, now)
        && gateway.storage == old(gateway.storage)[newId := r.value]
    {
      // The entity is built from the request before validation; building it
      // has no effect, so the model validates first.
      var titleCheck := ValidateTitle(title);
      if titleCheck.Err? {
        return Err(titleCheck.failure);
      }
      var descriptionCheck := ValidateDescription(description);
      if descriptionCheck.Err? {
        return Err(descriptionCheck.failure);
      }
      var todo := new Todo(newId, title.value, description, false, now, now);
      var saved := gateway.Save(todo);
      r := Ok(saved.Record());
    }
  }

  /** Looks the todo up (a null id fails inside the map), applies
      updateContent and saves. */
  class UpdateTodoUseCase {
    const gateway: InMemoryTodoGateway

    constructor (gateway: InMemoryTodoGateway)
      ensures this.gateway == gateway
    {
      this.gateway := gateway;
    }

    method Execute(id: Nullable<string>, title: Nullable<string>, description: Nullable<string>, now: nat)
      returns (r: Result<TodoRecord>)
      requires Keyed(gateway.storage)
      modifies gateway
      ensures Keyed(gateway.storage)
      ensures old(StoreOk(gateway.storage)) ==> StoreOk(gateway.storage)
      ensures id.Null? ==> r == Err(NullPointer)
      ensures id.Some? && id.value !in old(gateway.storage) ==> r == Err(IllegalArgument(NotFound))
      ensures id.Some? && id.value in old(gateway.storage) && ValidateTitle(title).Err? ==>
        r == Err(ValidateTitle(title).failure)
      ensures id.Some? && id.value in old(gateway.storage) && ValidateTitle(title).Ok? && ValidateDescription(description).Err? ==>
        r == Err(ValidateDescription(description).failure)
      ensures r.Err? ==> gateway.storage == old(gateway.storage)
      ensures r.Ok? <==> id.Some? && id.value in old(gateway.storage) && TrimmedTitleOk(title) && DescriptionOk(description)
      ensures r.Ok? ==>
        && r.value == old(gateway.storage)[id.value].(title := title.value, description := description, updatedAt := now)
        && gateway.storage == old(gateway.storage)[id.value := r.value]
    {
      if id.Null? {
        return Err(NullPointer);
      }
      var found := gateway.FindById(id.value);
      if found.Null? {
        return Err(IllegalArgument(NotFound));
      }
      var todo := found.value;
      var outcome := todo.UpdateContent(title, description, now);
      if outcome.Err? {
        return Err(outcome.failure);
      }
      var saved := gateway.Save(todo);
      r := Ok(saved.Record());
    }
  }

  /** Looks the todo up, applies complete() and saves. */
  class CompleteTodoUseCase {
    const gateway: InMemoryTodoGateway

    constructor (gateway: InMemoryTodoGateway)
      ensures this.gateway == gateway
    {
      this.gateway := gateway;
    }

    method Execute(id: Nullable<string>, now: nat) returns (r: Result<TodoRecord>)
      requires Keyed(gateway.storage)
      modifies gateway
      ensures Keyed(gateway.storage)
      ensures old(StoreOk(gateway.storage)) ==> StoreOk(gateway.storage)
      ensures id.Null? ==> r == Err(NullPointer)
      ensures id.Some? && id.value !in old(gateway.storage) ==> r == Err(IllegalArgument(NotFound))
      ensures id.Some? && id.value in old(gateway.storage) && old(gateway.storage)[id.value].completed ==>
        r == Err(IllegalState(AlreadyCompleted))
      ensures r.Err? ==> gateway.storage == old(gateway.storage)
      ensures r.Ok? <==> id.Some? && id.value in old(gateway.storage) && !old(gateway.storage)[id.value].completed
      ensures r.Ok? ==>
        && r.value == old(gateway.storage)[id.value].(completed := true, updatedAt := now)
        && gateway.storage == old(gateway.storage)[id.value := r.value]
    {
      if id.Null? {
        return Err(NullPointer);
      }
      var found := gateway.FindById(id.value);
      if found.Null? {
        return Err(IllegalArgument(NotFound));
      }
      var todo := found.value;
      var outcome := todo.Complete(now);
      if outcome.Err? {
        return Err(outcome.failure);
      }
      var saved := gateway.Save(todo);
      r := Ok(saved.Record());
    }
  }

  /** Looks the todo up, applies uncomplete() and saves. */
  class UncompleteTodoUseCase {
    const gateway: InMemoryTodoGateway

    constructor (gateway: InMemoryTodoGateway)
      ensures this.gateway == gateway
    {
      this.gateway := gateway;
    }

    method Execute(id: Nullable<string>, now: nat) returns (r: Result<TodoRecord>)
      requires Keyed(gateway.storage)
      modifies gateway
      ensures Keyed(gateway.storage)
      ensures old(StoreOk(gateway.storage)) ==> StoreOk(gateway.storage)
      ensures id.Null? ==> r == Err(NullPointer)
      ensures id.Some? && id.value !in old(gateway.storage) ==> r == Err(IllegalArgument(NotFound))
      ensures id.Some? && id.value in old(gateway.storage) && !old(gateway.storage)[id.value].completed ==>
        r == Err(IllegalState(NotCompleted))
      ensures r.Err? ==> gateway.storage == old(gateway.storage)
      ensures r.Ok? <==> id.Some? && id.value in old(gateway.storage) && old(gateway.storage)[id.value].completed
      ensures r.Ok? ==>
        && r.value == old(gateway.storage)[id.value].(completed := false, updatedAt := now)
        && gateway.storage == old(gateway.storage)[id.value := r.value]
    {
      if id.Null? {
        return Err(NullPointer);
      }
      var found := gateway.FindById(id.value);
      if found.Null? {
        return Err(IllegalArgument(NotFound));
      }
      var todo := found.value;
      var outcome := todo.Uncomplete(now);
      if outcome.Err? {
        return Err(outcome.failure);
      }
      var saved := gateway.Save(todo);
      r := Ok(saved.Record());
    }
  }

  /** Refuses an unknown id, otherwise removes the entry. */
  class DeleteTodoUseCase {
    const gateway: InMemoryTodoGateway

    constructor (gateway: InMemoryTodoGateway)
      ensures this.gateway == gateway
    {
      this.gateway := gateway;
    }

    method Execute(id: Nullable<string>) returns (r: Result<()>)
      requires Keyed(gateway.storage)
      modifies gateway
      ensures Keyed(gateway.storage)
      ensures old(StoreOk(gateway.storage)) ==> StoreOk(gateway.storage)
      ensures id.Null? ==> r == Err(NullPointer)
      ensures id.Some? && id.value !in old(gateway.storage) ==> r == Err(IllegalArgument(NotFound))
      ensures r.Ok? <==> id.Some? && id.value in old(gateway.storage)
      ensures r.Err? ==> gateway.storage == old(gateway.storage)
      ensures r.Ok? ==> gateway.storage == old(gateway.storage) - {id.value}
    {
      if id.Null? {
        return Err(NullPointer);
      }
      if !gateway.ExistsById(id.value) {
        return Err(IllegalArgument(NotFound));
      }
      gateway.Delete(id.value);
      r := Ok(());
    }
  }

  /** The lookup mapped to a response: empty for an unknown id. */
  class FindTodoByIdUseCase {
    const gateway: InMemoryTodoGateway

    constructor (gateway: InMemoryTodoGateway)
      ensures this.gateway == gateway
    {
      this.gateway := gateway;
    }

    method Execute(id: Nullable<string>) returns (r: Result<Nullable<TodoRecord>>)
      ensures id.Null? ==> r == Err(NullPointer)
      ensures id.Some? ==> r.Ok? && (r.value.Null? <==> id.value !in gateway.storage)
      ensures r.Ok? && r.value.Some? ==> r.value.value == gateway.storage[id.value]
    {
      if id.Null? {
        return Err(NullPointer);
      }
      var found := gateway.FindById(id.value);
      if found.Null? {
        return Ok(Null);
      }
      r := Ok(Some(found.value.Record()));
    }
  }

  /** Every stored todo as a list item, one per id. */
  class GetAllTodosUseCase {
    const gateway: InMemoryTodoGateway

    constructor (gateway: InMemoryTodoGateway)
      ensures this.gateway == gateway
    {
      this.gateway := gateway;
    }

    method Execute() returns (r: seq<TodoRecord>, ghost ks: seq<string>)
      ensures Lists(ks, gateway.storage.Keys)
      ensures |r| == |ks| == |gateway.storage|
      ensures forall i :: 0 <= i < |r| ==> r[i] == gateway.storage[ks[i]]
    {
      r, ks := gateway.FindAll();
    }
  }

  /** Every completed todo as a list item, one per id. */
  class GetCompletedTodosUseCase {
    const gateway: InMemoryTodoGateway

    constructor (gateway: InMemoryTodoGateway)
      ensures this.gateway == gateway
    {
      this.gateway := gateway;
    }

    method Execute() returns (r: seq<TodoRecord>, ghost ks: seq<string>)
      ensures Lists(ks, WithCompleted(gateway.storage, true))
      ensures |r| == |ks|
      ensures forall i :: 0 <= i < |r| ==> ks[i] in gateway.storage && r[i] == gateway.storage[ks[i]] && r[i].completed
    {
      r, ks := gateway.FindByCompleted(true);
    }
  }

  /** Every pending todo as a list item, one per id. */
  class GetPendingTodosUseCase {
    const gateway: InMemoryTodoGateway

    constructor (gateway: InMemoryTodoGateway)
      ensures this.gateway == gateway
    {
      this.gateway := gateway;
    }

    method Execute() returns (r: seq<TodoRecord>, ghost ks: seq<string>)
      ensures Lists(ks, WithCompleted(gateway.storage, false))
      ensures |r| == |ks|
      ensures forall i :: 0 <= i < |r| ==> ks[i] in gateway.storage && r[i] == gateway.storage[ks[i]] && !r[i].completed
    {
      r, ks := gateway.FindByCompleted(false);
    }
  }
}
