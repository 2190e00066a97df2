/** The DDD variant's application service: it builds value objects from the
    request strings, lets the aggregate apply the change, saves through the
    repository and answers with a DTO. */
module DddApplication {
  import opened Outcomes
  import opened Rules
  import opened Enumeration
  import opened DddDomain
  import opened DddPersistence

  /** The service's answer: every value flattened, the status by name. */
  datatype TodoDto = TodoDto(
    id: string,
    title: string,
    description: Nullable<string>,
    status: string,
    createdAt: nat,
    updatedAt: nat)

  /** `toDTO`: each value object's value and the status's name, which
      `valueOf` reads back as the same status. */
  function ToDto(s: TodoState): (r: TodoDto)
    ensures StatusValueOf(r.status) == Ok(s.status)
    ensures r.status == "COMPLETED" <==> s.status.IsCompleted()
  {
    StatusNameRoundTrip(s.status);
    TodoDto(s.id, s.title, s.description, s.status.Name(), s.createdAt, s.updatedAt)
  }

  /** The DTO of an aggregate carries exactly the values its persistence
      model stores, so what a read returns is what was saved. */
  lemma DtoMatchesStoredModel(m: TodoPersistenceModel)
    requires ToAggregateState(m).Ok?
    ensures ToDto(StateOf(m)) == TodoDto(m.id, m.title, m.description, m.status, m.createdAt, m.updatedAt)
  {
    ModelRoundTrip(m);
  }

  class TodoApplicationService {
    const repository: TodoRepository

    constructor (repository: TodoRepository)
      ensures this.repository == repository
    {
      this.repository := repository;
    }

    /** Builds the title, then the description (`empty()` for null), creates
        a pending aggregate under `newId` (the generated id) at `now` and
        saves it. */
    method CreateTodo(title: Nullable<string>, description: Nullable<string>, newId: TodoId, now: nat)
      returns (r: Result<TodoDto>)
      requires repository.Valid()
      requires newId !in repository.dao.storage
      modifies repository.dao
      ensures repository.Valid()
      ensures NewTitle(title).Err? ==> r == Err(NewTitle(title).failure)
      ensures NewTitle(title).Ok? && !DescriptionOk(description) ==> r == Err(IllegalArgument(DescriptionTooLong))
      ensures r.Ok? <==> BlankTitleOk(title) && DescriptionOk(description)
      ensures r.Err? ==> repository.dao.storage == old(repository.dao.storage)
      ensures r.Ok? ==>
        && r.value == TodoDto(newId, title.value, description, "PENDING", now, now)
        && repository.dao.storage ==
             old(repository.dao.storage)[newId := TodoPersistenceModel(newId, title.value, description, "PENDING", now, now)]
    {
      var t :- NewTitle(title);
      var d :- DescriptionFor(description);
      var todo := new Todo.Create(t, d, newId, now);
      repository.Save(todo);
      r := Ok(ToDto(todo.State()));
    }

    /** Parses the id, loads the aggregate (TodoNotFoundException when
        absent), replaces title then description at `now`, and saves. */
    method UpdateTodo(id: Nullable<string>, title: Nullable<string>, description: Nullable<string>, now: nat)
      returns (r: Result<TodoDto>)
      requires repository.Valid()
      modifies repository.dao
      ensures repository.Valid()
      ensures NewTodoId(id).Err? ==> r == Err(NewTodoId(id).failure)
      ensures NewTodoId(id).Ok? && id.value !in old(repository.dao.storage) ==> r == Err(TodoNotFound)
      ensures NewTodoId(id).Ok? && id.value in old(repository.dao.storage) ==>
        && (NewTitle(title).Err? ==> r == Err(NewTitle(title).failure))
        && (NewTitle(title).Ok? && !DescriptionOk(description) ==> r == Err(IllegalArgument(DescriptionTooLong)))
      ensures r.Ok? <==>
        NewTodoId(id).Ok? && id.value in old(repository.dao.storage) && BlankTitleOk(title) && DescriptionOk(description)
      ensures r.Err? ==> repository.dao.storage == old(repository.dao.storage)
      ensures r.Ok? ==>
        && repository.dao.storage == old(repository.dao.storage)[id.value :=
             old(repository.dao.storage)[id.value].(title := title.value, description := description, updatedAt := now)]
        && r.value == ToDto(StateOf(repository.dao.storage[id.value]))
    {
      var tid :- NewTodoId(id);
      var found := repository.FindById(tid);
      assert found.Ok?;
      if found.value.Null? {
        return Err(TodoNotFound);
      }
      var todo := found.value.value;
      ModelRoundTrip(repository.dao.storage[tid]);
      var t :- NewTitle(title);
      var titled := todo.UpdateTitle(Some(t), now);
      var d :- DescriptionFor(description);
      todo.UpdateDescription(d, now);
      repository.Save(todo);
      AggregateRoundTrip(todo.State());
      r := Ok(ToDto(todo.State()));
    }

    /** Parses the id, loads the aggregate and marks it completed at `now`
        (refused when it already is), then saves. */
    method CompleteTodo(id: Nullable<string>, now: nat) returns (r: Result<TodoDto>)
      requires repository.Valid()
      modifies repository.dao
      ensures repository.Valid()
      ensures NewTodoId(id).Err? ==> r == Err(NewTodoId(id).failure)
      ensures NewTodoId(id).Ok? && id.value !in old(repository.dao.storage) ==> r == Err(TodoNotFound)
      ensures NewTodoId(id).Ok? && id.value in old(repository.dao.storage) && old(repository.dao.storage)[id.value].status == "COMPLETED" ==>
        r == Err(IllegalState(AlreadyCompleted))
      ensures r.Ok? <==>
        NewTodoId(id).Ok? && id.value in old(repository.dao.storage) && old(repository.dao.storage)[id.value].status == "PENDING"
      ensures r.Err? ==> repository.dao.storage == old(repository.dao.storage)
      ensures r.Ok? ==>
        && repository.dao.storage == old(repository.dao.storage)[id.value :=
             old(repository.dao.storage)[id.value].(status := "COMPLETED", updatedAt := now)]
        && r.value == ToDto(StateOf(repository.dao.storage[id.value]))
    {
      var tid :- NewTodoId(id);
      var found := repository.FindById(tid);
      assert found.Ok?;
      if found.value.Null? {
        return Err(TodoNotFound);
      }
      var todo := found.value.value;
      ModelRoundTrip(repository.dao.storage[tid]);
      var marked :- todo.MarkAsCompleted(now);
      repository.Save(todo);
      AggregateRoundTrip(todo.State());
      r := Ok(ToDto(todo.State()));
    }

    /** Parses the id, loads the aggregate and marks it pending at `now`
        (refused when it already is), then saves. */
    method UncompleteTodo(id: Nullable<string>, now: nat) returns (r: Result<TodoDto>)
      requires repository.Valid()
      modifies repository.dao
      ensures repository.Valid()
      ensures NewTodoId(id).Err? ==> r == Err(NewTodoId(id).failure)
      ensures NewTodoId(id).Ok? && id.value !in old(repository.dao.storage) ==> r == Err(TodoNotFound)
      ensures NewTodoId(id).Ok? && id.value in old(repository.dao.storage) && old(repository.dao.storage)[id.value].status == "PENDING" ==>
        r == Err(IllegalState(NotCompleted))
      ensures r.Ok? <==>
        NewTodoId(id).Ok? && id.value in old(repository.dao.storage) && old(repository.dao.storage)[id.value].status == "COMPLETED"
      ensures r.Err? ==> repository.dao.storage == old(repository.dao.storage)
      ensures r.Ok? ==>
        && repository.dao.storage == old(repository.dao.storage)[id.value :=
             old(repository.dao.storage)[id.value].(status := "PENDING", updatedAt := now)]
        && r.value == ToDto(StateOf(repository.dao.storage[id.value]))
    {
      var tid :- NewTodoId(id);
      var found := repository.FindById(tid);
      assert found.Ok?;
      if found.value.Null? {
        return Err(TodoNotFound);
      }
      var todo := found.value.value;
      ModelRoundTrip(repository.dao.storage[tid]);
      var marked :- todo.MarkAsPending(now);
      repository.Save(todo);
      AggregateRoundTrip(todo.State());
      r := Ok(ToDto(todo.State()));
    }

    /** Parses the id; an unknown id is TodoNotFoundException, a known one
        is removed. */
    method DeleteTodo(id: Nullable<string>) returns (r: Result<()>)
      requires repository.Valid()
      modifies repository.dao
      ensures repository.Valid()
      ensures NewTodoId(id).Err? ==> r == Err(NewTodoId(id).failure)
      ensures NewTodoId(id).Ok? && id.value !in old(repository.dao.storage) ==> r == Err(TodoNotFound)
      ensures r.Ok? <==> NewTodoId(id).Ok? && id.value in old(repository.dao.storage)
      ensures r.Err? ==> repository.dao.storage == old(repository.dao.storage)
      ensures r.Ok? ==> repository.dao.storage == old(repository.dao.storage) - {id.value}
    {
      var tid :- NewTodoId(id);
      if !repository.ExistsById(tid) {
        return Err(TodoNotFound);
      }
      repository.Delete(tid);
      r := Ok(());
    }

    /** Parses the id; empty for an unknown id, else the stored todo's DTO. */
    method FindTodoById(id: Nullable<string>) returns (r: Result<Nullable<TodoDto>>)
      ensures NewTodoId(id).Err? ==> r == Err(NewTodoId(id).failure)
      ensures NewTodoId(id).Ok? && id.value !in repository.dao.storage ==> r == Ok(Null)
      ensures NewTodoId(id).Ok? && id.value in repository.dao.storage && repository.Valid() ==>
        r == Ok(Some(ToDto(StateOf(repository.dao.storage[id.value]))))
    {
      var tid :- NewTodoId(id);
      var found :- repository.FindById(tid);
      if found.Null? {
        return Ok(Null);
      }
      r := Ok(Some(ToDto(found.value.State())));
    }

    /** Every stored todo's DTO, one per id. */
    method GetAllTodos() returns (r: Result<seq<TodoDto>>, ghost ks: seq<string>)
      ensures Lists(ks, repository.dao.storage.Keys)
      ensures repository.Valid() ==> r.Ok?
      ensures r.Ok? ==>
        && |r.value| == |ks|
        && forall i :: 0 <= i < |ks| ==>
             ks[i] in repository.dao.storage
             && ToAggregateState(repository.dao.storage[ks[i]]).Ok?
             && r.value[i] == ToDto(StateOf(repository.dao.storage[ks[i]]))
    {
      var states;
      states, ks := repository.FindAll();
      if states.Err? {
        return Err(states.failure), ks;
      }
      var s := states.value;
      r := Ok(seq(|s|, i requires 0 <= i < |s| => ToDto(s[i])));
    }

    /** The DTOs of the completed todos, one per id. */
    method GetCompletedTodos() returns (r: Result<seq<TodoDto>>, ghost ks: seq<string>)
      ensures Lists(ks, WithStatus(repository.dao.storage, "COMPLETED"))
      ensures repository.Valid() ==> r.Ok?
      ensures r.Ok? ==>
        && |r.value| == |ks|
        && forall i :: 0 <= i < |ks| ==>
             ks[i] in repository.dao.storage
             && ToAggregateState(repository.dao.storage[ks[i]]).Ok?
             && r.value[i] == ToDto(StateOf(repository.dao.storage[ks[i]]))
             && r.value[i].status == "COMPLETED"
    {
      var states;
      states, ks := repository.FindByStatus(COMPLETED);
      if states.Err? {
        return Err(states.failure), ks;
      }
      var s := states.value;
      r := Ok(seq(|s|, i requires 0 <= i < |s| => ToDto(s[i])));
    }

    /** The DTOs of the pending todos, one per id. */
    method GetPendingTodos() returns (r: Result<seq<TodoDto>>, ghost ks: seq<string>)
      ensures Lists(ks, WithStatus(repository.dao.storage, "PENDING"))
      ensures repository.Valid() ==> r.Ok?
      ensures r.Ok? ==>
        && |r.value| == |ks|
        && forall i :: 0 <= i < |ks| ==>
             ks[i] in repository.dao.storage
             && ToAggregateState(repository.dao.storage[ks[i]]).Ok?
             && r.value[i] == ToDto(StateOf(repository.dao.storage[ks[i]]))
             && r.value[i].status == "PENDING"
    {
      var states;
      states, ks := repository.FindByStatus(PENDING);
      if states.Err? {
        return Err(states.failure), ks;
      }
      var s := states.value;
      r := Ok(seq(|s|, i requires 0 <= i < |s| => ToDto(s[i])));
    }
  }
}
