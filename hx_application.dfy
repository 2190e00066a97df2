/** The hexagonal variant's application service: every operation goes through
    the repository port, converting between DTO and entity on the way.
    Because `toDomain` rebuilds an entity from id, title and description
    alone, every update, complete and uncomplete stores a DTO whose completed
    flag and createdAt come from the rebuilt entity, not from the stored one. */
module HxApplication {
  import opened Outcomes
  import opened Enumeration
  import opened HxDomain
  import opened HxInfrastructure

  /** `toDTO`: the entity's six fields as a DTO, under the entity's own id. */
  function ToDto(todo: Todo): (r: TodoDto)
    reads todo
    ensures r.id == todo.State().id && r.completed == todo.State().completed
    ensures (r.title, r.description, r.createdAt, r.updatedAt) ==
            (todo.State().title, todo.State().description, todo.State().createdAt, todo.State().updatedAt)
  {
    TodoDto(todo.id, todo.title, todo.description, todo.completed, todo.createdAt, todo.updatedAt)
  }

  /** Every DTO stored under its own id: what the service keeps, since it
      saves only DTOs built from entities under their own id. */
  ghost predicate Keyed(storage: map<string, TodoDto>) {
    forall k :: k in storage ==> storage[k].id == k
  }

  /** `toDomain`: a new entity from the DTO's id, title and description. Its
      two clock readings become createdAt and updatedAt; the DTO's flag and
      timestamps are dropped, so converting back gives the same DTO only when
      it was pending and carried those very timestamps. */
  method ToDomain(dto: TodoDto, createdAt: nat, updatedAt: nat) returns (todo: Todo)
    ensures fresh(todo)
    ensures ToDto(todo) == dto.(completed := false, createdAt := createdAt, updatedAt := updatedAt)
    ensures ToDto(todo) == dto <==> !dto.completed && dto.createdAt == createdAt && dto.updatedAt == updatedAt
  {
    todo := new Todo(dto.id, dto.title, dto.description, createdAt, updatedAt);
  }

  class TodoService {
    const repository: InMemoryTodoRepository

    constructor (repository: InMemoryTodoRepository)
      ensures this.repository == repository
    {
      this.repository := repository;
    }

    /** Builds a pending entity under `newId` (the generated UUID), whose two
        clock readings are `createdAt` and `updatedAt`, and saves its DTO. A
        null title is the only thing refused: any string is a title here. */
    method CreateTodo(title: Nullable<string>, description: Nullable<string>, newId: string, createdAt: nat, updatedAt: nat)
      returns (r: Result<TodoDto>)
      requires newId !in repository.storage
      modifies repository
      ensures Keyed(old(repository.storage)) ==> Keyed(repository.storage)
      ensures r.Err? <==> title.Null?
      ensures r.Err? ==> r.failure == NullPointer && repository.storage == old(repository.storage)
      ensures r.Ok? ==>
        && r.value == TodoDto(newId, title.value, description, false, createdAt, updatedAt)
        && repository.storage == old(repository.storage)[newId := r.value]
    {
      var todo :- NewTodo(Some(newId), title, description, createdAt, updatedAt);
      var saved := repository.Save(ToDto(todo));
      r := Ok(saved);
    }

    /** Looks the DTO up, rebuilds an entity from it (clock readings
        `rebuiltAt`, then `now`), replaces title and description at `now`,
        and saves the result. The stored flag and createdAt are lost. */
    method UpdateTodo(id: Nullable<string>, title: Nullable<string>, description: Nullable<string>, rebuiltAt: nat, now: nat)
      returns (r: Result<TodoDto>)
      modifies repository
      ensures Keyed(old(repository.storage)) ==> Keyed(repository.storage)
      ensures id.Null? ==> r == Err(NullPointer)
      ensures id.Some? && id.value !in old(repository.storage) ==> r == Err(TodoNotFound)
      ensures id.Some? && id.value in old(repository.storage) && title.Null? ==> r == Err(NullPointer)
      ensures r.Err? ==> repository.storage == old(repository.storage)
      ensures r.Ok? <==> id.Some? && id.value in old(repository.storage) && title.Some?
      ensures r.Ok? ==>
        && r.value == old(repository.storage)[id.value].(title := title.value, description := description,
                                                          completed := false, createdAt := rebuiltAt, updatedAt := now)
        && repository.storage == old(repository.storage)[r.value.id := r.value]
    {
      if id.Null? {
        return Err(NullPointer);
      }
      var found := repository.FindById(id.value);
      if found.Null? {
        return Err(TodoNotFound);
      }
      var todo := ToDomain(found.value, rebuiltAt, now);
      var titled := todo.UpdateTitle(title, now);
      if titled.Err? {
        return Err(titled.failure);
      }
      todo.UpdateDescription(description, now);
      var saved := repository.Save(ToDto(todo));
      r := Ok(saved);
    }

    /** Looks the DTO up, rebuilds an entity, marks it completed at `now`
        and saves it. Nothing refuses a todo that is already completed. */
    method CompleteTodo(id: Nullable<string>, rebuiltAt: nat, now: nat) returns (r: Result<TodoDto>)
      modifies repository
      ensures Keyed(old(repository.storage)) ==> Keyed(repository.storage)
      ensures id.Null? ==> r == Err(NullPointer)
      ensures id.Some? && id.value !in old(repository.storage) ==> r == Err(TodoNotFound)
      ensures r.Err? ==> repository.storage == old(repository.storage)
      ensures r.Ok? <==> id.Some? && id.value in old(repository.storage)
      ensures r.Ok? ==>
        && r.value == old(repository.storage)[id.value].(completed := true, createdAt := rebuiltAt, updatedAt := now)
        && repository.storage == old(repository.storage)[r.value.id := r.value]
    {
      if id.Null? {
        return Err(NullPointer);
      }
      var found := repository.FindById(id.value);
      if found.Null? {
        return Err(TodoNotFound);
      }
      var todo := ToDomain(found.value, rebuiltAt, now);
      todo.MarkAsCompleted(now);
      var saved := repository.Save(ToDto(todo));
      r := Ok(saved);
    }

    /** Looks the DTO up, rebuilds an entity, marks it incomplete at `now`
        and saves it. Nothing refuses a todo that is already pending. */
    method UncompleteTodo(id: Nullable<string>, rebuiltAt: nat, now: nat) returns (r: Result<TodoDto>)
      modifies repository
      ensures Keyed(old(repository.storage)) ==> Keyed(repository.storage)
      ensures id.Null? ==> r == Err(NullPointer)
      ensures id.Some? && id.value !in old(repository.storage) ==> r == Err(TodoNotFound)
      ensures r.Err? ==> repository.storage == old(repository.storage)
      ensures r.Ok? <==> id.Some? && id.value in old(repository.storage)
      ensures r.Ok? ==>
        && r.value == old(repository.storage)[id.value].(completed := false, createdAt := rebuiltAt, updatedAt := now)
        && repository.storage == old(repository.storage)[r.value.id := r.value]
    {
      if id.Null? {
        return Err(NullPointer);
      }
      var found := repository.FindById(id.value);
      if found.Null? {
        return Err(TodoNotFound);
      }
      var todo := ToDomain(found.value, rebuiltAt, now);
      todo.MarkAsIncomplete(now);
      var saved := repository.Save(ToDto(todo));
      r := Ok(saved);
    }

    /** Refuses an unknown id, otherwise removes exactly that entry. */
    method DeleteTodo(id: Nullable<string>) returns (r: Result<()>)
      modifies repository
      ensures Keyed(old(repository.storage)) ==> Keyed(repository.storage)
      ensures id.Null? ==> r == Err(NullPointer)
      ensures id.Some? && id.value !in old(repository.storage) ==> r == Err(TodoNotFound)
      ensures r.Ok? <==> id.Some? && id.value in old(repository.storage)
      ensures r.Err? ==> repository.storage == old(repository.storage)
      ensures r.Ok? ==> repository.storage == old(repository.storage) - {id.value}
    {
      if id.Null? {
        return Err(NullPointer);
      }
      if !repository.ExistsById(id.value) {
        return Err(TodoNotFound);
      }
      repository.DeleteById(id.value);
      r := Ok(());
    }

    /** The repository lookup: empty for an unknown id. */
    method FindTodoById(id: Nullable<string>) returns (r: Result<Nullable<TodoDto>>)
      ensures id.Null? ==> r == Err(NullPointer)
      ensures id.Some? ==> r.Ok? && (r.value.Null? <==> id.value !in repository.storage)
      ensures r.Ok? && r.value.Some? ==> r.value.value == repository.storage[id.value]
    {
      if id.Null? {
        return Err(NullPointer);
      }
      r := Ok(repository.FindById(id.value));
    }

    /** Every stored DTO, one per id. */
    method GetAllTodos() returns (r: seq<TodoDto>, ghost ks: seq<string>)
      ensures Lists(ks, repository.storage.Keys)
      ensures |r| == |ks| == |repository.storage|
      ensures forall i :: 0 <= i < |r| ==> r[i] == repository.storage[ks[i]]
    {
      r, ks := repository.FindAll();
    }

    /** Every stored DTO whose flag is set, one per id. */
    method GetCompletedTodos() returns (r: seq<TodoDto>, ghost ks: seq<string>)
      ensures Lists(ks, WithCompleted(repository.storage, true))
      ensures |r| == |ks|
      ensures forall i :: 0 <= i < |r| ==> ks[i] in repository.storage && r[i] == repository.storage[ks[i]] && r[i].completed
    {
      r, ks := repository.FindByCompleted(true);
    }

    /** Every stored DTO whose flag is clear, one per id. */
    method GetIncompleteTodos() returns (r: seq<TodoDto>, ghost ks: seq<string>)
      ensures Lists(ks, WithCompleted(repository.storage, false))
      ensures |r| == |ks|
      ensures forall i :: 0 <= i < |r| ==> ks[i] in repository.storage && r[i] == repository.storage[ks[i]] && !r[i].completed
    {
      r, ks := repository.FindByCompleted(false);
    }
  }
}
