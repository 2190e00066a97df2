/** The hexagonal variant's outbound side: the DTO record the repository port
    carries, and the in-memory adapter behind that port. */
module HxInfrastructure {
  import opened Outcomes
  import opened Enumeration

  /** `TodoDTO`: the six fields the service hands out and stores. */
  datatype TodoDto = TodoDto(
    id: string,
    title: string,
    description: Nullable<string>,
    completed: bool,
    createdAt: nat,
    updatedAt: nat)

  /** The ids of the stored DTOs whose completed flag is `completed`. */
  function WithCompleted(storage: map<string, TodoDto>, completed: bool): set<string> {
    KeysWhere(storage, (d: TodoDto) => d.completed, completed)
  }

  /** The adapter: a map from id to DTO. */
  class InMemoryTodoRepository {
    var storage: map<string, TodoDto>

    constructor ()
      ensures storage == map[]
    {
      storage := map[];
    }

    /** Stores the DTO under its id, replacing any earlier entry, and hands
        the same DTO back. */
    method Save(todo: TodoDto) returns (saved: TodoDto)
      modifies this
      ensures saved == todo
      ensures storage == old(storage)[todo.id := todo]
    {
      storage := storage[todo.id := todo];
      saved := todo;
    }

    /** `Optional.ofNullable(storage.get(id))`. */
    function FindById(id: string): (r: Nullable<TodoDto>)
      reads this
      ensures r.Null? <==> !ExistsById(id)
      ensures r.Some? ==> r.value == storage[id]
    {
      if id in storage then Some(storage[id]) else Null
    }

    /** Every stored DTO, one per id, in no particular order. */
    method FindAll() returns (r: seq<TodoDto>, ghost ks: seq<string>)
      ensures Lists(ks, storage.Keys)
      ensures |r| == |ks| == |storage|
      ensures forall i :: 0 <= i < |r| ==> r[i] == storage[ks[i]]
    {
      var keys := ListKeys(storage.Keys);
      ListsSize(keys, storage.Keys);
      var m := storage;
      r := seq(|keys|, i requires 0 <= i < |keys| => m[keys[i]]);
      ks := keys;
    }

    /** Exactly the stored DTOs whose flag equals `completed`, one per id. */
    method FindByCompleted(completed: bool) returns (r: seq<TodoDto>, ghost ks: seq<string>)
      ensures Lists(ks, WithCompleted(storage, completed))
      ensures |r| == |ks|
      ensures forall i :: 0 <= i < |r| ==> ks[i] in storage && r[i] == storage[ks[i]] && r[i].completed == completed
    {
      var keys := ListKeys(WithCompleted(storage, completed));
      var m := storage;
      r := seq(|keys|, i requires 0 <= i < |keys| => m[keys[i]]);
      ks := keys;
    }

    /** Removes the entry under id, if any; nothing else changes. */
    method DeleteById(id: string)
      modifies this
      ensures storage == old(storage) - {id}
      ensures !ExistsById(id) && FindById(id).Null?
    {
      storage := storage - {id};
    }

    /** `containsKey`: whether a DTO is stored under id. */
    function ExistsById(id: string): (r: bool)
      reads this
      ensures r <==> id in storage
    {
      id in storage
    }

    method Clear()
      modifies this
      ensures storage == map[]
    {
      storage := map[];
    }
  }
}
