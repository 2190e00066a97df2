/** The DDD variant's persistence side: the flat persistence model, its
    conversions to and from the aggregate, the in-memory DAO, and the
    repository that converts on every read and write. */
module DddPersistence {
  import opened Outcomes
  import opened JavaString
  import opened Rules
  import opened Enumeration
  import opened DddDomain

  /** The stored shape: every value object flattened to its string, the
      status to its name. */
  datatype TodoPersistenceModel = TodoPersistenceModel(
    id: string,
    title: string,
    description: Nullable<string>,
    status: string,
    createdAt: nat,
    updatedAt: nat)

  /** `fromAggregate`: each value object's value, the status's name and
      both timestamps. */
  function FromAggregate(s: TodoState): (r: TodoPersistenceModel)
    ensures ToAggregateState(r).Ok?
    ensures r.status == "COMPLETED" <==> s.status.IsCompleted()
  {
    StatusNameRoundTrip(s.status);
    TodoPersistenceModel(s.id, s.title, s.description, s.status.Name(), s.createdAt, s.updatedAt)
  }

  /** `toAggregate`: rebuilds each value object through its checking
      constructor, in argument order (id, title, description, status); the
      first one that refuses its value decides the failure. */
  function ToAggregateState(m: TodoPersistenceModel): (r: Result<TodoState>)
    ensures r.Ok? <==>
      && !IsBlank(m.id)
      && BlankTitleOk(Some(m.title))
      && DescriptionOk(m.description)
      && (m.status == "PENDING" || m.status == "COMPLETED")
    ensures IsBlank(m.id) ==> r == Err(IllegalArgument(BlankId))
  {
    var id :- NewTodoId(Some(m.id));
    var title :- NewTitle(Some(m.title));
    var description :- DescriptionFor(m.description);
    var status :- StatusValueOf(m.status);
    Ok(TodoState(id, title, description, status, m.createdAt, m.updatedAt))
  }

  /** Every aggregate survives a trip through the persistence model:
      `toAggregate(fromAggregate(t))` has the same six fields as `t`, an
      absent description included. */
  lemma AggregateRoundTrip(s: TodoState)
    ensures ToAggregateState(FromAggregate(s)) == Ok(s)
  {
    StatusNameRoundTrip(s.status);
  }

  /** Every model that converts survives the opposite trip. */
  lemma ModelRoundTrip(m: TodoPersistenceModel)
    requires ToAggregateState(m).Ok?
    ensures FromAggregate(ToAggregateState(m).value) == m
  {
  }

  /** The aggregate a convertible model stands for. */
  function StateOf(m: TodoPersistenceModel): TodoState
    requires ToAggregateState(m).Ok?
  {
    ToAggregateState(m).value
  }

  /** `toAggregate` as the repository runs it: a new aggregate object. */
  method ToAggregate(m: TodoPersistenceModel) returns (r: Result<Todo>)
    ensures r.Ok? <==> ToAggregateState(m).Ok?
    ensures r.Err? ==> r.failure == ToAggregateState(m).failure
    ensures r.Ok? ==> fresh(r.value) && r.value.State() == StateOf(m)
  {
    var s := ToAggregateState(m);
    if s.Err? {
      return Err(s.failure);
    }
    var todo := new Todo.Reconstitute(s.value.id, s.value.title, s.value.description,
      s.value.status, s.value.createdAt, s.value.updatedAt);
    r := Ok(todo);
  }

  /** The stream `map(toAggregate)` over a list of models: all converted, or
      the failure of the first model that does not convert. */
  method ToAggregates(models: seq<TodoPersistenceModel>) returns (r: Result<seq<TodoState>>)
    ensures r.Ok? <==> forall i :: 0 <= i < |models| ==> ToAggregateState(models[i]).Ok?
    ensures r.Ok? ==> |r.value| == |models| && forall i :: 0 <= i < |models| ==> r.value[i] == StateOf(models[i])
    ensures r.Err? ==>
      exists i :: 0 <= i < |models| && ToAggregateState(models[i]) == Err(r.failure) &&
                  forall j :: 0 <= j < i ==> ToAggregateState(models[j]).Ok?
  {
    var states := [];
    var i := 0;
    while i < |models|
      invariant 0 <= i <= |models| && |states| == i
      invariant forall j :: 0 <= j < i ==> ToAggregateState(models[j]).Ok? && states[j] == StateOf(models[j])
    {
      var s := ToAggregateState(models[i]);
      if s.Err? {
        return Err(s.failure);
      }
      states := states + [s.value];
      i := i + 1;
    }
    r := Ok(states);
  }

  /** The ids of the stored models whose status string equals `status`. */
  function WithStatus(storage: map<string, TodoPersistenceModel>, status: string): set<string> {
    KeysWhere(storage, (m: TodoPersistenceModel) => m.status == status, true)
  }

  /** On a store whose every status is a constant's name, the models with
      status "COMPLETED" and those with status "PENDING" split the store:
      their listings together are as long as the listing of all models. */
  lemma StatusPartition(storage: map<string, TodoPersistenceModel>, kc: seq<string>, kp: seq<string>, ka: seq<string>)
    requires forall k :: k in storage ==> storage[k].status == "PENDING" || storage[k].status == "COMPLETED"
    requires Lists(kc, WithStatus(storage, "COMPLETED"))
    requires Lists(kp, WithStatus(storage, "PENDING"))
    requires Lists(ka, storage.Keys)
    ensures |kc| + |kp| == |ka|
  {
    var c, p := WithStatus(storage, "COMPLETED"), WithStatus(storage, "PENDING");
    assert "COMPLETED" != "PENDING" by {
      assert "COMPLETED"[0] != "PENDING"[0];
    }
    assert c + p == storage.Keys;
    assert c * p == {};
    ListsSize(kc, c);
    ListsSize(kp, p);
    ListsSize(ka, storage.Keys);
  }

  /** The DAO: a map from id to persistence model. */
  class InMemoryTodoDao {
    var storage: map<string, TodoPersistenceModel>

    constructor ()
      ensures storage == map[]
    {
      storage := map[];
    }

    /** Stores the model under its id, replacing any earlier entry. */
    method Save(model: TodoPersistenceModel)
      modifies this
      ensures storage == old(storage)[model.id := model]
    {
      storage := storage[model.id := model];
    }

    /** `Optional.ofNullable(storage.get(id))`. */
    function FindById(id: string): (r: Nullable<TodoPersistenceModel>)
      reads this
      ensures r.Null? <==> id !in storage
      ensures r.Some? ==> r.value == storage[id]
    {
      if id in storage then Some(storage[id]) else Null
    }

    /** Every stored model, one per id, in no particular order. */
    method FindAll() returns (r: seq<TodoPersistenceModel>, ghost ks: seq<string>)
      ensures Lists(ks, storage.Keys)
      ensures |r| == |ks| == |storage|
      ensures forall i :: 0 <= i < |r| ==> r[i] == storage[ks[i]]
    {
      var keys := ListKeys(storage.Keys);
      ListsSize(keys, storage.Keys);
      var m := storage;
      r := seq(|keys|, i requires 0 <= i < |keys| => m[keys[i]]);
      ks := keys;
    }

    /** Exactly the stored models whose status string equals `status`. */
    method FindByStatus(status: string) returns (r: seq<TodoPersistenceModel>, ghost ks: seq<string>)
      ensures Lists(ks, WithStatus(storage, status))
      ensures |r| == |ks|
      ensures forall i :: 0 <= i < |r| ==> ks[i] in storage && r[i] == storage[ks[i]] && r[i].status == status
    {
      var keys := ListKeys(WithStatus(storage, status));
      var m := storage;
      r := seq(|keys|, i requires 0 <= i < |keys| => m[keys[i]]);
      ks := keys;
    }

    /** Removes the entry under id, if any; nothing else changes. */
    method Delete(id: string)
      modifies this
      ensures storage == old(storage) - {id}
      ensures FindById(id).Null?
    {
      storage := storage - {id};
    }

    /** `containsKey`: true exactly when FindById finds a model. */
    function ExistsById(id: string): (r: bool)
      reads this
      ensures r <==> FindById(id).Some?
    {
      id in storage
    }

    method Clear()
      modifies this
      ensures storage == map[]
    {
      storage := map[];
    }
  }

  /** The repository: converts aggregates to models on save and back on
      every read. */
  class TodoRepository {
    const dao: InMemoryTodoDao

    /** What holds while only the repository writes the DAO: each model sits
        under its own id and converts back to an aggregate. */
    ghost predicate Valid()
      reads this, dao
    {
      forall k :: k in dao.storage ==> dao.storage[k].id == k && ToAggregateState(dao.storage[k]).Ok?
    }

    constructor (dao: InMemoryTodoDao)
      ensures this.dao == dao
    {
      this.dao := dao;
    }

    /** Saves `fromAggregate(todo)` under the aggregate's id, overwriting any
        earlier model; a valid store stays valid. */
    method Save(todo: Todo)
      modifies dao
      ensures dao.storage == old(dao.storage)[todo.id := FromAggregate(todo.State())]
      ensures old(Valid()) ==> Valid()
    {
      AggregateRoundTrip(todo.State());
      dao.Save(FromAggregate(todo.State()));
    }

    /** The stored model under the id, turned back into an aggregate. */
    method FindById(id: TodoId) returns (r: Result<Nullable<Todo>>)
      ensures id !in dao.storage ==> r == Ok(Null)
      ensures id in dao.storage ==> (r.Ok? <==> ToAggregateState(dao.storage[id]).Ok?) && (r.Ok? ==> r.value.Some?)
      ensures id in dao.storage && r.Err? ==> r.failure == ToAggregateState(dao.storage[id]).failure
      ensures Valid() ==> r.Ok?
      ensures r.Ok? && r.value.Some? ==>
        && id in dao.storage
        && fresh(r.value.value)
        && r.value.value.State() == StateOf(dao.storage[id])
    {
      var found := dao.FindById(id);
      if found.Null? {
        return Ok(Null);
      }
      var todo :- ToAggregate(found.value);
      r := Ok(Some(todo));
    }

    /** Every stored model turned into an aggregate, one per id. */
    method FindAll() returns (r: Result<seq<TodoState>>, ghost ks: seq<string>)
      ensures Lists(ks, dao.storage.Keys)
      ensures r.Ok? <==> forall i :: 0 <= i < |ks| ==> ToAggregateState(dao.storage[ks[i]]).Ok?
      ensures Valid() ==> r.Ok?
      ensures r.Ok? ==> |r.value| == |ks| && forall i :: 0 <= i < |ks| ==> r.value[i] == StateOf(dao.storage[ks[i]])
    {
      var models;
      models, ks := dao.FindAll();
      r := ToAggregates(models);
    }

    /** The stored models whose status is `status`, turned into aggregates. */
    method FindByStatus(status: TodoStatus) returns (r: Result<seq<TodoState>>, ghost ks: seq<string>)
      ensures Lists(ks, WithStatus(dao.storage, status.Name()))
      ensures r.Ok? <==> forall i :: 0 <= i < |ks| ==> ToAggregateState(dao.storage[ks[i]]).Ok?
      ensures Valid() ==> r.Ok?
      ensures r.Ok? ==>
        && |r.value| == |ks|
        && forall i :: 0 <= i < |ks| ==> ks[i] in dao.storage && r.value[i] == StateOf(dao.storage[ks[i]]) && r.value[i].status == status
    {
      var models;
      models, ks := dao.FindByStatus(status.Name());
      r := ToAggregates(models);
      if r.Ok? {
        forall i | 0 <= i < |ks| ensures r.value[i].status == status {
          StatusNameRoundTrip(status);
        }
      }
    }

    /** Removes the model under the id; a valid store stays valid. */
    method Delete(id: TodoId)
      modifies dao
      ensures dao.storage == old(dao.storage) - {id}
      ensures old(Valid()) ==> Valid()
    {
      dao.Delete(id);
    }

    function ExistsById(id: TodoId): (r: bool)
      reads this, dao
      ensures r <==> id in dao.storage
    {
      dao.ExistsById(id)
    }
  }
}
