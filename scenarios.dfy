/** Runs of the four variants side by side, each on a store of its own: the
    completion lifecycle they agree on and the one place the hexagonal
    variant parts ways, the filtered listings that split the full listing,
    and delete followed by lookup. The validating variants' runs hold for
    every title and description that variant accepts. */
module Scenarios {
  import opened Outcomes
  import opened JavaString
  import opened Rules
  import opened Enumeration
  import Transcript
  import Clean
  import DddDomain
  import DddPersistence
  import DddApplication
  import HxInfrastructure
  import HxApplication

  /** Completing a todo twice: the transaction script refuses the second
      call with IllegalStateException. */
  method ScriptCompleteTwice(title: string, description: string)
    returns (first: Result<Transcript.TodoData>, second: Result<Transcript.TodoData>)
    requires TrimmedTitleOk(Some(title)) && DescriptionOk(Some(description))
    ensures first.Ok? && first.value.completed
    ensures second.Err? && second.failure == IllegalState(AlreadyCompleted)
  {
    assert "a"[0] == 'a';
    var gateway := new Transcript.InMemoryTodoGateway();
    var service := new Transcript.TodoTransactionScript(gateway);
    var created := service.CreateTodo(Some(title), Some(description), "a", 1);
    first := service.CompleteTodo(Some("a"), 2);
    second := service.CompleteTodo(Some("a"), 3);
  }

  /** The clean use case refuses the second completion too. */
  method CleanCompleteTwice(title: string, description: string)
    returns (first: Result<Clean.TodoRecord>, second: Result<Clean.TodoRecord>)
    requires TrimmedTitleOk(Some(title)) && DescriptionOk(Some(description))
    ensures first.Ok? && first.value.completed
    ensures second == Err(IllegalState(AlreadyCompleted))
  {
    var gateway := new Clean.InMemoryTodoGateway();
    var create := new Clean.CreateTodoUseCase(gateway);
    var complete := new Clean.CompleteTodoUseCase(gateway);
    var created := create.Execute(Some(title), Some(description), "a", 1);
    first := complete.Execute(Some("a"), 2);
    second := complete.Execute(Some("a"), 3);
  }

  /** So does the DDD service, through the aggregate's guard. */
  method DddCompleteTwice(title: string, description: string)
    returns (first: Result<DddApplication.TodoDto>, second: Result<DddApplication.TodoDto>)
    requires BlankTitleOk(Some(title)) && DescriptionOk(Some(description))
    ensures first.Ok? && first.value.status == "COMPLETED"
    ensures second == Err(IllegalState(AlreadyCompleted))
  {
    assert "a"[0] == 'a';
    var dao := new DddPersistence.InMemoryTodoDao();
    var repository := new DddPersistence.TodoRepository(dao);
    var service := new DddApplication.TodoApplicationService(repository);
    var created := service.CreateTodo(Some(title), Some(description), "a", 1);
    first := service.CompleteTodo(Some("a"), 2);
    second := service.CompleteTodo(Some("a"), 3);
  }

  /** The hexagonal service accepts the second completion and stores
      completed=true again. */
  method HxCompleteTwice() returns (first: Result<HxInfrastructure.TodoDto>, second: Result<HxInfrastructure.TodoDto>)
    ensures first.Ok? && first.value.completed
    ensures second.Ok? && second.value.completed
  {
    var repository := new HxInfrastructure.InMemoryTodoRepository();
    var service := new HxApplication.TodoService(repository);
    var created := service.CreateTodo(Some("Task"), Some("Description"), "a", 1, 1);
    first := service.CompleteTodo(Some("a"), 2, 2);
    second := service.CompleteTodo(Some("a"), 3, 3);
  }

  /** Un-completing a pending todo: the transaction script refuses it. */
  method ScriptUncompletePending(title: string, description: string)
    returns (r: Result<Transcript.TodoData>)
    requires TrimmedTitleOk(Some(title)) && DescriptionOk(Some(description))
    ensures r.Err? && r.failure == IllegalState(NotCompleted)
  {
    assert "a"[0] == 'a';
    var gateway := new Transcript.InMemoryTodoGateway();
    var service := new Transcript.TodoTransactionScript(gateway);
    var created := service.CreateTodo(Some(title), Some(description), "a", 1);
    r := service.UncompleteTodo(Some("a"), 2);
  }

  /** The clean use case refuses it. */
  method CleanUncompletePending(title: string, description: string)
    returns (r: Result<Clean.TodoRecord>)
    requires TrimmedTitleOk(Some(title)) && DescriptionOk(Some(description))
    ensures r == Err(IllegalState(NotCompleted))
  {
    var gateway := new Clean.InMemoryTodoGateway();
    var create := new Clean.CreateTodoUseCase(gateway);
    var uncomplete := new Clean.UncompleteTodoUseCase(gateway);
    var created := create.Execute(Some(title), Some(description), "a", 1);
    r := uncomplete.Execute(Some("a"), 2);
  }

  /** The DDD service refuses it. */
  method DddUncompletePending(title: string, description: string)
    returns (r: Result<DddApplication.TodoDto>)
    requires BlankTitleOk(Some(title)) && DescriptionOk(Some(description))
    ensures r == Err(IllegalState(NotCompleted))
  {
    assert "a"[0] == 'a';
    var dao := new DddPersistence.InMemoryTodoDao();
    var repository := new DddPersistence.TodoRepository(dao);
    var service := new DddApplication.TodoApplicationService(repository);
    var created := service.CreateTodo(Some(title), Some(description), "a", 1);
    r := service.UncompleteTodo(Some("a"), 2);
  }

  /** The hexagonal service accepts it. */
  method HxUncompletePending() returns (r: Result<HxInfrastructure.TodoDto>)
    ensures r.Ok? && !r.value.completed
  {
    var repository := new HxInfrastructure.InMemoryTodoRepository();
    var service := new HxApplication.TodoService(repository);
    var created := service.CreateTodo(Some("Task"), Some("Description"), "a", 1, 1);
    r := service.UncompleteTodo(Some("a"), 2, 2);
  }

  /** In the hexagonal service, updating a completed todo stores it as
      pending again, with the createdAt of the rebuilt entity. */
  method HxUpdateForgetsCompletion() returns (completed: Result<HxInfrastructure.TodoDto>, updated: Result<HxInfrastructure.TodoDto>)
    ensures completed.Ok? && completed.value.completed && completed.value.createdAt == 3
    ensures updated.Ok? && !updated.value.completed && updated.value.createdAt == 5
    ensures updated.value.title == "Task 2" && updated.value.description == Null
  {
    var repository := new HxInfrastructure.InMemoryTodoRepository();
    var service := new HxApplication.TodoService(repository);
    var created := service.CreateTodo(Some("Task"), Some("Description"), "a", 1, 2);
    completed := service.CompleteTodo(Some("a"), 3, 4);
    updated := service.UpdateTodo(Some("a"), Some("Task 2"), Null, 5, 6);
  }

  /** The store of the listing test: three todos created, the first and
      the third completed. */
  method ThreeTodosTwoCompleted(title: string, description: string, id1: string, id2: string, id3: string, now: nat)
    returns (gateway: Clean.InMemoryTodoGateway)
    requires TrimmedTitleOk(Some(title)) && DescriptionOk(Some(description))
    requires id1 != id2 && id2 != id3 && id1 != id3
    ensures fresh(gateway) && Clean.StoreOk(gateway.storage)
    ensures gateway.storage.Keys == {id1, id2, id3}
    ensures gateway.storage[id1].completed && !gateway.storage[id2].completed && gateway.storage[id3].completed
  {
    gateway := new Clean.InMemoryTodoGateway();
    var create := new Clean.CreateTodoUseCase(gateway);
    var complete := new Clean.CompleteTodoUseCase(gateway);
    var todo1 := create.Execute(Some(title), Some(description), id1, now);
    assert todo1.Ok?;
    var todo2 := create.Execute(Some(title), Some(description), id2, now);
    assert todo2.Ok?;
    var todo3 := create.Execute(Some(title), Some(description), id3, now);
    assert todo3.Ok?;
    assert gateway.storage.Keys == {id1, id2, id3} && !gateway.storage[id2].completed;
    var done1 := complete.Execute(Some(id1), now);
    assert done1.Ok?;
    var done3 := complete.Execute(Some(id3), now);
    assert done3.Ok?;
  }

  /** Three todos, the first and third completed: two completed, one
      pending, and the pending one is the second. */
  method CompletedAndPending(title: string, description: string, id1: string, id2: string, id3: string, now: nat)
    returns (completed: seq<Clean.TodoRecord>, pending: seq<Clean.TodoRecord>)
    requires TrimmedTitleOk(Some(title)) && DescriptionOk(Some(description))
    requires id1 != id2 && id2 != id3 && id1 != id3
    ensures |completed| == 2 && |pending| == 1 && pending[0].id == id2
    ensures forall i :: 0 <= i < |completed| ==> completed[i].id in {id1, id3} && completed[i].completed
  {
    var gateway := ThreeTodosTwoCompleted(title, description, id1, id2, id3, now);
    var getCompleted := new Clean.GetCompletedTodosUseCase(gateway);
    var getPending := new Clean.GetPendingTodosUseCase(gateway);
    ghost var kt, kf;
    completed, kt := getCompleted.Execute();
    pending, kf := getPending.Execute();
    assert Clean.WithCompleted(gateway.storage, true) == {id1, id3};
    assert Clean.WithCompleted(gateway.storage, false) == {id2};
    ListsSize(kt, {id1, id3});
    ListsSize(kf, {id2});
    assert kf[0] in {id2};
  }

  /** Deleting a todo: the lookup afterwards finds nothing, and a second
      delete of the same id is refused. */
  method DeleteThenFind(title: string, description: string)
    returns (found: Result<Nullable<Transcript.TodoData>>, again: Result<()>,
                                   cleanFound: Result<Nullable<Clean.TodoRecord>>, cleanAgain: Result<()>)
    requires TrimmedTitleOk(Some(title)) && DescriptionOk(Some(description))
    ensures found == Ok(Null) && again == Err(IllegalArgument(NotFound))
    ensures cleanFound == Ok(Null) && cleanAgain == Err(IllegalArgument(NotFound))
  {
    assert "a"[0] == 'a';

    var gateway := new Transcript.InMemoryTodoGateway();
    var service := new Transcript.TodoTransactionScript(gateway);
    var created := service.CreateTodo(Some(title), Some(description), "a", 1);
    var deleted := service.DeleteTodo(Some("a"));
    found := service.FindTodoById(Some("a"));
    again := service.DeleteTodo(Some("a"));

    var cleanGateway := new Clean.InMemoryTodoGateway();
    var create := new Clean.CreateTodoUseCase(cleanGateway);
    var delete := new Clean.DeleteTodoUseCase(cleanGateway);
    var find := new Clean.FindTodoByIdUseCase(cleanGateway);
    var cleanCreated := create.Execute(Some(title), Some(description), "a", 1);
    var cleanDeleted := delete.Execute(Some("a"));
    cleanFound := find.Execute(Some("a"));
    cleanAgain := delete.Execute(Some("a"));
  }

  /** A DDD aggregate saved through the repository reads back with all six
      fields equal, though as a different object. */
  method DddSaveThenFind(todo: DddDomain.Todo) returns (found: Result<Nullable<DddDomain.Todo>>)
    ensures found.Ok? && found.value.Some?
    ensures found.value.value != todo && found.value.value.State() == todo.State()
  {
    var dao := new DddPersistence.InMemoryTodoDao();
    var repository := new DddPersistence.TodoRepository(dao);
    repository.Save(todo);
    DddPersistence.AggregateRoundTrip(todo.State());
    found := repository.FindById(todo.id);
  }

  /** The transaction script's completed and pending listings together have
      as many todos as the full listing. */
  method TranscriptListingsSplit(service: Transcript.TodoTransactionScript)
    returns (all: seq<Transcript.TodoRecord>, completed: seq<Transcript.TodoRecord>, pending: seq<Transcript.TodoRecord>)
    ensures |completed| + |pending| == |all|
  {
    ghost var ka, kt, kf;
    all, ka := service.GetAllTodos();
    completed, kt := service.GetCompletedTodos();
    pending, kf := service.GetPendingTodos();
    FilterSplitsListing(service.gateway.storage, (t: Transcript.TodoRecord) => t.completed, kt, kf, ka);
  }

  /** The same split for the clean use cases. */
  method CleanListingsSplit(gateway: Clean.InMemoryTodoGateway)
    returns (all: seq<Clean.TodoRecord>, completed: seq<Clean.TodoRecord>, pending: seq<Clean.TodoRecord>)
    ensures |completed| + |pending| == |all|
  {
    var getAll := new Clean.GetAllTodosUseCase(gateway);
    var getCompleted := new Clean.GetCompletedTodosUseCase(gateway);
    var getPending := new Clean.GetPendingTodosUseCase(gateway);
    ghost var ka, kt, kf;
    all, ka := getAll.Execute();
    completed, kt := getCompleted.Execute();
    pending, kf := getPending.Execute();
    FilterSplitsListing(gateway.storage, (t: Clean.TodoRecord) => t.completed, kt, kf, ka);
  }

  /** The same split for the DDD service, on a store whose models all
      convert. */
  method DddListingsSplit(service: DddApplication.TodoApplicationService)
    returns (all: Result<seq<DddApplication.TodoDto>>, completed: Result<seq<DddApplication.TodoDto>>,
             pending: Result<seq<DddApplication.TodoDto>>)
    requires service.repository.Valid()
    ensures all.Ok? && completed.Ok? && pending.Ok?
    ensures |completed.value| + |pending.value| == |all.value|
  {
    ghost var ka, kt, kf;
    all, ka := service.GetAllTodos();
    completed, kt := service.GetCompletedTodos();
    pending, kf := service.GetPendingTodos();
    DddPersistence.StatusPartition(service.repository.dao.storage, kt, kf, ka);
  }

  /** The same split for the hexagonal service. */
  method HxListingsSplit(service: HxApplication.TodoService)
    returns (all: seq<HxInfrastructure.TodoDto>, completed: seq<HxInfrastructure.TodoDto>, pending: seq<HxInfrastructure.TodoDto>)
    ensures |completed| + |pending| == |all|
  {
    ghost var ka, kt, kf;
    all, ka := service.GetAllTodos();
    completed, kt := service.GetCompletedTodos();
    pending, kf := service.GetIncompleteTodos();
    FilterSplitsListing(service.repository.storage, (d: HxInfrastructure.TodoDto) => d.completed, kt, kf, ka);
  }

  /** The transaction script and the clean entity refuse the same requests,
      with the same exception: title first, then description. */
  lemma ScriptAndEntityAgree(title: Nullable<string>, description: Nullable<string>)
    ensures Transcript.ContentError(title, description).Null? <==>
              Clean.ValidateTitle(title).Ok? && Clean.ValidateDescription(description).Ok?
    ensures Clean.ValidateTitle(title).Err? ==> Transcript.ContentError(title, description) == Some(Clean.ValidateTitle(title).failure)
    ensures Clean.ValidateTitle(title).Ok? && Clean.ValidateDescription(description).Err? ==>
              Transcript.ContentError(title, description) == Some(Clean.ValidateDescription(description).failure)
  {
  }
}
