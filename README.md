# Todo store, four ways

A Dafny model of the to-do list service in `ddd-vs-hexagonal`. The repository builds the same service four times, each in a different architectural style:

- **Transaction script** (`todos-transcript`): one `TodoTransactionScript` class validates its input, reads and writes a `TodoGateway`, and throws on failure.
- **Clean architecture** (`todos-clean`): the rules live in the entity `Todo` (`complete`, `uncomplete`, `updateContent`, `validateTitle`, `validateDescription`). One use-case class per operation drives a gateway.
- **Domain-driven design** (`todos-ddd`): value objects (`TodoId`, `TodoTitle`, `TodoDescription`, `TodoStatus`) check themselves on construction. The `Todo` aggregate guards the completion lifecycle. A repository converts aggregates to a flat persistence model stored by a DAO, and an application service returns DTOs.
- **Hexagonal** (`todos-hx`): a thin `Todo` entity that checks only for null. A `TodoService` talks to a repository port whose in-memory adapter stores DTOs.

Each store is a class whose map field the operations update in place. Each entity is a class whose fields the operations update. Every operation is a method or function whose contract gives:

- its error cases, in the order the source checks them;
- what it returns;
- the whole new state of the store.

Java exceptions are modelled as a `Result` whose failure names the exception class (`IllegalArgument`, `IllegalState`, `NullPointer`, `TodoNotFound`) and the reason. Java `null` is modelled as `Nullable`.

Beyond the per-operation contracts, the model proves:

- The transaction script and the DDD repository keep store invariants: every entry sits under its own id, and every entry would pass the variant's own checks.
- In the DDD variant, the aggregate and the persistence model round-trip in both directions.
- In every variant, the completed and pending listings together are exactly as long as the full listing.
- Java's `trim()` emptiness test and `isBlank()` test are characterised character by character. A lemma exhibits the characters on which they disagree. The clean and transaction-script variants use `trim()`; the DDD variant uses `isBlank()`.
- The transaction script and the clean entity refuse the same titles and descriptions with the same exception.
- Scenario methods mirror the repository's tests. They also fix behaviours in which the variants differ:
  - Completing twice fails in three variants and succeeds in the hexagonal one.
  - A hexagonal update silently makes a completed todo pending again.

Files:

- `outcomes.dfy`: `Nullable`, `Failure` and `Result`.
- `java_string.dfy`: `trim()`, `isBlank()` and `length()` in UTF-16 code units.
- `rules.dfy`: the shared limits of 200 and 1000 UTF-16 code units, and the title predicates.
- `enumeration.dfy`: unordered listings of a map's keys.
- `transcript.dfy`, `clean.dfy`: one file per variant.
- `ddd_domain.dfy`, `ddd_persistence.dfy`, `ddd_application.dfy`: the DDD variant.
- `hx_domain.dfy`, `hx_infrastructure.dfy`, `hx_application.dfy`: the hexagonal variant.
- `scenarios.dfy`: the scenarios and the cross-variant lemmas.

## Model

| member | source | states |
|---|---|---|
| JavaString.IsBlankEveryChar | ddd-vs-hexagonal/todos-ddd/src/main/java/com/jabaddon/practices/architecture/todos/ddd/domain/model/TodoTitle.java:9 | `isBlank()` holds exactly when every character is `Character.isWhitespace` |
| JavaString.Utf16Length | ddd-vs-hexagonal/todos-ddd/src/main/java/com/jabaddon/practices/architecture/todos/ddd/domain/model/TodoTitle.java:12 | `length()` counts UTF-16 code units: at least one and at most two per character |
| JavaString.Utf16LengthBmp | ddd-vs-hexagonal/todos-ddd/src/main/java/com/jabaddon/practices/architecture/todos/ddd/domain/model/TodoTitle.java:12 | text within the Basic Multilingual Plane has one code unit per character |
| JavaString.Utf16LengthSupplementary | ddd-vs-hexagonal/todos-ddd/src/main/java/com/jabaddon/practices/architecture/todos/ddd/domain/model/TodoTitle.java:12 | text of characters beyond U+FFFF has two code units per character |
| Rules.SupplementaryTitleTooLong | ddd-vs-hexagonal/todos-clean/src/main/java/com/jabaddon/practices/architecture/todos/clean/entity/Todo.java:64-66 | a title of 101 to 200 characters beyond U+FFFF exceeds 200 code units and both title rules refuse it |
| JavaString.TrimEmptyIff | ddd-vs-hexagonal/todos-transcript/src/main/java/com/jabaddon/practices/architecture/todos/transcript/TodoTransactionScript.java:16 | `s.trim().isEmpty()` holds exactly when every character is at most U+0020 |
| JavaString.TrimAndBlankDiffer | ddd-vs-hexagonal/todos-clean/src/main/java/com/jabaddon/practices/architecture/todos/clean/entity/Todo.java:61 | the trim() test and the isBlank() test disagree in both directions (U+0001, U+3000) |
| Rules.NullOrTrimsEmptyIsTrimTest | ddd-vs-hexagonal/todos-transcript/src/main/java/com/jabaddon/practices/architecture/todos/transcript/TodoTransactionScript.java:16 | the emptiness predicate the model uses is exactly `s == null \|\| s.trim().isEmpty()` |
| Rules.TitleRulesDiffer | ddd-vs-hexagonal/todos-ddd/src/main/java/com/jabaddon/practices/architecture/todos/ddd/domain/model/TodoTitle.java:9-11 | the DDD title rule and the trim() title rule each accept a title the other refuses |
| Enumeration.ListKeys | ddd-vs-hexagonal/todos-transcript/src/test/java/com/jabaddon/practices/architecture/todos/transcript/InMemoryTodoGateway.java:34-36 | visits every stored key exactly once, in an order left open |
| Enumeration.ListsSize | ddd-vs-hexagonal/todos-transcript/src/test/java/com/jabaddon/practices/architecture/todos/transcript/InMemoryTodoGateway.java:34-36 | a listing of the values has one element per stored key |
| Enumeration.FilterSplitsListing | ddd-vs-hexagonal/todos-transcript/src/test/java/com/jabaddon/practices/architecture/todos/transcript/InMemoryTodoGateway.java:39-43 | the `completed == true` and `completed == false` filters together list as many todos as findAll |
| Transcript.InMemoryTodoGateway.Insert | ddd-vs-hexagonal/todos-transcript/src/test/java/com/jabaddon/practices/architecture/todos/transcript/InMemoryTodoGateway.java:14-16 | stores the record under its id, overwriting; other keys unchanged |
| Transcript.InMemoryTodoGateway.Update | ddd-vs-hexagonal/todos-transcript/src/test/java/com/jabaddon/practices/architecture/todos/transcript/InMemoryTodoGateway.java:19-21 | stores the record under its id, overwriting; other keys unchanged |
| Transcript.InMemoryTodoGateway.Delete | ddd-vs-hexagonal/todos-transcript/src/test/java/com/jabaddon/practices/architecture/todos/transcript/InMemoryTodoGateway.java:24-26 | removes only that key; afterwards exists(id) is false |
| Transcript.InMemoryTodoGateway.FindById | ddd-vs-hexagonal/todos-transcript/src/test/java/com/jabaddon/practices/architecture/todos/transcript/InMemoryTodoGateway.java:29-31 | null exactly when the id is absent, else a todo with the stored fields |
| Transcript.InMemoryTodoGateway.Exists | ddd-vs-hexagonal/todos-transcript/src/test/java/com/jabaddon/practices/architecture/todos/transcript/InMemoryTodoGateway.java:46-48 | true exactly when a record is stored under the id |
| Transcript.InMemoryTodoGateway.FindAll | ddd-vs-hexagonal/todos-transcript/src/test/java/com/jabaddon/practices/architecture/todos/transcript/InMemoryTodoGateway.java:34-36 | every stored record, one per key |
| Transcript.InMemoryTodoGateway.FindByCompleted | ddd-vs-hexagonal/todos-transcript/src/test/java/com/jabaddon/practices/architecture/todos/transcript/InMemoryTodoGateway.java:39-43 | exactly the stored records whose flag is the argument, one per key |
| Transcript.InMemoryTodoGateway.Clear | ddd-vs-hexagonal/todos-transcript/src/test/java/com/jabaddon/practices/architecture/todos/transcript/InMemoryTodoGateway.java:50-52 | the store is empty |
| Transcript.ContentError | ddd-vs-hexagonal/todos-transcript/src/main/java/com/jabaddon/practices/architecture/todos/transcript/TodoTransactionScript.java:15-26 | null exactly when title and description pass; else the first failing check in the script's order |
| Transcript.TodoTransactionScript.constructor | ddd-vs-hexagonal/todos-transcript/src/main/java/com/jabaddon/practices/architecture/todos/transcript/TodoTransactionScript.java:11-13 | a script over an empty gateway satisfies the store invariant |
| Transcript.TodoTransactionScript.CreateTodo | ddd-vs-hexagonal/todos-transcript/src/main/java/com/jabaddon/practices/architecture/todos/transcript/TodoTransactionScript.java:15-42 | refuses exactly the inputs ContentError flags, inserting nothing; otherwise inserts one pending record, createdAt == updatedAt, title and description untrimmed; keeps the store invariant |
| Transcript.TodoTransactionScript.UpdateTodo | ddd-vs-hexagonal/todos-transcript/src/main/java/com/jabaddon/practices/architecture/todos/transcript/TodoTransactionScript.java:44-73 | id check, then not-found, then field checks, each leaving the store unchanged; on success only title, description and updatedAt change |
| Transcript.TodoTransactionScript.CompleteTodo | ddd-vs-hexagonal/todos-transcript/src/main/java/com/jabaddon/practices/architecture/todos/transcript/TodoTransactionScript.java:75-95 | blank id, unknown id, already completed are refused with the store unchanged; otherwise completed=true and updatedAt refreshed |
| Transcript.TodoTransactionScript.UncompleteTodo | ddd-vs-hexagonal/todos-transcript/src/main/java/com/jabaddon/practices/architecture/todos/transcript/TodoTransactionScript.java:97-117 | blank id, unknown id, not completed are refused with the store unchanged; otherwise completed=false and updatedAt refreshed |
| Transcript.TodoTransactionScript.DeleteTodo | ddd-vs-hexagonal/todos-transcript/src/main/java/com/jabaddon/practices/architecture/todos/transcript/TodoTransactionScript.java:119-129 | blank id and unknown id refused; otherwise removes exactly that key |
| Transcript.TodoTransactionScript.FindTodoById | ddd-vs-hexagonal/todos-transcript/src/main/java/com/jabaddon/practices/architecture/todos/transcript/TodoTransactionScript.java:131-137 | blank id refused; null exactly when the id is absent, else the stored fields |
| Transcript.TodoTransactionScript.GetAllTodos | ddd-vs-hexagonal/todos-transcript/src/main/java/com/jabaddon/practices/architecture/todos/transcript/TodoTransactionScript.java:139-141 | every stored record, one per key |
| Transcript.TodoTransactionScript.GetCompletedTodos | ddd-vs-hexagonal/todos-transcript/src/main/java/com/jabaddon/practices/architecture/todos/transcript/TodoTransactionScript.java:143-145 | exactly the completed records |
| Transcript.TodoTransactionScript.GetPendingTodos | ddd-vs-hexagonal/todos-transcript/src/main/java/com/jabaddon/practices/architecture/todos/transcript/TodoTransactionScript.java:147-149 | exactly the pending records |
| Clean.ValidateTitle | ddd-vs-hexagonal/todos-clean/src/main/java/com/jabaddon/practices/architecture/todos/clean/entity/Todo.java:60-67 | fails exactly when the title is null, empty after trim(), or over 200 code units, with the matching message |
| Clean.ValidateDescription | ddd-vs-hexagonal/todos-clean/src/main/java/com/jabaddon/practices/architecture/todos/clean/entity/Todo.java:70-74 | fails exactly when the description is present and over 1000 code units |
| Clean.Todo.constructor | ddd-vs-hexagonal/todos-clean/src/main/java/com/jabaddon/practices/architecture/todos/clean/entity/Todo.java:20-28 | stores every argument verbatim, without validation |
| Clean.Todo.Complete | ddd-vs-hexagonal/todos-clean/src/main/java/com/jabaddon/practices/architecture/todos/clean/entity/Todo.java:31-37 | refuses a completed todo and changes nothing; otherwise completed=true, updatedAt refreshed, rest unchanged |
| Clean.Todo.Uncomplete | ddd-vs-hexagonal/todos-clean/src/main/java/com/jabaddon/practices/architecture/todos/clean/entity/Todo.java:40-46 | refuses a pending todo and changes nothing; otherwise completed=false, updatedAt refreshed, rest unchanged |
| Clean.Todo.UpdateContent | ddd-vs-hexagonal/todos-clean/src/main/java/com/jabaddon/practices/architecture/todos/clean/entity/Todo.java:49-57 | validates title then description before any write; on success replaces both and refreshes updatedAt, completed unchanged |
| Clean.InMemoryTodoGateway.Save | ddd-vs-hexagonal/todos-clean/src/test/java/com/jabaddon/practices/architecture/todos/clean/gateway/InMemoryTodoGateway.java:24-27 | stores under the todo's id, overwriting, and returns the same todo; keeps every record under its own id |
| Clean.InMemoryTodoGateway.FindById | ddd-vs-hexagonal/todos-clean/src/test/java/com/jabaddon/practices/architecture/todos/clean/gateway/InMemoryTodoGateway.java:30-32 | empty exactly when the id is absent, else the stored fields |
| Clean.InMemoryTodoGateway.FindAll | ddd-vs-hexagonal/todos-clean/src/test/java/com/jabaddon/practices/architecture/todos/clean/gateway/InMemoryTodoGateway.java:35-37 | every stored todo, one per key |
| Clean.InMemoryTodoGateway.FindByCompleted | ddd-vs-hexagonal/todos-clean/src/test/java/com/jabaddon/practices/architecture/todos/clean/gateway/InMemoryTodoGateway.java:40-44 | exactly the stored todos whose flag is the argument |
| Clean.InMemoryTodoGateway.Delete | ddd-vs-hexagonal/todos-clean/src/test/java/com/jabaddon/practices/architecture/todos/clean/gateway/InMemoryTodoGateway.java:47-49 | removes only the given key; keeps every record under its own id |
| Clean.InMemoryTodoGateway.ExistsById | ddd-vs-hexagonal/todos-clean/src/test/java/com/jabaddon/practices/architecture/todos/clean/gateway/InMemoryTodoGateway.java:52-54 | true exactly when a record is stored under the id |
| Clean.InMemoryTodoGateway.Clear | ddd-vs-hexagonal/todos-clean/src/test/java/com/jabaddon/practices/architecture/todos/clean/gateway/InMemoryTodoGateway.java:56-58 | the store is empty |
| Clean.CreateTodoUseCase.Execute | ddd-vs-hexagonal/todos-clean/src/main/java/com/jabaddon/practices/architecture/todos/clean/usecase/create/CreateTodoUseCase.java:24-52 | on any keyed store, invalid title or description: the entity's exception, nothing saved; otherwise exactly one new pending entry under the generated id, fields as given, response copies it |
| Clean.UpdateTodoUseCase.Execute | ddd-vs-hexagonal/todos-clean/src/main/java/com/jabaddon/practices/architecture/todos/clean/usecase/update/UpdateTodoUseCase.java:15-31 | on any keyed store, unknown id and validation failures leave the gateway unchanged; on success title and description replaced, id, completed and createdAt kept, re-saved under the same id |
| Clean.CompleteTodoUseCase.Execute | ddd-vs-hexagonal/todos-clean/src/main/java/com/jabaddon/practices/architecture/todos/clean/usecase/complete/CompleteTodoUseCase.java:15-31 | on any keyed store, unknown id or already completed refused; otherwise completed=true, other fields but updatedAt kept |
| Clean.UncompleteTodoUseCase.Execute | ddd-vs-hexagonal/todos-clean/src/main/java/com/jabaddon/practices/architecture/todos/clean/usecase/uncomplete/UncompleteTodoUseCase.java:15-31 | on any keyed store, unknown id or pending refused; otherwise completed=false, other fields but updatedAt kept |
| Clean.DeleteTodoUseCase.Execute | ddd-vs-hexagonal/todos-clean/src/main/java/com/jabaddon/practices/architecture/todos/clean/usecase/delete/DeleteTodoUseCase.java:14-20 | on any keyed store, unknown id refused with nothing removed; otherwise removes only that id |
| Clean.FindTodoByIdUseCase.Execute | ddd-vs-hexagonal/todos-clean/src/main/java/com/jabaddon/practices/architecture/todos/clean/usecase/findbyid/FindTodoByIdUseCase.java:17-31 | present exactly when the gateway holds the id, carrying that entity's six fields |
| Clean.GetAllTodosUseCase.Execute | ddd-vs-hexagonal/todos-clean/src/main/java/com/jabaddon/practices/architecture/todos/clean/usecase/getall/GetAllTodosUseCase.java:18-35 | one item per stored todo, each copying its fields |
| Clean.GetCompletedTodosUseCase.Execute | ddd-vs-hexagonal/todos-clean/src/main/java/com/jabaddon/practices/architecture/todos/clean/usecase/getcompleted/GetCompletedTodosUseCase.java:18-35 | exactly the completed todos, each copying its fields |
| Clean.GetPendingTodosUseCase.Execute | ddd-vs-hexagonal/todos-clean/src/main/java/com/jabaddon/practices/architecture/todos/clean/usecase/getpending/GetPendingTodosUseCase.java:18-35 | exactly the pending todos, each copying its fields |
| DddDomain.NewTodoId | ddd-vs-hexagonal/todos-ddd/src/main/java/com/jabaddon/practices/architecture/todos/ddd/domain/model/TodoId.java:8-13 | null: NullPointerException; blank: IllegalArgumentException; otherwise an id whose value is the argument |
| DddDomain.NewTitle | ddd-vs-hexagonal/todos-ddd/src/main/java/com/jabaddon/practices/architecture/todos/ddd/domain/model/TodoTitle.java:7-15 | null, then blank, then over 200 code units refused in that order; accepted exactly when non-null, non-blank and at most 200 |
| DddDomain.NewDescription | ddd-vs-hexagonal/todos-ddd/src/main/java/com/jabaddon/practices/architecture/todos/ddd/domain/model/TodoDescription.java:5-9 | refused exactly when present and over 1000 code units; null accepted |
| DddDomain.EmptyDescription | ddd-vs-hexagonal/todos-ddd/src/main/java/com/jabaddon/practices/architecture/todos/ddd/domain/model/TodoDescription.java:11-13 | a description whose value is null |
| DddDomain.DescriptionFor | ddd-vs-hexagonal/todos-ddd/src/main/java/com/jabaddon/practices/architecture/todos/ddd/application/TodoApplicationService.java:19-23 | the service's description choice: empty() for null, the checking constructor otherwise |
| DddDomain.StatusValueOf | ddd-vs-hexagonal/todos-ddd/src/main/java/com/jabaddon/practices/architecture/todos/ddd/domain/repository/dao/TodoPersistenceModel.java:32 | `valueOf`: the constant with that name, else IllegalArgumentException |
| DddDomain.TodoStatus.IsCompleted | ddd-vs-hexagonal/todos-ddd/src/main/java/com/jabaddon/practices/architecture/todos/ddd/domain/model/TodoStatus.java:7-9 | holds exactly for the status named COMPLETED, and exactly when isPending does not |
| DddDomain.TodoStatus.IsPending | ddd-vs-hexagonal/todos-ddd/src/main/java/com/jabaddon/practices/architecture/todos/ddd/domain/model/TodoStatus.java:11-13 | holds exactly for the status named PENDING |
| DddDomain.StatusNameRoundTrip | ddd-vs-hexagonal/todos-ddd/src/main/java/com/jabaddon/practices/architecture/todos/ddd/domain/model/TodoStatus.java:3-5 | `valueOf(s.name()) == s` for both constants |
| DddDomain.Todo.Create | ddd-vs-hexagonal/todos-ddd/src/main/java/com/jabaddon/practices/architecture/todos/ddd/domain/model/Todo.java:25-35 | PENDING, the generated id, createdAt == updatedAt |
| DddDomain.Todo.Reconstitute | ddd-vs-hexagonal/todos-ddd/src/main/java/com/jabaddon/practices/architecture/todos/ddd/domain/model/Todo.java:37-40 | holds all six fields exactly as passed |
| DddDomain.Todo.UpdateTitle | ddd-vs-hexagonal/todos-ddd/src/main/java/com/jabaddon/practices/architecture/todos/ddd/domain/model/Todo.java:42-45 | null refused with nothing changed; otherwise title replaced, updatedAt refreshed, status kept |
| DddDomain.Todo.UpdateDescription | ddd-vs-hexagonal/todos-ddd/src/main/java/com/jabaddon/practices/architecture/todos/ddd/domain/model/Todo.java:47-50 | description replaced unconditionally, updatedAt refreshed |
| DddDomain.Todo.MarkAsCompleted | ddd-vs-hexagonal/todos-ddd/src/main/java/com/jabaddon/practices/architecture/todos/ddd/domain/model/Todo.java:52-58 | COMPLETED refused with nothing changed; otherwise status COMPLETED, updatedAt refreshed |
| DddDomain.Todo.MarkAsPending | ddd-vs-hexagonal/todos-ddd/src/main/java/com/jabaddon/practices/architecture/todos/ddd/domain/model/Todo.java:60-66 | PENDING refused with nothing changed; otherwise status PENDING, updatedAt refreshed |
| DddDomain.Todo.Equals | ddd-vs-hexagonal/todos-ddd/src/main/java/com/jabaddon/practices/architecture/todos/ddd/domain/model/Todo.java:96-102 | equal exactly when the other is non-null with the same id |
| DddDomain.EqualsIsIdentityById | ddd-vs-hexagonal/todos-ddd/src/main/java/com/jabaddon/practices/architecture/todos/ddd/domain/model/Todo.java:96-102 | equality is reflexive, symmetric, transitive and depends on the id alone |
| DddPersistence.FromAggregate | ddd-vs-hexagonal/todos-ddd/src/main/java/com/jabaddon/practices/architecture/todos/ddd/domain/repository/dao/TodoPersistenceModel.java:16-25 | the model it builds always converts back, and its status string is COMPLETED exactly for a completed aggregate |
| DddPersistence.ToAggregateState | ddd-vs-hexagonal/todos-ddd/src/main/java/com/jabaddon/practices/architecture/todos/ddd/domain/repository/dao/TodoPersistenceModel.java:27-36 | re-validates: succeeds exactly when id non-blank, title valid, description within bound and status a constant's name; a blank id fails first |
| DddPersistence.AggregateRoundTrip | ddd-vs-hexagonal/todos-ddd/src/main/java/com/jabaddon/practices/architecture/todos/ddd/domain/repository/dao/TodoPersistenceModel.java:16-36 | `toAggregate(fromAggregate(t))` has the same six fields as t, absent description included |
| DddPersistence.ModelRoundTrip | ddd-vs-hexagonal/todos-ddd/src/main/java/com/jabaddon/practices/architecture/todos/ddd/domain/repository/dao/TodoPersistenceModel.java:16-36 | for a model that converts, `fromAggregate(toAggregate(m)) == m` |
| DddPersistence.ToAggregate | ddd-vs-hexagonal/todos-ddd/src/main/java/com/jabaddon/practices/architecture/todos/ddd/domain/repository/dao/TodoPersistenceModel.java:27-36 | a fresh aggregate holding the converted state, or the conversion's exception |
| DddPersistence.ToAggregates | ddd-vs-hexagonal/todos-ddd/src/main/java/com/jabaddon/practices/architecture/todos/ddd/domain/repository/TodoRepository.java:29-33 | the stream of conversions: all converted in order, or the failure of the first model that does not convert |
| DddPersistence.StatusPartition | ddd-vs-hexagonal/todos-ddd/src/test/java/com/jabaddon/practices/architecture/todos/ddd/infrastructure/InMemoryTodoDao.java:30-34 | on a store of valid statuses, the COMPLETED and PENDING listings together are as long as findAll |
| DddPersistence.InMemoryTodoDao.Save | ddd-vs-hexagonal/todos-ddd/src/test/java/com/jabaddon/practices/architecture/todos/ddd/infrastructure/InMemoryTodoDao.java:15-17 | stores under model.id(), overwriting; other keys unchanged |
| DddPersistence.InMemoryTodoDao.FindById | ddd-vs-hexagonal/todos-ddd/src/test/java/com/jabaddon/practices/architecture/todos/ddd/infrastructure/InMemoryTodoDao.java:20-22 | empty exactly when the id is absent |
| DddPersistence.InMemoryTodoDao.FindAll | ddd-vs-hexagonal/todos-ddd/src/test/java/com/jabaddon/practices/architecture/todos/ddd/infrastructure/InMemoryTodoDao.java:25-27 | every stored model, one per key |
| DddPersistence.InMemoryTodoDao.FindByStatus | ddd-vs-hexagonal/todos-ddd/src/test/java/com/jabaddon/practices/architecture/todos/ddd/infrastructure/InMemoryTodoDao.java:30-34 | exactly the stored models whose status string equals the argument |
| DddPersistence.InMemoryTodoDao.Delete | ddd-vs-hexagonal/todos-ddd/src/test/java/com/jabaddon/practices/architecture/todos/ddd/infrastructure/InMemoryTodoDao.java:37-39 | removes only the given id; afterwards findById is empty |
| DddPersistence.InMemoryTodoDao.ExistsById | ddd-vs-hexagonal/todos-ddd/src/test/java/com/jabaddon/practices/architecture/todos/ddd/infrastructure/InMemoryTodoDao.java:42-44 | true exactly when findById finds a model |
| DddPersistence.InMemoryTodoDao.Clear | ddd-vs-hexagonal/todos-ddd/src/test/java/com/jabaddon/practices/architecture/todos/ddd/infrastructure/InMemoryTodoDao.java:46-48 | the store is empty |
| DddPersistence.TodoRepository.Save | ddd-vs-hexagonal/todos-ddd/src/main/java/com/jabaddon/practices/architecture/todos/ddd/domain/repository/TodoRepository.java:19-22 | stores fromAggregate(todo) under the id value, overwriting; keeps the store invariant |
| DddPersistence.TodoRepository.FindById | ddd-vs-hexagonal/todos-ddd/src/main/java/com/jabaddon/practices/architecture/todos/ddd/domain/repository/TodoRepository.java:24-27 | empty for an absent id; else a fresh aggregate equal to the stored model's, or the conversion's exception |
| DddPersistence.TodoRepository.FindAll | ddd-vs-hexagonal/todos-ddd/src/main/java/com/jabaddon/practices/architecture/todos/ddd/domain/repository/TodoRepository.java:29-33 | every stored model converted, one per key; never fails on a valid store |
| DddPersistence.TodoRepository.FindByStatus | ddd-vs-hexagonal/todos-ddd/src/main/java/com/jabaddon/practices/architecture/todos/ddd/domain/repository/TodoRepository.java:35-39 | exactly the aggregates whose status is the argument |
| DddPersistence.TodoRepository.Delete | ddd-vs-hexagonal/todos-ddd/src/main/java/com/jabaddon/practices/architecture/todos/ddd/domain/repository/TodoRepository.java:41-43 | removes only the given id; keeps the store invariant |
| DddPersistence.TodoRepository.ExistsById | ddd-vs-hexagonal/todos-ddd/src/main/java/com/jabaddon/practices/architecture/todos/ddd/domain/repository/TodoRepository.java:45-47 | true exactly when a model is stored under the id value |
| DddApplication.ToDto | ddd-vs-hexagonal/todos-ddd/src/main/java/com/jabaddon/practices/architecture/todos/ddd/application/TodoApplicationService.java:90-99 | the DTO's status string reads back through valueOf as the aggregate's status; COMPLETED exactly for a completed one |
| DddApplication.DtoMatchesStoredModel | ddd-vs-hexagonal/todos-ddd/src/main/java/com/jabaddon/practices/architecture/todos/ddd/application/TodoApplicationService.java:90-99 | the DTO of a read aggregate carries exactly the stored model's values |
| DddApplication.TodoApplicationService.CreateTodo | ddd-vs-hexagonal/todos-ddd/src/main/java/com/jabaddon/practices/architecture/todos/ddd/application/TodoApplicationService.java:19-26 | null title: NullPointerException; blank or long title, long description: IllegalArgumentException, nothing saved; else a PENDING DTO with the given fields and one new stored model |
| DddApplication.TodoApplicationService.UpdateTodo | ddd-vs-hexagonal/todos-ddd/src/main/java/com/jabaddon/practices/architecture/todos/ddd/application/TodoApplicationService.java:28-37 | bad id, absent id (TodoNotFoundException), bad title or description each leave the store unchanged; else title and description replaced, status and createdAt kept |
| DddApplication.TodoApplicationService.CompleteTodo | ddd-vs-hexagonal/todos-ddd/src/main/java/com/jabaddon/practices/architecture/todos/ddd/application/TodoApplicationService.java:39-47 | bad id, absent id, already COMPLETED refused; otherwise the stored status becomes COMPLETED |
| DddApplication.TodoApplicationService.UncompleteTodo | ddd-vs-hexagonal/todos-ddd/src/main/java/com/jabaddon/practices/architecture/todos/ddd/application/TodoApplicationService.java:49-57 | bad id, absent id, already PENDING refused; otherwise the stored status becomes PENDING |
| DddApplication.TodoApplicationService.DeleteTodo | ddd-vs-hexagonal/todos-ddd/src/main/java/com/jabaddon/practices/architecture/todos/ddd/application/TodoApplicationService.java:59-65 | bad id or absent id refused; otherwise removes exactly that id |
| DddApplication.TodoApplicationService.FindTodoById | ddd-vs-hexagonal/todos-ddd/src/main/java/com/jabaddon/practices/architecture/todos/ddd/application/TodoApplicationService.java:67-70 | empty for an absent id, else the stored todo's DTO |
| DddApplication.TodoApplicationService.GetAllTodos | ddd-vs-hexagonal/todos-ddd/src/main/java/com/jabaddon/practices/architecture/todos/ddd/application/TodoApplicationService.java:72-76 | one DTO per stored todo |
| DddApplication.TodoApplicationService.GetCompletedTodos | ddd-vs-hexagonal/todos-ddd/src/main/java/com/jabaddon/practices/architecture/todos/ddd/application/TodoApplicationService.java:78-82 | exactly the COMPLETED todos' DTOs |
| DddApplication.TodoApplicationService.GetPendingTodos | ddd-vs-hexagonal/todos-ddd/src/main/java/com/jabaddon/practices/architecture/todos/ddd/application/TodoApplicationService.java:84-88 | exactly the PENDING todos' DTOs |
| HxDomain.Todo.constructor | ddd-vs-hexagonal/todos-hx/src/main/java/com/jabaddon/practices/architecture/todos/hx/domain/Todo.java:14-21 | completed=false; createdAt and updatedAt are two separate clock readings; no blank or length check |
| HxDomain.NewTodo | ddd-vs-hexagonal/todos-hx/src/main/java/com/jabaddon/practices/architecture/todos/hx/domain/Todo.java:14-21 | a null id or a null title: NullPointerException; any other strings accepted |
| HxDomain.Todo.UpdateTitle | ddd-vs-hexagonal/todos-hx/src/main/java/com/jabaddon/practices/architecture/todos/hx/domain/Todo.java:23-26 | null refused with nothing changed; otherwise title replaced and updatedAt refreshed |
| HxDomain.Todo.UpdateDescription | ddd-vs-hexagonal/todos-hx/src/main/java/com/jabaddon/practices/architecture/todos/hx/domain/Todo.java:28-31 | any description accepted, null included; updatedAt refreshed |
| HxDomain.Todo.MarkAsCompleted | ddd-vs-hexagonal/todos-hx/src/main/java/com/jabaddon/practices/architecture/todos/hx/domain/Todo.java:33-36 | sets the flag whatever it was; never fails |
| HxDomain.Todo.MarkAsIncomplete | ddd-vs-hexagonal/todos-hx/src/main/java/com/jabaddon/practices/architecture/todos/hx/domain/Todo.java:38-41 | clears the flag whatever it was; never fails |
| HxDomain.Todo.Equals | ddd-vs-hexagonal/todos-hx/src/main/java/com/jabaddon/practices/architecture/todos/hx/domain/Todo.java:68-74 | equal exactly when the other is non-null with the same id |
| HxInfrastructure.InMemoryTodoRepository.Save | ddd-vs-hexagonal/todos-hx/src/test/java/com/jabaddon/practices/architecture/todos/hx/infrastructure/InMemoryTodoRepository.java:15-18 | stores the DTO under its id, overwriting, and returns the same DTO |
| HxInfrastructure.InMemoryTodoRepository.FindById | ddd-vs-hexagonal/todos-hx/src/test/java/com/jabaddon/practices/architecture/todos/hx/infrastructure/InMemoryTodoRepository.java:21-23 | empty exactly when the id is absent |
| HxInfrastructure.InMemoryTodoRepository.FindAll | ddd-vs-hexagonal/todos-hx/src/test/java/com/jabaddon/practices/architecture/todos/hx/infrastructure/InMemoryTodoRepository.java:26-28 | every stored DTO, one per key |
| HxInfrastructure.InMemoryTodoRepository.FindByCompleted | ddd-vs-hexagonal/todos-hx/src/test/java/com/jabaddon/practices/architecture/todos/hx/infrastructure/InMemoryTodoRepository.java:31-35 | exactly the stored DTOs whose flag is the argument |
| HxInfrastructure.InMemoryTodoRepository.DeleteById | ddd-vs-hexagonal/todos-hx/src/test/java/com/jabaddon/practices/architecture/todos/hx/infrastructure/InMemoryTodoRepository.java:38-40 | removes only the given key |
| HxInfrastructure.InMemoryTodoRepository.ExistsById | ddd-vs-hexagonal/todos-hx/src/test/java/com/jabaddon/practices/architecture/todos/hx/infrastructure/InMemoryTodoRepository.java:43-45 | true exactly when a DTO is stored under the id |
| HxInfrastructure.InMemoryTodoRepository.Clear | ddd-vs-hexagonal/todos-hx/src/test/java/com/jabaddon/practices/architecture/todos/hx/infrastructure/InMemoryTodoRepository.java:47-49 | the store is empty |
| HxApplication.ToDto | ddd-vs-hexagonal/todos-hx/src/main/java/com/jabaddon/practices/architecture/todos/hx/application/service/TodoService.java:99-108 | the DTO carries the entity's id, so it is saved under that id, and the entity's other five fields |
| HxApplication.ToDomain | ddd-vs-hexagonal/todos-hx/src/main/java/com/jabaddon/practices/architecture/todos/hx/application/service/TodoService.java:110-112 | rebuilds from id, title and description only: converting back gives the DTO with completed=false and fresh timestamps |
| HxApplication.TodoService.CreateTodo | ddd-vs-hexagonal/todos-hx/src/main/java/com/jabaddon/practices/architecture/todos/hx/application/service/TodoService.java:30-35 | null title: NullPointerException, nothing saved; any other title: a completed=false DTO with the given fields, saved under the generated id |
| HxApplication.TodoService.UpdateTodo | ddd-vs-hexagonal/todos-hx/src/main/java/com/jabaddon/practices/architecture/todos/hx/application/service/TodoService.java:38-47 | absent id: TodoNotFoundException, store unchanged; on success title and description replaced and completed=false, createdAt reset, whatever was stored |
| HxApplication.TodoService.CompleteTodo | ddd-vs-hexagonal/todos-hx/src/main/java/com/jabaddon/practices/architecture/todos/hx/application/service/TodoService.java:50-58 | absent id refused, store unchanged; any stored todo, completed or not, is stored with completed=true and createdAt reset |
| HxApplication.TodoService.UncompleteTodo | ddd-vs-hexagonal/todos-hx/src/main/java/com/jabaddon/practices/architecture/todos/hx/application/service/TodoService.java:61-69 | absent id refused; any stored todo is stored with completed=false and createdAt reset |
| HxApplication.TodoService.DeleteTodo | ddd-vs-hexagonal/todos-hx/src/main/java/com/jabaddon/practices/architecture/todos/hx/application/service/TodoService.java:72-77 | absent id: TodoNotFoundException; otherwise removes exactly that id |
| HxApplication.TodoService.FindTodoById | ddd-vs-hexagonal/todos-hx/src/main/java/com/jabaddon/practices/architecture/todos/hx/application/service/TodoService.java:80-82 | empty exactly when the id is absent |
| HxApplication.TodoService.GetAllTodos | ddd-vs-hexagonal/todos-hx/src/main/java/com/jabaddon/practices/architecture/todos/hx/application/service/TodoService.java:85-87 | every stored DTO, one per key |
| HxApplication.TodoService.GetCompletedTodos | ddd-vs-hexagonal/todos-hx/src/main/java/com/jabaddon/practices/architecture/todos/hx/application/service/TodoService.java:90-92 | exactly the stored DTOs with completed=true |
| HxApplication.TodoService.GetIncompleteTodos | ddd-vs-hexagonal/todos-hx/src/main/java/com/jabaddon/practices/architecture/todos/hx/application/service/TodoService.java:95-97 | exactly the stored DTOs with completed=false |
| Scenarios.ScriptCompleteTwice | ddd-vs-hexagonal/todos-transcript/src/test/java/com/jabaddon/practices/architecture/todos/transcript/TodoTransactionScriptTest.java:98-104 | for any valid title and description, a second completeTodo throws IllegalStateException |
| Scenarios.CleanCompleteTwice | ddd-vs-hexagonal/todos-clean/src/test/java/com/jabaddon/practices/architecture/todos/clean/usecase/TodoUseCasesTest.java:168-176 | for any valid title and description, a second complete throws IllegalStateException |
| Scenarios.DddCompleteTwice | ddd-vs-hexagonal/todos-ddd/src/main/java/com/jabaddon/practices/architecture/todos/ddd/domain/model/Todo.java:52-58 | for any valid title and description, a second completeTodo throws IllegalStateException |
| Scenarios.HxCompleteTwice | ddd-vs-hexagonal/todos-hx/src/main/java/com/jabaddon/practices/architecture/todos/hx/application/service/TodoService.java:50-58 | a second completeTodo succeeds and stores completed=true again |
| Scenarios.ScriptUncompletePending | ddd-vs-hexagonal/todos-transcript/src/test/java/com/jabaddon/practices/architecture/todos/transcript/TodoTransactionScriptTest.java:117-122 | for any valid title and description, uncompleting a pending todo throws IllegalStateException |
| Scenarios.CleanUncompletePending | ddd-vs-hexagonal/todos-clean/src/test/java/com/jabaddon/practices/architecture/todos/clean/usecase/TodoUseCasesTest.java:190-197 | for any valid title and description, uncompleting a pending todo throws IllegalStateException |
| Scenarios.DddUncompletePending | ddd-vs-hexagonal/todos-ddd/src/main/java/com/jabaddon/practices/architecture/todos/ddd/domain/model/Todo.java:60-66 | for any valid title and description, uncompleting a pending todo throws IllegalStateException |
| Scenarios.HxUncompletePending | ddd-vs-hexagonal/todos-hx/src/main/java/com/jabaddon/practices/architecture/todos/hx/application/service/TodoService.java:61-69 | uncompleting a pending todo succeeds |
| Scenarios.HxUpdateForgetsCompletion | ddd-vs-hexagonal/todos-hx/src/main/java/com/jabaddon/practices/architecture/todos/hx/application/service/TodoService.java:110-112 | updating a completed todo stores it pending, with the rebuilt createdAt |
| Scenarios.CompletedAndPending | ddd-vs-hexagonal/todos-clean/src/test/java/com/jabaddon/practices/architecture/todos/clean/usecase/TodoUseCasesTest.java:228-246 | for any valid title and description, with todos 1 and 3 of three completed: two completed, one pending, and it is todo 2 |
| Scenarios.DeleteThenFind | ddd-vs-hexagonal/todos-transcript/src/test/java/com/jabaddon/practices/architecture/todos/transcript/TodoTransactionScriptTest.java:125-138 | for any valid title and description, after a delete the lookup finds nothing and a second delete is refused |
| Scenarios.DddSaveThenFind | ddd-vs-hexagonal/todos-ddd/src/main/java/com/jabaddon/practices/architecture/todos/ddd/domain/repository/TodoRepository.java:19-27 | save then findById gives a different object with the same six fields |
| Scenarios.TranscriptListingsSplit | ddd-vs-hexagonal/todos-transcript/src/main/java/com/jabaddon/practices/architecture/todos/transcript/TodoTransactionScript.java:139-149 | completed and pending listings together are as long as the full listing |
| Scenarios.CleanListingsSplit | ddd-vs-hexagonal/todos-clean/src/test/java/com/jabaddon/practices/architecture/todos/clean/gateway/InMemoryTodoGateway.java:35-44 | completed and pending listings together are as long as the full listing |
| Scenarios.DddListingsSplit | ddd-vs-hexagonal/todos-ddd/src/main/java/com/jabaddon/practices/architecture/todos/ddd/application/TodoApplicationService.java:72-88 | on a valid store all three listings succeed and the two filtered ones add up to the full one |
| Scenarios.HxListingsSplit | ddd-vs-hexagonal/todos-hx/src/main/java/com/jabaddon/practices/architecture/todos/hx/application/service/TodoService.java:85-97 | completed and incomplete listings together are as long as the full listing |
| Scenarios.ScriptAndEntityAgree | ddd-vs-hexagonal/todos-clean/src/main/java/com/jabaddon/practices/architecture/todos/clean/entity/Todo.java:60-74 | the script and the clean entity refuse the same title and description with the same exception, title first |

## Left out

- Clock and UUID: `LocalDateTime.now()` and `UUID.randomUUID()` are parameters. Operations take `now` and `newId`, and creation requires a fresh `newId`.
  - The DDD aggregate reads the clock once on creation and uses that reading for both timestamps, as `DddDomain.Todo.Create` does with its one `now`.
  - The hexagonal constructor reads the clock twice. `CreateTodo` and `ToDomain` take both readings, and the update operations take `rebuiltAt` and `now`.
- Timestamps are natural numbers, not `LocalDateTime` values.
- Concurrency: the `ConcurrentHashMap` stores are plain maps, and every operation is one atomic step.
- Aliasing: stores hold values.
  - The clean gateway and the transcript gateway store a copy of the entity's fields, and `findById` returns a fresh object. The Java maps keep and return the very object that was saved.
  - Because every service re-saves the object it changed, the stored values are the same. A caller that mutates a found entity without saving it is not modelled.
- List order: `findAll` and the filters iterate a hash map's values, whose order Java does not fix. The model returns the entries in an unspecified order. A ghost key list says which key each element came from.
- Listing results: the transaction-script and clean listings return records. The DDD repository returns aggregate states rather than new aggregate objects.
- Length bounds: a Dafny `char` is a Unicode scalar value, while Java's `length()` counts UTF-16 code units. The bounds are stated with `JavaString.Utf16Length`, which counts two units for a character beyond U+FFFF, so they agree with Java's. Nothing is normalised or case-folded.
- Transcript.TodoTransactionScript.constructor: requires an empty gateway so that the store invariant holds from the start. The Java constructor accepts any gateway.
- DddApplication.TodoApplicationService: every mutator requires the repository invariant (each model under its own id and convertible back). That invariant always holds for a store written only through the service. Without it, the Java code could throw while re-reading a corrupt model.
- DddPersistence.TodoPersistenceModel: id, title and status are non-null strings. A null in those fields can only come from code outside the repository.
- Clean use cases (`Clean.CreateTodoUseCase.Execute` and the other four mutating `Execute` methods): require only that every stored record sits under its own id. The gateway keeps this by itself: `save` stores each entity under its id, and ids never change. Any title and description may be stored. When every stored record passes the entity rules, they still do afterwards.
- Clean.CreateTodoUseCase.Execute: the Java use case builds the entity and then validates. Building has no observable effect, so the model validates first; the outcome is the same.
- DddDomain.Todo.UpdateDescription: takes a `TodoDescription` value, never a null reference. Java's `updateDescription` would store a null reference, and a later `getDescription().value()` would then throw `NullPointerException`. No caller in the repository passes null: the service always passes `empty()` or a new description.
- HxInfrastructure.TodoDto: id and title are non-null strings. The Java record admits null in both, and `toDomain` would then throw `NullPointerException` from the entity constructor's `requireNonNull`. Every DTO the service saves comes from an entity whose id and title were checked non-null, so the repository never holds such a DTO unless other code writes it.
- Null ids:
  - In the clean and hexagonal variants, a null id fails inside the map lookup with `NullPointerException`. The model returns `NullPointer` before the lookup.
  - In the transaction script, null and blank ids are both refused by the same check.
- The transaction script's `TodoData` JavaBean is modelled only as far as the script uses it: six fields set through its setters.
- Not modelled:
  - the port interfaces;
  - the request, response and DTO records beyond their fields;
  - `toString` and `hashCode`;
  - Spring wiring;
  - the JUnit tests themselves, which appear as scenario methods.
- `TodoId.generate()` is the fresh `newId` parameter. Its randomness is not modelled.
