/** The DDD variant's domain model: value objects that check their bounds on
    construction, the status enum, and the Todo aggregate that guards the
    completion lifecycle. */
module DddDomain {
  import opened Outcomes
  import opened JavaString
  import opened Rules

  /** A TodoId: a string that is not blank. */
  type TodoId = s: string | !IsBlank(s) witness ['x']

  /** A TodoTitle: not blank and at most 200 UTF-16 code units. */
  type TodoTitle = s: string | !IsBlank(s) && Utf16Length(s) <= MaxTitleLength witness ['x']

  /** A TodoDescription: absent, or at most 1000 UTF-16 code units. */
  type TodoDescription = d: Nullable<string> | DescriptionOk(d) witness Null

  /** The TodoId record constructor: null is refused with a
      NullPointerException, a blank string with IllegalArgumentException. */
  function NewTodoId(value: Nullable<string>): (r: Result<TodoId>)
    ensures value.Null? ==> r == Err(NullPointer)
    ensures value.Some? && IsBlank(value.value) ==> r == Err(IllegalArgument(BlankId))
    ensures r.Ok? <==> value.Some? && !IsBlank(value.value)
    ensures r.Ok? ==> r.value == value.value
  {
    if value.Null? then Err(NullPointer)
    else if IsBlank(value.value) then Err(IllegalArgument(BlankId))
    else Ok(value.value)
  }

  /** The TodoTitle record constructor: null, then blank, then over 200
      characters are refused, in that order. */
  function NewTitle(value: Nullable<string>): (r: Result<TodoTitle>)
    ensures value.Null? ==> r == Err(NullPointer)
    ensures value.Some? && IsBlank(value.value) ==> r == Err(IllegalArgument(BlankTitle))
    ensures value.Some? && !IsBlank(value.value) && Utf16Length(value.value) > MaxTitleLength ==> r == Err(IllegalArgument(TitleTooLong))
    ensures r.Ok? <==> BlankTitleOk(value)
    ensures r.Ok? ==> r.value == value.value
  {
    if value.Null? then Err(NullPointer)
    else if IsBlank(value.value) then Err(IllegalArgument(BlankTitle))
    else if Utf16Length(value.value) > MaxTitleLength then Err(IllegalArgument(TitleTooLong))
    else Ok(value.value)
  }

  /** The TodoDescription record constructor: a present value over 1000
      characters is refused; null is accepted. */
  function NewDescription(value: Nullable<string>): (r: Result<TodoDescription>)
    ensures r.Ok? <==> DescriptionOk(value)
    ensures r.Err? ==> r == Err(IllegalArgument(DescriptionTooLong))
    ensures r.Ok? ==> r.value == value
  {
    if value.Some? && Utf16Length(value.value) > MaxDescriptionLength then Err(IllegalArgument(DescriptionTooLong))
    else Ok(value)
  }

  /** `TodoDescription.empty()`: a description whose value is null. */
  function EmptyDescription(): (r: TodoDescription)
    ensures r.Null?
  {
    Null
  }

  /** What the application service builds from a request's description:
      `empty()` for null, the record constructor otherwise. */
  function DescriptionFor(value: Nullable<string>): (r: Result<TodoDescription>)
    ensures r.Ok? <==> DescriptionOk(value)
    ensures r.Err? ==> r == Err(IllegalArgument(DescriptionTooLong))
    ensures r.Ok? ==> r.value == value
  {
    if value.Some? then NewDescription(value) else Ok(EmptyDescription())
  }

  /** The status enum. */
  datatype TodoStatus = PENDING | COMPLETED {

    /** `isCompleted`: the status named "COMPLETED", and exactly the
        statuses that are not pending. */
    predicate IsCompleted(): (r: bool)
      ensures r <==> Name() == "COMPLETED"
      ensures r <==> !IsPending()
    {
      assert "COMPLETED"[0] != "PENDING"[0];
      this == COMPLETED
    }

    /** `isPending`: the status named "PENDING". */
    predicate IsPending(): (r: bool)
      ensures r <==> Name() == "PENDING"
    {
      assert "COMPLETED"[0] != "PENDING"[0];
      this == PENDING
    }

    /** `Enum.name()`. */
    function Name(): string {
      match this
      case PENDING => "PENDING"
      case COMPLETED => "COMPLETED"
    }
  }

  /** `TodoStatus.valueOf`: the constant with that name, or
      IllegalArgumentException for any other string. */
  function StatusValueOf(name: string): (r: Result<TodoStatus>)
    ensures r.Ok? ==> r.value.Name() == name
    ensures r.Err? ==> r == Err(IllegalArgument(UnknownStatus))
  {
    if name == "PENDING" then Ok(PENDING)
    else if name == "COMPLETED" then Ok(COMPLETED)
    else Err(IllegalArgument(UnknownStatus))
  }

  /** `valueOf(s.name()) == s`: the name of a status reads back as that
      status, and distinct statuses have distinct names. */
  lemma StatusNameRoundTrip(s: TodoStatus)
    ensures StatusValueOf(s.Name()) == Ok(s)
  {
    match s
    case PENDING =>
    case COMPLETED =>
      assert "COMPLETED" != "PENDING" by {
        assert "COMPLETED"[0] != "PENDING"[0];
      }
  }

  /** The six fields of an aggregate, as one value. */
  datatype TodoState = TodoState(
    id: TodoId,
    title: TodoTitle,
    description: TodoDescription,
    status: TodoStatus,
    createdAt: nat,
    updatedAt: nat)

  /** The aggregate root. Its id and createdAt never change; its title,
      description and status change only through the methods below. */
  class Todo {
    const id: TodoId
    var title: TodoTitle
    var description: TodoDescription
    var status: TodoStatus
    const createdAt: nat
    var updatedAt: nat

    function State(): TodoState
      reads this
    {
      TodoState(id, title, description, status, createdAt, updatedAt)
    }

    /** `Todo.create`: a pending todo under `newId` (the generated id),
        stamped `now` twice. */
    constructor Create(title: TodoTitle, description: TodoDescription, newId: TodoId, now: nat)
      ensures State() == TodoState(newId, title, description, PENDING, now, now)
    {
      this.id, this.title, this.description := newId, title, description;
      this.status, this.createdAt, this.updatedAt := PENDING, now, now;
    }

    /** `Todo.reconstitute`: an aggregate holding exactly the given fields. */
    constructor Reconstitute(id: TodoId, title: TodoTitle, description: TodoDescription, status: TodoStatus, createdAt: nat, updatedAt: nat)
      ensures State() == TodoState(id, title, description, status, createdAt, updatedAt)
    {
      this.id, this.title, this.description := id, title, description;
      this.status, this.createdAt, this.updatedAt := status, createdAt, updatedAt;
    }

    /** Replaces the title and stamps `now`; a null title is refused by
        `requireNonNull` before anything changes. */
    method UpdateTitle(newTitle: Nullable<TodoTitle>, now: nat) returns (r: Result<()>)
      modifies this
      ensures newTitle.Null? ==> r == Err(NullPointer) && State() == old(State())
      ensures newTitle.Some? ==> r.Ok? && State() == old(State()).(title := newTitle.value, updatedAt := now)
    {
      if newTitle.Null? {
        return Err(NullPointer);
      }
      title := newTitle.value;
      updatedAt := now;
      r := Ok(());
    }

    /** Replaces the description and stamps `now`. */
    method UpdateDescription(newDescription: TodoDescription, now: nat)
      modifies this
      ensures State() == old(State()).(description := newDescription, updatedAt := now)
    {
      description := newDescription;
      updatedAt := now;
    }

    /** Refuses a completed todo; otherwise marks it completed at `now`. */
    method MarkAsCompleted(now: nat) returns (r: Result<()>)
      modifies this
      ensures old(status).IsCompleted() ==> r == Err(IllegalState(AlreadyCompleted)) && State() == old(State())
      ensures old(status).IsPending() ==> r.Ok? && State() == old(State()).(status := COMPLETED, updatedAt := now)
    {
      if status.IsCompleted() {
        return Err(IllegalState(AlreadyCompleted));
      }
      status := COMPLETED;
      updatedAt := now;
      r := Ok(());
    }

    /** Refuses a pending todo; otherwise marks it pending at `now`. */
    method MarkAsPending(now: nat) returns (r: Result<()>)
      modifies this
      ensures old(status).IsPending() ==> r == Err(IllegalState(NotCompleted)) && State() == old(State())
      ensures old(status).IsCompleted() ==> r.Ok? && State() == old(State()).(status := PENDING, updatedAt := now)
    {
      if status.IsPending() {
        return Err(IllegalState(NotCompleted));
      }
      status := PENDING;
      updatedAt := now;
      r := Ok(());
    }

    /** `equals`: identity is the id alone; null is never equal. */
    function Equals(o: Nullable<Todo>): (r: bool)
      ensures r <==> o.Some? && o.value.id == id
      ensures o == Some(this) ==> r
    {
      o.Some? && (o.value == this || o.value.id == id)
    }
  }

  /** Aggregate equality is an equivalence that ignores every field but the
      id: two aggregates with the same id are equal whatever their state. */
  lemma EqualsIsIdentityById(a: Todo, b: Todo, c: Todo)
    ensures a.Equals(Some(a))
    ensures a.Equals(Some(b)) <==> b.Equals(Some(a))
    ensures a.Equals(Some(b)) && b.Equals(Some(c)) ==> a.Equals(Some(c))
    ensures a.Equals(Some(b)) <==> a.id == b.id
    ensures !a.Equals(Null)
  {
  }
}
