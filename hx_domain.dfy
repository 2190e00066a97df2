/** The hexagonal variant's domain entity. Unlike the other three variants it
    checks nothing but null: no blank or length rule, and no guard on the
    completion flag. */
module HxDomain {
  import opened Outcomes

  /** The six fields of an entity, as one value. */
  datatype TodoState = TodoState(
    id: string,
    title: string,
    description: Nullable<string>,
    completed: bool,
    createdAt: nat,
    updatedAt: nat)

  class Todo {
    const id: string
    var title: string
    var description: Nullable<string>
    var completed: bool
    const createdAt: nat
    var updatedAt: nat

    function State(): TodoState
      reads this
    {
      TodoState(id, title, description, completed, createdAt, updatedAt)
    }

    /** The constructor once `requireNonNull` has let id and title through:
        a pending todo whose two timestamps are two separate clock readings,
        `createdAt` first. */
    constructor (id: string, title: string, description: Nullable<string>, createdAt: nat, updatedAt: nat)
      ensures State() == TodoState(id, title, description, false, createdAt, updatedAt)
    {
      this.id, this.title, this.description := id, title, description;
      this.completed, this.createdAt, this.updatedAt := false, createdAt, updatedAt;
    }

    /** Replaces the title and stamps `now`; only null is refused, before
        anything changes. */
    method UpdateTitle(title: Nullable<string>, now: nat) returns (r: Result<()>)
      modifies this
      ensures title.Null? ==> r == Err(NullPointer) && State() == old(State())
      ensures title.Some? ==> r.Ok? && State() == old(State()).(title := title.value, updatedAt := now)
    {
      if title.Null? {
        return Err(NullPointer);
      }
      this.title := title.value;
      updatedAt := now;
      r := Ok(());
    }

    /** Replaces the description with any value, null included, and stamps
        `now`. */
    method UpdateDescription(description: Nullable<string>, now: nat)
      modifies this
      ensures State() == old(State()).(description := description, updatedAt := now)
    {
      this.description := description;
      updatedAt := now;
    }

    /** Sets the flag whatever it was before, and stamps `now`. */
    method MarkAsCompleted(now: nat)
      modifies this
      ensures State() == old(State()).(completed := true, updatedAt := now)
    {
      completed := true;
      updatedAt := now;
    }

    /** Clears the flag whatever it was before, and stamps `now`. */
    method MarkAsIncomplete(now: nat)
      modifies this
      ensures State() == old(State()).(completed := false, updatedAt := now)
    {
      completed := false;
      updatedAt := now;
    }

    /** `equals`: identity is the id alone; null is never equal. */
    function Equals(o: Nullable<Todo>): (r: bool)
      ensures r <==> o.Some? && o.value.id == id
      ensures o == Some(this) ==> r
    {
      o.Some? && (o.value == this || o.value.id == id)
    }
  }

  /** The constructor as Java runs it: a null id or a null title is refused
      with NullPointerException, in that order; any other pair of strings is
      accepted as it is. */
  method NewTodo(id: Nullable<string>, title: Nullable<string>, description: Nullable<string>, createdAt: nat, updatedAt: nat)
    returns (r: Result<Todo>)
    ensures r.Err? <==> id.Null? || title.Null?
    ensures r.Err? ==> r.failure == NullPointer
    ensures r.Ok? ==> fresh(r.value) && r.value.State() == TodoState(id.value, title.value, description, false, createdAt, updatedAt)
  {
    if id.Null? || title.Null? {
      return Err(NullPointer);
    }
    var todo := new Todo(id.value, title.value, description, createdAt, updatedAt);
    r := Ok(todo);
  }
}
