/** Java references that may be null, and the exceptions the Todo stores throw,
    turned into values. */
module Outcomes {

  /** A Java reference that may be null. */
  datatype Nullable<+T> = Null | Some(value: T)

  /** Which check raised the exception (the exception messages, collapsed). */
  datatype Reason =
    | EmptyTitle          // "Title cannot be empty"   (null or trim().isEmpty())
    | BlankTitle          // "Title cannot be blank"   (isBlank())
    | TitleTooLong        // "Title cannot exceed 200 characters"
    | DescriptionTooLong  // "Description cannot exceed 1000 characters"
    | EmptyId             // "ID cannot be empty"
    | BlankId             // "TodoId cannot be blank"
    | NotFound            // "Todo not found with id: ..."
    | UnknownStatus       // TodoStatus.valueOf of a name that is no constant
    | AlreadyCompleted    // "Todo is already completed"
    | NotCompleted        // "Todo is not completed" / "Todo is already pending"

  /** The exception classes the stores throw. */
  datatype Failure =
    | IllegalArgument(reason: Reason)
    | IllegalState(reason: Reason)
    | NullPointer
    | TodoNotFound

  /** The value a Java call returns, or the exception it throws. */
  datatype Result<+T> = Ok(value: T) | Err(failure: Failure) {

    predicate IsFailure() {
      Err?
    }

    function PropagateFailure<U>(): Result<U>
      requires Err?
    {
      Err(failure)
    }

    function Extract(): T
      requires Ok?
    {
      value
    }
  }
}
