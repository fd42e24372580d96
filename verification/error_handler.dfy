/** The backend's final error handler: it maps a thrown error's message to a status and body. */
module ErrorHandler {
  import opened Text
  import opened Wrappers
  import opened BackendTransitions
  import opened EventModel

  datatype ErrorReply = ErrorReply(status: int, code: string, message: string)

  const EVENT_NOT_FOUND := "Event not found"
  const UNEXPECTED := "An unexpected error occurred"

  /**
   * `errorHandler`: the exact message "Event not found" is a 404; otherwise a message
   * mentioning "Cannot transition" is a 400; anything else is a 500 whose body never
   * repeats the message.
   */
  function HandleError(message: string): (r: ErrorReply)
    ensures r.status == 404 <==> message == EVENT_NOT_FOUND
    ensures r.status == 400 <==> message != EVENT_NOT_FOUND && Contains(message, "Cannot transition")
    ensures r.status == 404 ==> r.code == "NOT_FOUND" && r.message == message
    ensures r.status == 400 ==> r.code == "INVALID_TRANSITION" && r.message == message
    ensures r.status !in {404, 400} ==> r == ErrorReply(500, "INTERNAL_ERROR", UNEXPECTED)
  {
    if message == EVENT_NOT_FOUND then ErrorReply(404, "NOT_FOUND", message)
    else if Contains(message, "Cannot transition") then ErrorReply(400, "INVALID_TRANSITION", message)
    else ErrorReply(500, "INTERNAL_ERROR", UNEXPECTED)
  }

  /** Every refusal of the backend's transition rule, once thrown, becomes a 400 INVALID_TRANSITION. */
  lemma TransitionErrorsAreBadRequests(current: Status, next: Status)
    requires !CheckTransition(current, next).valid
    ensures HandleError(CheckTransition(current, next).error.value) ==
      ErrorReply(400, "INVALID_TRANSITION", TransitionError(current, next))
  {
    var m := TransitionError(current, next);
    assert StartsWith(m, "Cannot transition");
    assert m != EVENT_NOT_FOUND by {
      assert m[0] == 'C' && EVENT_NOT_FOUND[0] == 'E';
    }
  }
}
