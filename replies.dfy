/** The parsed reply of one completion call, and the messages of the conversation transcript. */
module Replies {

  datatype Option<+T> = None | Some(value: T) {
    /** The value, or `default` when absent: a dictionary lookup with a fallback. */
    function GetOr(default: T): T {
      match this
      case Some(v) => v
      case None => default
    }
  }

  /** A reply object as parsed from the model's JSON; a field is `None` when its key is absent. */
  datatype Reply = Reply(title: Option<string>, content: Option<string>, nextAction: Option<string>)

  const FinalAnswerAction: string := "final_answer"

  /** The reply asks the driver to stop stepping and request the final answer. */
  predicate EndsSession(r: Reply) {
    r.nextAction == Some(FinalAnswerAction)
  }

  datatype Role = System | User | Assistant

  /** The content of a message: plain text, or a step reply serialised back to JSON for the model.
      The serialisation itself is not modelled; the message records the reply it serialises. */
  datatype Content = Text(text: string) | Json(reply: Reply)

  datatype Message = Message(role: Role, content: Content)
}
