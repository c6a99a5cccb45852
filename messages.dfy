/**
  The two message shapes the chat code passes around: the UI transcript entries a client sends
  and the server stores, and the model-facing messages sent to the language model.
 */
module Messages {
  import opened Wrappers
  import opened Js

  /** The role of a transcript entry. */
  datatype Role = System | User | Assistant

  /**
    A UI transcript entry. The id is optional and may be the empty string; `parts` is whatever
    the client sent (normally an array of part objects) and `metadata` is an optional object.
   */
  datatype UIMessage = UIMessage(id: Option<string>, role: Role, parts: Value, metadata: Option<Value>)

  /** The role of a model-facing message. */
  datatype ModelRole = ModelSystem | ModelUser | ModelAssistant | ModelTool

  /** A model message's content is either a plain string or an array of parts. */
  datatype Content = Text(text: string) | Parts(parts: seq<Value>)

  datatype ModelMessage = ModelMessage(role: ModelRole, content: Content)

  /** A system message with string content. */
  function SystemMessage(text: string): ModelMessage {
    ModelMessage(ModelSystem, Text(text))
  }
}
