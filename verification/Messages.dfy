/** The message type shared by the store, the agent loop and the model input (src/kernel/message.rs).
    JSON values are represented by their serialised text and identifiers by opaque numbers. */
module Messages {
  import opened Basics

  type MessageId = nat

  type Json = string

  datatype ToolErrorCode =
    UnknownTool | InvalidParams | HandlerError | Timeout | Aborted | Forbidden | ModelUnavailable | Internal

  datatype ToolError = ToolError(code: ToolErrorCode, message: string, retryable: bool)

  datatype Attachment = Attachment(mime: string, dataBase64: string)

  datatype MessageKind =
    | User(text: string, displayText: Option<string>, attachments: seq<Attachment>)
    | Assistant(text: string)
    | ToolCall(entry: string, params: Json, result: Result<Json, ToolError>, callId: string)
    | Reasoning(reasoningId: string, text: string)
    | System(text: string, displayText: Option<string>)

  datatype Message = Message(id: MessageId, parent: Option<MessageId>, kind: MessageKind, createdAt: int)
}
