/** What an agent run says and remembers: messages, tool calls and the snapshot a checkpoint holds. */
module Conversation {
  import opened Common

  type Json = string

  datatype Call = Call(id: string, name: string, args: Json)

  datatype Message =
    | System(text: string)
    | User(text: string)
    | Assistant(text: string)
    | ToolResult(callId: string, name: string, content: Json)

  datatype CheckpointState = CheckpointState(
    messages: seq<Message>,
    modelInvocations: nat,
    toolInvocations: nat,
    retrievedContext: Option<string>,
    pendingToolCalls: seq<Call>)

  datatype Cursor = AfterModel | AfterTool | AfterPrefetch

  datatype KeyKind = PrefetchKey | ModelKey | ToolKey | CompleteKey

  /** The idempotency key text is attempt id, kind and the loop's own sequence number. */
  datatype IdemKey = IdemKey(runAttemptId: string, kind: KeyKind, sequence: nat)
}
