/** The conversation records exchanged between the chat model, the graph node
    and the user interface. */
module Messages {
  import opened Optional

  /** The class of a message. `Human` stands for `HumanMessage` and its subclasses (such as
      `HumanMessageChunk`), the only test the code makes; every other class, whether
      `AIMessage`, `ToolMessage`, `SystemMessage` or another, behaves like `AI`, `Tool`
      or `System`. */
  datatype Kind = Human | AI | Tool | System

  /** A tool-call request as the graph node reads it: the `tool_name` entry (possibly absent)
      and the `query` entry, which defaults to the empty string when absent. The node reads
      these two keys whether the call is a dictionary or an object, so both shapes collapse
      into this one record. */
  datatype ToolCall = ToolCall(toolName: Option<string>, query: string)

  /** A message: its class, its text content and, when the object has a `tool_calls`
      attribute, the list of tool-call requests it carries. */
  datatype Message = Message(kind: Kind, content: string, toolCalls: Option<seq<ToolCall>>)
}
