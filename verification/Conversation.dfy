/**
 The provider-neutral conversation: messages, tool calls and the JSON values
 they travel in, together with the text helpers the agent uses on them.
 */
module Conversation {
  import opened Wrappers

  datatype Role = System | User | Assistant | Tool

  datatype Value =
    | Null
    | Bool(b: bool)
    | Number(text: string)
    | String(s: string)
    | Array(items: seq<Value>)
    | Object(fields: map<string, Value>)

  datatype ToolCall = ToolCall(id: Option<string>, name: string, arguments: Value)

  datatype Message = Message(role: Role, content: string, toolCallId: Option<string>, toolCalls: seq<ToolCall>)

  /** A message as the control plane stores it; absent JSON fields take their defaults. */
  datatype HistoryMessage = HistoryMessage(role: string, content: string, toolCalls: seq<Value>,
      toolCallId: Option<string>)

  /** The Unicode White_Space property, which `str::trim` strips. */
  predicate IsSpace(c: char) {
    || '\U{9}' <= c <= '\U{D}' || c == ' ' || c == '\U{85}' || c == '\U{A0}' || c == '\U{1680}'
    || '\U{2000}' <= c <= '\U{200A}' || c == '\U{2028}' || c == '\U{2029}' || c == '\U{202F}'
    || c == '\U{205F}' || c == '\U{3000}'
  }

  function TrimStart(s: string): (t: string)
    ensures t == [] || !IsSpace(t[0])
    ensures s != [] && !IsSpace(s[0]) ==> t == s
  {
    if s != [] && IsSpace(s[0]) then TrimStart(s[1..]) else s
  }

  function TrimEnd(s: string): (t: string)
    ensures t == [] || !IsSpace(t[|t| - 1])
    ensures t <= s
    ensures s != [] && !IsSpace(s[|s| - 1]) ==> t == s
  {
    if s != [] && IsSpace(s[|s| - 1]) then TrimEnd(s[..|s| - 1]) else s
  }

  function Trim(s: string): string {
    TrimEnd(TrimStart(s))
  }

  predicate Blank(s: string) {
    Trim(s) == []
  }

  lemma {:induction false} TrimIdempotent(s: string)
    ensures Trim(Trim(s)) == Trim(s)
  {
  }
}
