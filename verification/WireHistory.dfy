/**
 Reading the control plane's stored history: wire messages are decoded one by
 one, the current user message and everything after it is cut off, and what is
 left is normalized (containers/agent/src/engine_support.rs).
 */
module WireHistory {
  import opened Wrappers
  import opened Conversation
  import opened History

  /** The JSON text decoder used for arguments that were stored as a string. */
  type JsonParser = string -> Option<Value>

  function Field(fields: map<string, Value>, key: string): Option<Value> {
    if key in fields then Some(fields[key]) else None
  }

  function StringField(fields: map<string, Value>, key: string): Option<string> {
    if key in fields && fields[key].String? then Some(fields[key].s) else None
  }

  function OrElse<T>(first: Option<T>, second: Option<T>): Option<T> {
    if first.Some? then first else second
  }

  /** The flat `{ id, name, arguments }` shape, or the older nested `function`. */
  function DecodeToolCall(parse: JsonParser, value: Value): Option<ToolCall> {
    if !value.Object? then None else
    var fields := value.fields;
    var legacy := if "function" in fields && fields["function"].Object? then fields["function"].fields else map[];
    var named := OrElse(StringField(fields, "name"), StringField(legacy, "name"));
    if named.None? || Trim(named.value) == [] then None else
    var given: Option<Value> := OrElse(Field(fields, "arguments"), Field(legacy, "arguments"));
    var arguments := match given
      case None => Object(map[])
      case Some(String(raw)) => (match parse(raw) case Some(v) => v case None => Object(map["_raw" := String(raw)]))
      case Some(v) => v;
    Some(ToolCall(
      StringField(fields, "id"),
      Trim(named.value),
      if arguments.Object? then arguments else Object(map["_raw" := arguments])))
  }

  function DecodeToolCalls(parse: JsonParser, values: seq<Value>): seq<ToolCall> {
    if values == [] then []
    else
      var call := DecodeToolCall(parse, values[0]);
      (if call.Some? then [call.value] else []) + DecodeToolCalls(parse, values[1..])
  }

  function DecodeRole(role: string): Option<Role> {
    if role == "system" then Some(System)
    else if role == "user" then Some(User)
    else if role == "assistant" then Some(Assistant)
    else if role == "tool" then Some(Tool)
    else None
  }

  function DecodeMessage(parse: JsonParser, m: HistoryMessage): Option<Message> {
    var role := DecodeRole(m.role);
    if role.None? then None
    else Some(Message(role.value, m.content, m.toolCallId, DecodeToolCalls(parse, m.toolCalls)))
  }

  function DecodeAll(parse: JsonParser, ms: seq<HistoryMessage>): seq<Message> {
    if ms == [] then []
    else
      var m := DecodeMessage(parse, ms[0]);
      if m.Some? then [m.value] + DecodeAll(parse, ms[1..]) else DecodeAll(parse, ms[1..])
  }

  lemma {:induction false} DecodeConcat(parse: JsonParser, a: seq<HistoryMessage>, b: seq<HistoryMessage>)
    ensures DecodeAll(parse, a + b) == DecodeAll(parse, a) + DecodeAll(parse, b)
  {
    if a == [] {
      assert a + b == b;
    } else {
      assert (a + b)[1..] == a[1..] + b;
      DecodeConcat(parse, a[1..], b);
    }
  }

  /** Decoded names are trimmed and never empty. */
  predicate NamedProperly(calls: seq<ToolCall>) {
    forall c | c in calls :: c.name != [] && Trim(c.name) == c.name
  }

  lemma {:induction false} DecodedNames(parse: JsonParser, values: seq<Value>)
    ensures NamedProperly(DecodeToolCalls(parse, values))
  {
    if values == [] {
    } else {
      DecodedNames(parse, values[1..]);
      if values[0].Object? {
        var fields := values[0].fields;
        var legacy := if "function" in fields && fields["function"].Object? then fields["function"].fields else map[];
        var named := OrElse(StringField(fields, "name"), StringField(legacy, "name"));
        if named.Some? { TrimIdempotent(named.value); }
      }
    }
  }

  lemma {:induction false} DecodedCallNames(parse: JsonParser, ms: seq<HistoryMessage>, c: ToolCall)
    requires c in Calls(DecodeAll(parse, ms))
    ensures c.name != [] && Trim(c.name) == c.name
  {
    DecodedNames(parse, ms[0].toolCalls);
    if DecodeMessage(parse, ms[0]).None? || c !in DecodeMessage(parse, ms[0]).value.toolCalls {
      DecodedCallNames(parse, ms[1..], c);
    }
  }

  // ----- The part of the history that precedes the current message -----

  predicate Asks(m: HistoryMessage) {
    m.role == "user" && !Blank(m.content)
  }

  /** Position of the last non-blank user message. */
  function LastUserIndex(history: seq<HistoryMessage>): (index: Option<nat>)
    ensures index.Some? ==> index.value < |history| && Asks(history[index.value])
    ensures forall i | (if index.Some? then index.value < i else 0 <= i) && i < |history| :: !Asks(history[i])
  {
    if history == [] then None
    else if Asks(history[|history| - 1]) then Some(|history| - 1)
    else LastUserIndex(history[..|history| - 1])
  }

  function LastUserMessage(history: seq<HistoryMessage>): Option<string> {
    var index := LastUserIndex(history);
    if index.Some? then Some(history[index.value].content) else None
  }

  function DurableHistoryBeforeCurrent(parse: JsonParser, history: seq<HistoryMessage>, current: string): seq<Message> {
    var last := LastUserIndex(history);
    var prior := if last.Some? && Trim(history[last.value].content) == Trim(current) then history[..last.value]
                 else history;
    Coherent(DecodeAll(parse, prior))
  }

  /** When a run asks for the history before its own user message, the message
      itself and whatever follows it are left out. */
  lemma {:induction false} DurableHistoryStopsAtCurrent(parse: JsonParser, before: seq<HistoryMessage>,
          user: HistoryMessage, later: seq<HistoryMessage>)
    requires user.role == "user" && Trim(user.content) != ""
    requires forall m | m in later :: m.role == "user" ==> Trim(m.content) == ""
    ensures var history := before + [user] + later;
            && LastUserMessage(history) == Some(user.content)
            && DurableHistoryBeforeCurrent(parse, history, user.content) == Coherent(DecodeAll(parse, before))
  {
    var history := before + [user] + later;
    assert history[|before|] == user;
    assert forall i | |before| < i < |history| :: history[i] == later[i - |before| - 1];
    assert history[..|before|] == before;
  }

  /** When its message is not the last one the user has sent, or the user has
      sent none, nothing is left out. */
  lemma {:induction false} OtherHistoryIsWhole(parse: JsonParser, history: seq<HistoryMessage>, current: string)
    requires LastUserMessage(history).Some? ==> Trim(LastUserMessage(history).value) != Trim(current)
    ensures DurableHistoryBeforeCurrent(parse, history, current) == Coherent(DecodeAll(parse, history))
    ensures LastUserMessage(history).None? <==>
            forall m | m in history :: m.role == "user" ==> Trim(m.content) == ""
  {
  }

  // ----- What stored messages decode to -----

  /** The four roles and no other decode; content and result id are kept. */
  lemma {:induction false} MessageDecodesIff(parse: JsonParser, m: HistoryMessage)
    ensures DecodeMessage(parse, m).Some? <==> m.role in {"system", "user", "assistant", "tool"}
    ensures DecodeMessage(parse, m).Some? ==>
              var decoded := DecodeMessage(parse, m).value;
              && (decoded.role == System <==> m.role == "system") && (decoded.role == User <==> m.role == "user")
              && (decoded.role == Assistant <==> m.role == "assistant") && (decoded.role == Tool <==> m.role == "tool")
              && decoded.content == m.content && decoded.toolCallId == m.toolCallId
              && decoded.toolCalls == DecodeToolCalls(parse, m.toolCalls)
  {
  }

  /** A stored call with a usable name decodes the same in the flat shape and
      nested in `function`; the flat fields win when both are there. Arguments
      that are text are parsed, those that are no object are wrapped. */
  lemma {:induction false} CallShapesDecode(parse: JsonParser, id: Value, name: string, arguments: Value, other: Value)
    requires Trim(name) != ""
    ensures var nested := Object(map["name" := String(name), "arguments" := arguments]);
            var flat := map["id" := id, "name" := String(name), "arguments" := arguments];
            var call := Some(ToolCall(if id.String? then Some(id.s) else None, Trim(name), Wrapped(parse, arguments)));
            && DecodeToolCall(parse, Object(flat)) == call
            && DecodeToolCall(parse, Object(map["id" := id, "function" := nested])) == call
            && DecodeToolCall(parse, Object(flat["function" := other])) == call
    ensures DecodeToolCall(parse, Object(map["id" := id, "name" := String(name)]))
            == Some(ToolCall(if id.String? then Some(id.s) else None, Trim(name), Object(map[])))
  {
  }

  /** The object that stored arguments stand for. */
  function Wrapped(parse: JsonParser, arguments: Value): (v: Value)
    ensures v.Object? && (arguments.Object? ==> v == arguments)
    ensures !arguments.Object? && !arguments.String? ==> v.fields == map["_raw" := arguments]
    ensures arguments.String? && parse(arguments.s).Some? && parse(arguments.s).value.Object?
            ==> v == parse(arguments.s).value
    ensures arguments.String? && parse(arguments.s).Some? && !parse(arguments.s).value.Object?
            ==> v.fields == map["_raw" := parse(arguments.s).value]
    ensures arguments.String? && parse(arguments.s).None? ==> v.fields == map["_raw" := arguments]
  {
    var read := if arguments.String? && parse(arguments.s).Some? then parse(arguments.s).value else arguments;
    if read.Object? then read else Object(map["_raw" := read])
  }

  /** Anything without a usable name is no call. */
  lemma {:induction false} NamelessIsNoCall(parse: JsonParser, value: Value)
    requires value.Object? ==>
               (!("name" in value.fields && value.fields["name"].String?)
                && !("function" in value.fields && value.fields["function"].Object?))
               || ("name" in value.fields && value.fields["name"].String? && Trim(value.fields["name"].s) == "")
    ensures DecodeToolCall(parse, value).None?
  {
  }
}
