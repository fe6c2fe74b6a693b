/**
 The size limits that keep a run's transcript committable
 (containers/agent/src/model.rs): the wire budget of a conversation, the limits
 on one model response, and the check before a response is released.
 */
module Budget {
  import opened Wrappers
  import opened Conversation
  import opened WireHistory
  import opened Usage

  const MAX_ASSISTANT_CONTENT_BYTES := 512 * 1024
  const MAX_TOOL_CALLS := 16
  const MAX_TOOL_CALL_ID_BYTES := 256
  const MAX_TOOL_NAME_BYTES := 256
  const MAX_TOOL_ARGUMENT_BYTES: nat := 256 * 1024
  const MAX_TURN_TRANSCRIPT_BYTES := 7 * 1024 * 1024
  const MAX_TOOL_RESULT_BYTES: nat := 32 * 1024

  /** The cap of the complete-run parser on a transcript. */
  const WORKER_TRANSCRIPT_BYTES := 8 * 1024 * 1024

  /** What 16 results can add beyond what was reserved for them. */
  const RESULT_OVERHEAD := MAX_TOOL_CALLS * 512

  /** The encoded size of a JSON value, unless encoding fails. */
  type Encoder = Value -> Option<nat>

  datatype ModelOutput = ModelOutput(assistantMessage: Option<string>, toolCalls: seq<ToolCall>)

  // ----- Byte lengths -----

  function Utf8Size(c: char): nat {
    if c < '\U{80}' then 1 else if c < '\U{800}' then 2 else if c < '\U{10000}' then 3 else 4
  }

  function ByteLength(s: string): nat {
    if s == [] then 0 else Utf8Size(s[0]) + ByteLength(s[1..])
  }

  function Len(s: string): Count {
    Capped(ByteLength(s))
  }

  function LenOf(s: Option<string>): Count {
    if s.Some? then Len(s.value) else 0
  }

  // ----- The budget as computed -----

  function SaturatingMul(a: nat, b: nat): Count {
    Capped(a * b)
  }

  function ToolCallWireBudget(enc: Encoder, call: ToolCall): Count {
    SaturatingAdd(SaturatingAdd(SaturatingAdd(128, LenOf(call.id)), Len(call.name)),
      if enc(call.arguments).Some? then Capped(enc(call.arguments).value) else MAX_TOOL_ARGUMENT_BYTES)
  }

  /** The left fold of the source over the calls. */
  function FoldCalls(enc: Encoder, total: Count, calls: seq<ToolCall>): Count
    decreases calls
  {
    if calls == [] then total
    else FoldCalls(enc, SaturatingAdd(total, ToolCallWireBudget(enc, calls[0])), calls[1..])
  }

  function AddMessage(enc: Encoder, total: Count, m: Message): Count {
    SaturatingAdd(
      SaturatingAdd(SaturatingAdd(SaturatingAdd(total, 256), Len(m.content)), LenOf(m.toolCallId)),
      FoldCalls(enc, 0, m.toolCalls))
  }

  function FoldMessages(enc: Encoder, total: Count, ms: seq<Message>): Count
    decreases ms
  {
    if ms == [] then total else FoldMessages(enc, AddMessage(enc, total, ms[0]), ms[1..])
  }

  function ConversationWireBudget(enc: Encoder, ms: seq<Message>): Count {
    FoldMessages(enc, 0, ms)
  }

  function ModelOutputWireBudget(enc: Encoder, output: ModelOutput): Count {
    SaturatingAdd(SaturatingAdd(256, LenOf(output.assistantMessage)), FoldCalls(enc, 0, output.toolCalls))
  }

  // ----- The budget as meant -----

  function SizeOf(s: Option<string>): nat {
    if s.Some? then ByteLength(s.value) else 0
  }

  function CallSize(enc: Encoder, call: ToolCall): nat {
    128 + SizeOf(call.id) + ByteLength(call.name)
    + if enc(call.arguments).Some? then enc(call.arguments).value else MAX_TOOL_ARGUMENT_BYTES
  }

  function CallsSize(enc: Encoder, calls: seq<ToolCall>): nat {
    if calls == [] then 0 else CallSize(enc, calls[0]) + CallsSize(enc, calls[1..])
  }

  function MessageSize(enc: Encoder, m: Message): nat {
    256 + ByteLength(m.content) + SizeOf(m.toolCallId) + CallsSize(enc, m.toolCalls)
  }

  function TranscriptSize(enc: Encoder, ms: seq<Message>): nat {
    if ms == [] then 0 else MessageSize(enc, ms[0]) + TranscriptSize(enc, ms[1..])
  }

  /** The assistant message a model output turns into. */
  function AssistantMessage(output: ModelOutput): Message {
    var content := if output.assistantMessage.Some? then output.assistantMessage.value else "";
    Message(Assistant, content, None, output.toolCalls)
  }

  // ----- Saturation loses nothing -----

  lemma {:induction false} FoldCallsCapped(enc: Encoder, total: nat, calls: seq<ToolCall>)
    ensures FoldCalls(enc, Capped(total), calls) == Capped(total + CallsSize(enc, calls))
    decreases calls
  {
    if calls == [] {
    } else {
      assert SaturatingAdd(Capped(total), ToolCallWireBudget(enc, calls[0])) == Capped(total + CallSize(enc, calls[0]));
      FoldCallsCapped(enc, total + CallSize(enc, calls[0]), calls[1..]);
    }
  }

  lemma {:induction false} AddMessageCapped(enc: Encoder, total: nat, m: Message)
    ensures AddMessage(enc, Capped(total), m) == Capped(total + MessageSize(enc, m))
  {
    hide ByteLength, FoldCalls, CallsSize;
    FoldCallsCapped(enc, 0, m.toolCalls);
  }

  lemma {:induction false} FoldMessagesCapped(enc: Encoder, total: nat, ms: seq<Message>)
    ensures FoldMessages(enc, Capped(total), ms) == Capped(total + TranscriptSize(enc, ms))
    decreases ms
  {
    hide AddMessage, MessageSize, Capped;
    if ms == [] {
    } else {
      AddMessageCapped(enc, total, ms[0]);
      FoldMessagesCapped(enc, total + MessageSize(enc, ms[0]), ms[1..]);
    }
  }

  /** The saturating fold is the exact size, capped once at the end. */
  lemma {:induction false} BudgetIsCappedSize(enc: Encoder, ms: seq<Message>)
    ensures ConversationWireBudget(enc, ms) == Capped(TranscriptSize(enc, ms))
  {
    FoldMessagesCapped(enc, 0, ms);
  }

  /** A model output is charged exactly as the assistant message it becomes. */
  lemma {:induction false} OutputBudgetIsMessageBudget(enc: Encoder, output: ModelOutput)
    ensures ModelOutputWireBudget(enc, output) == ConversationWireBudget(enc, [AssistantMessage(output)])
    ensures ModelOutputWireBudget(enc, output) == Capped(MessageSize(enc, AssistantMessage(output)))
  {
    FoldCallsCapped(enc, 0, output.toolCalls);
    BudgetIsCappedSize(enc, [AssistantMessage(output)]);
    assert TranscriptSize(enc, [AssistantMessage(output)]) == MessageSize(enc, AssistantMessage(output));
  }

  lemma {:induction false} SizeConcat(enc: Encoder, a: seq<Message>, b: seq<Message>)
    ensures TranscriptSize(enc, a + b) == TranscriptSize(enc, a) + TranscriptSize(enc, b)
    decreases a
  {
    if a == [] {
      assert a + b == b;
    } else {
      assert (a + b)[1..] == a[1..] + b;
      SizeConcat(enc, a[1..], b);
    }
  }

  lemma {:induction false} BudgetConcat(enc: Encoder, a: seq<Message>, b: seq<Message>)
    ensures ConversationWireBudget(enc, a + b)
            == SaturatingAdd(ConversationWireBudget(enc, a), ConversationWireBudget(enc, b))
  {
    BudgetIsCappedSize(enc, a);
    BudgetIsCappedSize(enc, b);
    BudgetIsCappedSize(enc, a + b);
    SizeConcat(enc, a, b);
  }

  // ----- Releasing a response -----

  datatype RunError = TranscriptTooLong | ProviderFailed | ResponseTooLong

  function Reserve(calls: nat): nat {
    calls * MAX_TOOL_RESULT_BYTES
  }

  /** The exact size of the turn with the response and its results reserved. */
  function ReservedSize(enc: Encoder, turn: seq<Message>, output: ModelOutput): nat {
    TranscriptSize(enc, turn) + MessageSize(enc, AssistantMessage(output)) + Reserve(|output.toolCalls|)
  }

  /** `provide` is the provider's answer, if it gives a usable one. */
  method Run(enc: Encoder, turn: seq<Message>, provide: Option<ModelOutput>) returns (r: Result<ModelOutput, RunError>)
    ensures r.Ok? <==> provide.Some? && ReservedSize(enc, turn, provide.value) <= MAX_TURN_TRANSCRIPT_BYTES
    ensures r.Ok? ==> r.value == provide.value
    ensures r == Err(TranscriptTooLong) <==> TranscriptSize(enc, turn) > MAX_TURN_TRANSCRIPT_BYTES
  {
    BudgetIsCappedSize(enc, turn);
    var existingBytes := ConversationWireBudget(enc, turn);
    if existingBytes > MAX_TURN_TRANSCRIPT_BYTES {
      return Err(TranscriptTooLong);
    }
    if provide.None? {
      return Err(ProviderFailed);
    }
    var output := provide.value;
    OutputBudgetIsMessageBudget(enc, output);
    var projectedBytes := SaturatingAdd(SaturatingAdd(existingBytes, ModelOutputWireBudget(enc, output)),
                                        SaturatingMul(|output.toolCalls|, MAX_TOOL_RESULT_BYTES));
    if projectedBytes > MAX_TURN_TRANSCRIPT_BYTES {
      return Err(ResponseTooLong);
    }
    r := Ok(output);
  }

  // ----- The limits on a response -----

  datatype RawCall = RawCall(id: string, name: string, arguments: string)

  datatype DecodeError =
    | TooManyCalls
    | InvalidId(index: nat)
    | InvalidName(index: nat)
    | OversizedArguments(index: nat)
    | InvalidArguments(index: nat)
    | NonObjectArguments(index: nat)
    | OversizedContent

  predicate Decodable(parse: JsonParser, call: RawCall) {
    && 0 < ByteLength(call.id) <= MAX_TOOL_CALL_ID_BYTES
    && 0 < ByteLength(call.name) <= MAX_TOOL_NAME_BYTES
    && ByteLength(call.arguments) <= MAX_TOOL_ARGUMENT_BYTES
    && parse(call.arguments).Some? && parse(call.arguments).value.Object?
  }

  function Decoded(parse: JsonParser, call: RawCall): ToolCall
    requires Decodable(parse, call)
  {
    ToolCall(Some(call.id), call.name, parse(call.arguments).value)
  }

  /** A response is decoded exactly when every part is within its limit, and an
      error names the first call that is not. */
  method DecodeOpenAiResponse(parse: JsonParser, rawCalls: seq<RawCall>, content: Option<string>)
    returns (r: Result<ModelOutput, DecodeError>)
    ensures r.Ok? <==>
            && |rawCalls| <= MAX_TOOL_CALLS
            && (forall c | c in rawCalls :: Decodable(parse, c))
            && SizeOf(content) <= MAX_ASSISTANT_CONTENT_BYTES
    ensures r.Ok? ==>
            && r.value.assistantMessage == content && |r.value.toolCalls| == |rawCalls|
            && (forall i | 0 <= i < |rawCalls| ::
                  Decodable(parse, rawCalls[i]) && r.value.toolCalls[i] == Decoded(parse, rawCalls[i]))
    ensures r.Ok? ==> forall i | 0 <= i < |rawCalls| ::
              && 1 <= ByteLength(rawCalls[i].id) <= 256 && 1 <= ByteLength(rawCalls[i].name) <= 256
              && ByteLength(rawCalls[i].arguments) <= 256 * 1024
              && r.value.toolCalls[i].id == Some(rawCalls[i].id) && r.value.toolCalls[i].name == rawCalls[i].name
              && Some(r.value.toolCalls[i].arguments) == parse(rawCalls[i].arguments)
              && r.value.toolCalls[i].arguments.Object?
    ensures r == Err(TooManyCalls) <==> |rawCalls| > 16
    ensures r == Err(OversizedContent) ==> SizeOf(content) > 512 * 1024
    ensures r.Err? ==>
              match r.error
              case TooManyCalls => true
              case InvalidId(i) => i < |rawCalls| && !(1 <= ByteLength(rawCalls[i].id) <= 256)
              case InvalidName(i) => i < |rawCalls| && !(1 <= ByteLength(rawCalls[i].name) <= 256)
              case OversizedArguments(i) => i < |rawCalls| && ByteLength(rawCalls[i].arguments) > 256 * 1024
              case InvalidArguments(i) => i < |rawCalls| && parse(rawCalls[i].arguments).None?
              case NonObjectArguments(i) =>
                i < |rawCalls| && parse(rawCalls[i].arguments).Some? && !parse(rawCalls[i].arguments).value.Object?
              case OversizedContent => true
    ensures r.Err? && !r.error.TooManyCalls? && !r.error.OversizedContent? ==>
              && r.error.index < |rawCalls| && !Decodable(parse, rawCalls[r.error.index])
              && (forall i | 0 <= i < r.error.index :: Decodable(parse, rawCalls[i]))
  {
    if |rawCalls| > MAX_TOOL_CALLS {
      return Err(TooManyCalls);
    }
    var toolCalls: seq<ToolCall> := [];
    for index := 0 to |rawCalls|
      invariant |toolCalls| == index
      invariant forall i | 0 <= i < index ::
                  Decodable(parse, rawCalls[i]) && toolCalls[i] == Decoded(parse, rawCalls[i])
    {
      var call := rawCalls[index];
      assert call in rawCalls;
      if ByteLength(call.id) == 0 || ByteLength(call.id) > MAX_TOOL_CALL_ID_BYTES {
        return Err(InvalidId(index));
      }
      if ByteLength(call.name) == 0 || ByteLength(call.name) > MAX_TOOL_NAME_BYTES {
        return Err(InvalidName(index));
      }
      if ByteLength(call.arguments) > MAX_TOOL_ARGUMENT_BYTES {
        return Err(OversizedArguments(index));
      }
      var arguments := parse(call.arguments);
      if arguments.None? {
        return Err(InvalidArguments(index));
      }
      if !arguments.value.Object? {
        return Err(NonObjectArguments(index));
      }
      toolCalls := toolCalls + [ToolCall(Some(call.id), call.name, arguments.value)];
    }
    if content.Some? && ByteLength(content.value) > MAX_ASSISTANT_CONTENT_BYTES {
      return Err(OversizedContent);
    }
    r := Ok(ModelOutput(content, toolCalls));
  }

  // ----- Whole runs -----

  /** One released response and the results recorded for its calls so far. */
  datatype Turn = Turn(output: ModelOutput, results: seq<Message>)

  predicate IsResult(m: Message) {
    && m.role == Tool && m.toolCalls == []
    && ByteLength(m.content) <= MAX_TOOL_RESULT_BYTES
    && SizeOf(m.toolCallId) <= MAX_TOOL_CALL_ID_BYTES
  }

  function Recorded(turn: Turn): seq<Message> {
    [AssistantMessage(turn.output)] + turn.results
  }

  /** `turn` may follow `before`: its response was released, it has no more calls
      than a response may have, and no more results than calls. */
  predicate MayFollow(enc: Encoder, before: seq<Message>, turn: Turn) {
    && ReservedSize(enc, before, turn.output) <= MAX_TURN_TRANSCRIPT_BYTES
    && |turn.output.toolCalls| <= MAX_TOOL_CALLS
    && |turn.results| <= |turn.output.toolCalls|
    && forall m | m in turn.results :: IsResult(m)
  }

  predicate Plays(enc: Encoder, before: seq<Message>, turns: seq<Turn>)
    decreases turns
  {
    turns == [] || (MayFollow(enc, before, turns[0]) && Plays(enc, before + Recorded(turns[0]), turns[1..]))
  }

  function Messages(before: seq<Message>, turns: seq<Turn>): seq<Message>
    decreases turns
  {
    if turns == [] then before else Messages(before + Recorded(turns[0]), turns[1..])
  }

  lemma {:induction false} ResultsSize(enc: Encoder, results: seq<Message>)
    requires forall m | m in results :: IsResult(m)
    ensures TranscriptSize(enc, results) <= |results| * (MAX_TOOL_RESULT_BYTES + 512)
    decreases results
  {
    if results == [] {
    } else {
      assert IsResult(results[0]);
      ResultsSize(enc, results[1..]);
    }
  }

  lemma {:induction false} TurnFits(enc: Encoder, before: seq<Message>, turn: Turn)
    requires MayFollow(enc, before, turn)
    ensures TranscriptSize(enc, before + Recorded(turn)) <= MAX_TURN_TRANSCRIPT_BYTES + RESULT_OVERHEAD
  {
    SizeConcat(enc, before, Recorded(turn));
    SizeConcat(enc, [AssistantMessage(turn.output)], turn.results);
    assert TranscriptSize(enc, [AssistantMessage(turn.output)]) == MessageSize(enc, AssistantMessage(turn.output));
    ResultsSize(enc, turn.results);
  }

  /** At every reachable point of a run, between two turns or in the middle of
      one, the transcript is within the reserve and below the parser's cap. */
  lemma {:induction false} RunFits(enc: Encoder, before: seq<Message>, turns: seq<Turn>)
    requires TranscriptSize(enc, before) <= MAX_TURN_TRANSCRIPT_BYTES + RESULT_OVERHEAD && Plays(enc, before, turns)
    ensures TranscriptSize(enc, Messages(before, turns))
            <= MAX_TURN_TRANSCRIPT_BYTES + RESULT_OVERHEAD < WORKER_TRANSCRIPT_BYTES
    ensures ConversationWireBudget(enc, Messages(before, turns)) == TranscriptSize(enc, Messages(before, turns))
    decreases turns
  {
    if turns == [] {
      BudgetIsCappedSize(enc, before);
    } else {
      TurnFits(enc, before, turns[0]);
      RunFits(enc, before + Recorded(turns[0]), turns[1..]);
    }
  }
}
