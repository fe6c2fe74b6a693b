/**
 The terminal transcript: the engine's turn messages are checked and rewritten
 into the stored form when a run ends (containers/agent/src/main.rs), and later
 read back as conversation history.
 */
module Transcript {
  import opened Wrappers
  import opened Collections
  import opened Conversation
  import opened History
  import opened WireHistory

  datatype BuildError =
    | NonTerminalRole
    | UnfinishedBatch
    | MissingCallId
    | NonObjectArguments
    | ReusedCallId
    | CallsOnResult
    | MissingResultId
    | UnknownResultId
    | ResultIdOnAssistant
    | UnansweredCalls

  // ----- The stored form -----

  function WireCall(call: ToolCall): Value
    requires call.id.Some?
  {
    Object(map["id" := String(call.id.value), "name" := String(call.name), "arguments" := call.arguments])
  }

  function WireCalls(calls: seq<ToolCall>): seq<Value>
    requires forall c | c in calls :: c.id.Some?
  {
    if calls == [] then [] else [WireCall(calls[0])] + WireCalls(calls[1..])
  }

  predicate Writable(m: Message) {
    && (m.role == Assistant || m.role == Tool)
    && (m.role == Assistant <==> m.toolCallId.None?)
    && (m.role == Tool ==> m.toolCalls == [])
    && forall c | c in m.toolCalls :: c.id.Some? && c.arguments.Object?
  }

  function Persist(m: Message): HistoryMessage
    requires Writable(m)
  {
    HistoryMessage(if m.role == Assistant then "assistant" else "tool", m.content, WireCalls(m.toolCalls), m.toolCallId)
  }

  function PersistAll(ms: seq<Message>): seq<HistoryMessage>
    requires forall m | m in ms :: Writable(m)
  {
    if ms == [] then [] else [Persist(ms[0])] + PersistAll(ms[1..])
  }

  // ----- The writer -----

  /** What has been written, the calls still waiting for a result in call order,
      and every correlation id used so far. */
  datatype Writer = Writer(transcript: seq<HistoryMessage>, pending: seq<string>, seen: set<string>)

  function RecordCalls(calls: seq<ToolCall>, pending: seq<string>, seen: set<string>)
    : Result<(seq<string>, set<string>), BuildError>
    decreases calls
  {
    if calls == [] then Ok((pending, seen))
    else if calls[0].id.None? then Err(MissingCallId)
    else if !calls[0].arguments.Object? then Err(NonObjectArguments)
    else if calls[0].id.value in seen then Err(ReusedCallId)
    else RecordCalls(calls[1..], pending + [calls[0].id.value], seen + {calls[0].id.value})
  }

  function RemoveId(pending: seq<string>, id: string): seq<string> {
    if pending == [] then []
    else if pending[0] == id then pending[1..]
    else [pending[0]] + RemoveId(pending[1..], id)
  }

  lemma {:induction false} RecordCallsWritable(calls: seq<ToolCall>, pending: seq<string>, seen: set<string>)
    requires RecordCalls(calls, pending, seen).Ok?
    ensures forall c | c in calls :: c.id.Some? && c.arguments.Object?
    decreases calls
  {
    if calls == [] {
    } else {
      RecordCallsWritable(calls[1..], pending + [calls[0].id.value], seen + {calls[0].id.value});
    }
  }

  function WriteMessage(w: Writer, m: Message): (r: Result<Writer, BuildError>)
    ensures r.Ok? ==> Writable(m)
  {
    if m.role == System || m.role == User then Err(NonTerminalRole)
    else if m.role == Assistant && w.pending != [] then Err(UnfinishedBatch)
    else
      var recorded := RecordCalls(m.toolCalls, w.pending, w.seen);
      if recorded.Err? then Err(recorded.error)
      else if m.role == Tool then
        if m.toolCalls != [] then Err(CallsOnResult)
        else if m.toolCallId.None? then Err(MissingResultId)
        else if m.toolCallId.value !in w.pending then Err(UnknownResultId)
        else Ok(Writer(w.transcript + [Persist(m)], RemoveId(w.pending, m.toolCallId.value), w.seen))
      else if m.toolCallId.Some? then Err(ResultIdOnAssistant)
      else
        RecordCallsWritable(m.toolCalls, w.pending, w.seen);
        Ok(Writer(w.transcript + [Persist(m)], recorded.value.0, recorded.value.1))
  }

  function WriteAll(w: Writer, ms: seq<Message>): (r: Result<Writer, BuildError>)
    ensures r.Ok? ==> forall m | m in ms :: Writable(m)
    decreases ms
  {
    if ms == [] then Ok(w)
    else
      var next := WriteMessage(w, ms[0]);
      if next.Err? then next else WriteAll(next.value, ms[1..])
  }

  /** Results written on behalf of calls that never got one. */
  function Closers(pending: seq<string>, content: string): seq<Message> {
    if pending == [] then [] else [Message(Tool, content, Some(pending[0]), [])] + Closers(pending[1..], content)
  }

  function Final(content: Option<string>): seq<Message> {
    if content.Some? then [Message(Assistant, content.value, None, [])] else []
  }

  lemma {:induction false} ClosersWritable(pending: seq<string>, content: string)
    ensures forall m | m in Closers(pending, content) :: Writable(m)
  {
    if pending == [] {
    } else {
      ClosersWritable(pending[1..], content);
    }
  }

  /** What is appended after the turn messages. */
  function Tail(pending: seq<string>, finalMessage: Option<string>, incomplete: Option<string>): (tail: seq<Message>)
    ensures forall m | m in tail :: Writable(m)
  {
    var closers := if pending == [] || incomplete.None? then [] else Closers(pending, incomplete.value);
    ClosersWritable(pending, if incomplete.Some? then incomplete.value else []);
    closers + Final(finalMessage)
  }

  /** What `build_terminal_transcript_messages` computes. */
  function Build(turn: seq<Message>, finalMessage: Option<string>, incomplete: Option<string>)
    : Result<seq<HistoryMessage>, BuildError>
  {
    var written := WriteAll(Writer([], [], {}), turn);
    if written.Err? then Err(written.error)
    else if written.value.pending != [] && incomplete.None? then Err(UnansweredCalls)
    else Ok(written.value.transcript + PersistAll(Tail(written.value.pending, finalMessage, incomplete)))
  }

  // ----- What a reader of the transcript should see -----

  /** The calls of the turn that never got a result, in call order. */
  function Unanswered(turn: seq<Message>): seq<string>
    requires WriteAll(Writer([], [], {}), turn).Ok?
  {
    WriteAll(Writer([], [], {}), turn).value.pending
  }

  function Intended(turn: seq<Message>, finalMessage: Option<string>, incomplete: Option<string>): (ms: seq<Message>)
    requires Build(turn, finalMessage, incomplete).Ok?
    ensures forall m | m in ms :: Writable(m)
  {
    turn + Tail(Unanswered(turn), finalMessage, incomplete)
  }

  /** Every call has a non-empty id and a name that survives trimming. */
  predicate Clean(turn: seq<Message>) {
    forall c | c in Calls(turn) :: c.id.Some? && c.id.value != [] && c.name != [] && Trim(c.name) == c.name
  }

  function ReadBack(parse: JsonParser, stored: seq<HistoryMessage>): seq<Message> {
    Coherent(DecodeAll(parse, stored))
  }

  // ----- The writer follows the reader's automaton -----

  predicate NonEmptyIds(calls: seq<ToolCall>) {
    forall c | c in calls :: c.id.Some? && c.id.value != []
  }

  lemma {:induction false} CallIdsLength(calls: seq<ToolCall>)
    ensures |CallIds(calls)| <= |calls|
    ensures |CallIds(calls)| == |calls| <==> NonEmptyIds(calls)
  {
    if calls == [] {
    } else {
      CallIdsLength(calls[1..]);
      assert calls == [calls[0]] + calls[1..];
    }
  }

  lemma {:induction false} RecordedIds(calls: seq<ToolCall>, pending: seq<string>, seen: set<string>)
    requires NonEmptyIds(calls) && RecordCalls(calls, pending, seen).Ok?
    ensures RecordCalls(calls, pending, seen).value == (pending + CallIds(calls), seen + ToSet(CallIds(calls)))
    ensures Distinct(CallIds(calls)) && ToSet(CallIds(calls)) !! seen
    decreases calls
  {
    if calls == [] {
      assert pending + [] == pending && ToSet<string>([]) == {} && seen + {} == seen;
    } else {
      var id, rest := calls[0].id.value, CallIds(calls[1..]);
      RecordedIds(calls[1..], pending + [id], seen + {id});
      var ids := CallIds(calls);
      assert ids == [id] + rest && ids[1..] == rest;
      assert id !in ToSet(rest);
      DistinctHead(ids);
      assert pending + [id] + rest == pending + ids;
      ToSetCons(id, rest);
      assert seen + {id} + ToSet(rest) == seen + ToSet(ids);
    }
  }

  lemma {:induction false} ToSetCons(id: string, rest: seq<string>)
    ensures ToSet([id] + rest) == {id} + ToSet(rest)
  {
  }

  lemma {:induction false} RemovedId(pending: seq<string>, id: string)
    requires Distinct(pending) && id in pending
    ensures ToSet(RemoveId(pending, id)) == ToSet(pending) - {id}
    ensures Distinct(RemoveId(pending, id))
  {
    DistinctHead(pending);
    assert pending == [pending[0]] + pending[1..];
    ToSetCons(pending[0], pending[1..]);
    if pending[0] != id {
      RemovedId(pending[1..], id);
      var rest := RemoveId(pending[1..], id);
      ToSetCons(pending[0], rest);
      assert RemoveId(pending, id)[1..] == rest;
      assert pending[0] !in ToSet(rest);
      DistinctHead(RemoveId(pending, id));
    }
  }

  predicate AllIdsNonEmpty(ms: seq<Message>) {
    forall m | m in ms :: NonEmptyIds(m.toolCalls)
  }

  lemma {:induction false} WriteFollows(w: Writer, m: Message)
    requires Distinct(w.pending) && NonEmptyIds(m.toolCalls) && WriteMessage(w, m).Ok?
    ensures Next(ToSet(w.pending), m) == Some(ToSet(WriteMessage(w, m).value.pending))
    ensures Distinct(WriteMessage(w, m).value.pending)
  {
    if m.role == Tool {
      RemovedId(w.pending, m.toolCallId.value);
    } else {
      assert ToSet(w.pending) == {};
      RecordedIds(m.toolCalls, [], w.seen);
      CallIdsLength(m.toolCalls);
      assert [] + CallIds(m.toolCalls) == CallIds(m.toolCalls);
    }
  }

  lemma {:induction false} WriteAllFollows(w: Writer, ms: seq<Message>)
    requires Distinct(w.pending) && AllIdsNonEmpty(ms) && WriteAll(w, ms).Ok?
    ensures After(ToSet(w.pending), ms) == Some(ToSet(WriteAll(w, ms).value.pending))
    ensures Distinct(WriteAll(w, ms).value.pending)
    decreases ms
  {
    if ms == [] {
    } else {
      WriteFollows(w, ms[0]);
      WriteAllFollows(WriteMessage(w, ms[0]).value, ms[1..]);
    }
  }

  lemma {:induction false} ClosersAnswer(pending: seq<string>, content: string)
    requires Distinct(pending)
    ensures After(ToSet(pending), Closers(pending, content)) == Some({})
  {
    if pending == [] {
      assert ToSet(pending) == {};
    } else {
      DistinctHead(pending);
      assert pending == [pending[0]] + pending[1..];
      assert ToSet(pending) - {pending[0]} == ToSet(pending[1..]);
      ClosersAnswer(pending[1..], content);
    }
  }

  /** The transcript of a turn whose calls all have non-empty ids is well formed. */
  lemma {:induction false} IntendedWellFormed(turn: seq<Message>, finalMessage: Option<string>,
          incomplete: Option<string>)
    requires Build(turn, finalMessage, incomplete).Ok? && AllIdsNonEmpty(turn)
    ensures WellFormed(Intended(turn, finalMessage, incomplete))
  {
    var pending := Unanswered(turn);
    var start := Writer([], [], {});
    assert ToSet(start.pending) == {};
    WriteAllFollows(start, turn);
    var closers := if pending == [] || incomplete.None? then [] else Closers(pending, incomplete.value);
    if pending == [] {
      assert ToSet(pending) == {};
    } else {
      ClosersAnswer(pending, incomplete.value);
    }
    AfterConcat(ToSet(pending), closers, Final(finalMessage));
    AfterConcat({}, turn, closers + Final(finalMessage));
  }

  // ----- Decoding undoes persisting, up to trimmed names -----

  lemma {:induction false} PersistedTurn(w: Writer, ms: seq<Message>)
    requires WriteAll(w, ms).Ok?
    ensures WriteAll(w, ms).value.transcript == w.transcript + PersistAll(ms)
    decreases ms
  {
    if ms == [] {
      assert w.transcript + [] == w.transcript;
    } else {
      PersistedTurn(WriteMessage(w, ms[0]).value, ms[1..]);
      assert w.transcript + [Persist(ms[0])] + PersistAll(ms[1..])
             == w.transcript + ([Persist(ms[0])] + PersistAll(ms[1..]));
    }
  }

  lemma {:induction false} PersistConcat(a: seq<Message>, b: seq<Message>)
    requires forall m | m in a + b :: Writable(m)
    ensures PersistAll(a + b) == PersistAll(a) + PersistAll(b)
  {
    if a == [] {
      assert a + b == b;
    } else {
      assert (a + b)[1..] == a[1..] + b;
      PersistConcat(a[1..], b);
    }
  }

  /** The stored transcript is the intended one, message by message. */
  lemma {:induction false} BuildStoresIntended(turn: seq<Message>, finalMessage: Option<string>,
          incomplete: Option<string>)
    requires Build(turn, finalMessage, incomplete).Ok?
    ensures Build(turn, finalMessage, incomplete).value == PersistAll(Intended(turn, finalMessage, incomplete))
    ensures turn <= Intended(turn, finalMessage, incomplete)
  {
    PersistedTurn(Writer([], [], {}), turn);
    PersistConcat(turn, Tail(Unanswered(turn), finalMessage, incomplete));
    assert [] + PersistAll(turn) == PersistAll(turn);
  }

  lemma {:induction false} CallDecodes(parse: JsonParser, call: ToolCall)
    requires call.id.Some? && call.arguments.Object? && call.name != [] && Trim(call.name) == call.name
    ensures DecodeToolCall(parse, WireCall(call)) == Some(call)
  {
  }

  lemma {:induction false} CallsDecode(parse: JsonParser, calls: seq<ToolCall>)
    requires forall c | c in calls :: c.id.Some? && c.arguments.Object?
    requires NamedProperly(calls)
    ensures DecodeToolCalls(parse, WireCalls(calls)) == calls
  {
    if calls == [] {
    } else {
      var wire := WireCalls(calls);
      assert wire[0] == WireCall(calls[0]) && wire[1..] == WireCalls(calls[1..]);
      CallsDecode(parse, calls[1..]);
      CallDecodes(parse, calls[0]);
    }
  }

  lemma {:induction false} MessageDecodes(parse: JsonParser, m: Message)
    requires Writable(m) && NamedProperly(m.toolCalls)
    ensures DecodeMessage(parse, Persist(m)) == Some(m)
  {
    CallsDecode(parse, m.toolCalls);
  }

  lemma {:induction false} MessagesDecode(parse: JsonParser, ms: seq<Message>)
    requires (forall m | m in ms :: Writable(m)) && forall c | c in Calls(ms) :: c.name != [] && Trim(c.name) == c.name
    ensures DecodeAll(parse, PersistAll(ms)) == ms
  {
    if ms == [] {
    } else {
      var stored := PersistAll(ms);
      assert stored[0] == Persist(ms[0]) && stored[1..] == PersistAll(ms[1..]);
      forall c | c in ms[0].toolCalls ensures c in Calls(ms) {
      }
      MessageDecodes(parse, ms[0]);
      MessagesDecode(parse, ms[1..]);
    }
  }

  lemma {:induction false} CallOfMessage(ms: seq<Message>, m: Message, c: ToolCall)
    requires m in ms && c in m.toolCalls
    ensures c in Calls(ms)
  {
    if m != ms[0] {
      assert m in ms[1..];
      CallOfMessage(ms[1..], m, c);
    }
  }

  lemma {:induction false} CallHasMessage(ms: seq<Message>, c: ToolCall) returns (m: Message)
    requires c in Calls(ms)
    ensures m in ms && c in m.toolCalls
  {
    if c in ms[0].toolCalls {
      m := ms[0];
    } else {
      m := CallHasMessage(ms[1..], c);
    }
  }

  lemma {:induction false} CallFree(ms: seq<Message>)
    requires forall m | m in ms :: m.toolCalls == []
    ensures Calls(ms) == {}
  {
    if ms == [] {
    } else {
      CallFree(ms[1..]);
    }
  }

  lemma {:induction false} ClosersCallFree(pending: seq<string>, content: string)
    ensures forall m | m in Closers(pending, content) :: m.toolCalls == []
  {
    if pending == [] {
    } else {
      ClosersCallFree(pending[1..], content);
    }
  }

  lemma {:induction false} IntendedCalls(turn: seq<Message>, finalMessage: Option<string>, incomplete: Option<string>)
    requires Build(turn, finalMessage, incomplete).Ok?
    ensures Calls(Intended(turn, finalMessage, incomplete)) == Calls(turn)
  {
    var tail := Tail(Unanswered(turn), finalMessage, incomplete);
    ClosersCallFree(Unanswered(turn), if incomplete.Some? then incomplete.value else []);
    CallFree(tail);
    CallsConcat(turn, tail);
  }

  lemma {:induction false} AcceptedIds(outstanding: set<string>, ms: seq<Message>, m: Message)
    requires After(outstanding, ms).Some? && m in ms && Calling(m)
    ensures NonEmptyIds(m.toolCalls)
    decreases ms
  {
    if m == ms[0] {
      CallIdsLength(m.toolCalls);
    } else {
      assert m in ms[1..];
      AcceptedIds(Next(outstanding, ms[0]).value, ms[1..], m);
    }
  }

  lemma {:induction false} CleanDecodes(parse: JsonParser, turn: seq<Message>, finalMessage: Option<string>,
          incomplete: Option<string>)
    requires Build(turn, finalMessage, incomplete).Ok? && Clean(turn)
    ensures var intended := Intended(turn, finalMessage, incomplete);
            && DecodeAll(parse, Build(turn, finalMessage, incomplete).value) == intended
            && WellFormed(intended)
  {
    BuildStoresIntended(turn, finalMessage, incomplete);
    IntendedCalls(turn, finalMessage, incomplete);
    MessagesDecode(parse, Intended(turn, finalMessage, incomplete));
    forall m, c | m in turn && c in m.toolCalls ensures c.id.Some? && c.id.value != [] {
      CallOfMessage(turn, m, c);
    }
    IntendedWellFormed(turn, finalMessage, incomplete);
  }

  /** A stored transcript reads back as the turn it was written from, with the
      closing results and the final message, exactly when every call has a
      non-empty id and a trimmed non-empty name. */
  lemma {:induction false} TranscriptReadsBack(parse: JsonParser, turn: seq<Message>, finalMessage: Option<string>,
          incomplete: Option<string>)
    requires Build(turn, finalMessage, incomplete).Ok?
    ensures ReadBack(parse, Build(turn, finalMessage, incomplete).value) == Intended(turn, finalMessage, incomplete)
            <==> Clean(turn)
  {
    var intended := Intended(turn, finalMessage, incomplete);
    var decoded := DecodeAll(parse, PersistAll(intended));
    BuildStoresIntended(turn, finalMessage, incomplete);
    IntendedCalls(turn, finalMessage, incomplete);
    if Clean(turn) {
      CleanDecodes(parse, turn, finalMessage, incomplete);
      CoherentIdentity(intended);
    } else if Coherent(decoded) == intended {
      CoherentInventsNoCall(decoded);
      CoherentWellFormed(decoded);
      forall c | c in Calls(turn) ensures c.id.Some? && c.id.value != [] && c.name != [] && Trim(c.name) == c.name {
        DecodedCallNames(parse, PersistAll(intended), c);
        var m := CallHasMessage(intended, c);
        AcceptedIds({}, intended, m);
      }
    }
  }

  /** A run's stored transcript, framed by the user messages before and after
      it, comes back verbatim in the next run's context. */
  lemma {:induction false} NextRunSeesTranscript(parse: JsonParser, older: seq<HistoryMessage>, asked: HistoryMessage,
          turn: seq<Message>, finalMessage: Option<string>, incomplete: Option<string>, next: HistoryMessage)
    requires Build(turn, finalMessage, incomplete).Ok? && Clean(turn)
    requires asked.role == "user" && Asks(next)
    ensures var transcript := Build(turn, finalMessage, incomplete).value;
            DurableHistoryBeforeCurrent(parse, older + [asked] + transcript + [next], next.content) ==
            Coherent(DecodeAll(parse, older)) + [DecodeMessage(parse, asked).value]
                + Intended(turn, finalMessage, incomplete)
  {
    var transcript := Build(turn, finalMessage, incomplete).value;
    var intended := Intended(turn, finalMessage, incomplete);
    var user := DecodeMessage(parse, asked).value;
    var stored := older + [asked] + transcript;
    assert stored + [next] == stored + [next] + [];
    DurableHistoryStopsAtCurrent(parse, stored, next, []);
    StoredDecodes(parse, older, asked, transcript);
    CleanDecodes(parse, turn, finalMessage, incomplete);
    FramedCoherent(DecodeAll(parse, older), user, intended);
  }

  lemma {:induction false} StoredDecodes(parse: JsonParser, older: seq<HistoryMessage>, asked: HistoryMessage,
          transcript: seq<HistoryMessage>)
    requires asked.role == "user"
    ensures DecodeMessage(parse, asked).Some? && DecodeMessage(parse, asked).value.role == User
    ensures DecodeAll(parse, older + [asked] + transcript) ==
            DecodeAll(parse, older) + [DecodeMessage(parse, asked).value] + DecodeAll(parse, transcript)
  {
    DecodeConcat(parse, older + [asked], transcript);
    DecodeConcat(parse, older, [asked]);
    assert [asked][1..] == [];
  }

  lemma {:induction false} FramedCoherent(older: seq<Message>, user: Message, turn: seq<Message>)
    requires user.role == User && WellFormed(turn)
    ensures Coherent(older + [user] + turn) == Coherent(older) + [user] + turn
  {
    assert [user][1..] == [] && WellFormed([user]);
    CoherentIdentity([user]);
    CoherentIdentity(turn);
    CoherentConcat(older, [user]);
    assert turn != [] ==> turn[0].role != Tool by {
      assert turn != [] ==> Next({}, turn[0]).Some?;
    }
    CoherentConcat(older + [user], turn);
  }

  // ----- Which turns are accepted -----

  /** The ids of all calls, in order. */
  function AskedIds(ms: seq<Message>): seq<string> {
    if ms == [] then [] else IdsOf(ms[0].toolCalls) + AskedIds(ms[1..])
  }

  function IdsOf(calls: seq<ToolCall>): seq<string> {
    if calls == [] then [] else (if calls[0].id.Some? then [calls[0].id.value] else []) + IdsOf(calls[1..])
  }

  function ResultIds(ms: seq<Message>): set<string> {
    set m | m in ms && m.role == Tool && m.toolCallId.Some? :: m.toolCallId.value
  }

  function Except(ids: seq<string>, gone: set<string>): seq<string> {
    if ids == [] then [] else (if ids[0] in gone then [] else [ids[0]]) + Except(ids[1..], gone)
  }

  /** The calls that have no result yet, in call order. */
  function Waiting(ms: seq<Message>): seq<string> {
    Except(AskedIds(ms), ResultIds(ms))
  }

  /** Call `k` of a message is fine after what came before it. */
  predicate FineCall(before: seq<Message>, calls: seq<ToolCall>, k: nat)
    requires k < |calls|
  {
    && calls[k].id.Some? && calls[k].arguments.Object? && calls[k].id.value !in AskedIds(before)
    && forall j | 0 <= j < k :: calls[j].id != calls[k].id
  }

  predicate FineCalls(before: seq<Message>, calls: seq<ToolCall>, n: nat)
    requires n <= |calls|
  {
    forall k | 0 <= k < n :: FineCall(before, calls, k)
  }

  /** Message `m` may follow the turn so far: an assistant message, with fresh
      calls, once nothing is waiting, or the result of a waiting call. */
  predicate Fits(before: seq<Message>, m: Message) {
    && FineCalls(before, m.toolCalls, |m.toolCalls|)
    && match m.role
       case Assistant => Waiting(before) == [] && m.toolCallId.None?
       case Tool => m.toolCalls == [] && m.toolCallId.Some? && m.toolCallId.value in Waiting(before)
       case _ => false
  }

  predicate Accepted(turn: seq<Message>) {
    forall i | 0 <= i < |turn| :: Fits(turn[..i], turn[i])
  }

  /** What is wrong with message `m` when the turn so far was accepted. */
  predicate Faulty(before: seq<Message>, m: Message, e: BuildError) {
    var calls := m.toolCalls;
    if m.role == System || m.role == User then e == NonTerminalRole
    else if m.role == Assistant && Waiting(before) != [] then e == UnfinishedBatch
    else if !FineCalls(before, calls, |calls|) then
      exists k | 0 <= k < |calls| ::
        && FineCalls(before, calls, k) && !FineCall(before, calls, k)
        && e == (if calls[k].id.None? then MissingCallId
                 else if !calls[k].arguments.Object? then NonObjectArguments
                 else ReusedCallId)
    else if m.role == Assistant then m.toolCallId.Some? && e == ResultIdOnAssistant
    else if calls != [] then e == CallsOnResult
    else if m.toolCallId.None? then e == MissingResultId
    else m.toolCallId.value !in Waiting(before) && e == UnknownResultId
  }

  lemma {:induction false} AskedIdsSnoc(ms: seq<Message>, m: Message)
    ensures AskedIds(ms + [m]) == AskedIds(ms) + IdsOf(m.toolCalls)
  {
    if ms == [] {
      assert ([] + [m])[1..] == [];
    } else {
      assert (ms + [m])[1..] == ms[1..] + [m];
      AskedIdsSnoc(ms[1..], m);
    }
  }

  lemma {:induction false} ExceptConcat(a: seq<string>, b: seq<string>, gone: set<string>)
    ensures Except(a + b, gone) == Except(a, gone) + Except(b, gone)
  {
    if a == [] {
      assert a + b == b;
    } else {
      assert (a + b)[1..] == a[1..] + b;
      ExceptConcat(a[1..], b, gone);
    }
  }

  lemma {:induction false} ExceptFree(ids: seq<string>, gone: set<string>)
    requires forall id | id in ids :: id !in gone
    ensures Except(ids, gone) == ids
  {
    if ids == [] {
    } else {
      ExceptFree(ids[1..], gone);
    }
  }

  lemma {:induction false} ExceptMembers(ids: seq<string>, gone: set<string>)
    ensures forall id :: id in Except(ids, gone) <==> id in ids && id !in gone
  {
    if ids == [] {
    } else {
      ExceptMembers(ids[1..], gone);
    }
  }

  lemma {:induction false} ExceptOne(ids: seq<string>, gone: set<string>, id: string)
    requires Distinct(ids) && id !in gone
    ensures Except(ids, gone + {id}) == RemoveId(Except(ids, gone), id)
  {
    if ids == [] {
    } else {
      DistinctHead(ids);
      ExceptOne(ids[1..], gone, id);
      var rest := Except(ids[1..], gone);
      assert [] + rest == rest && ([ids[0]] + rest)[1..] == rest;
      if ids[0] == id { ExceptSame(ids[1..], gone, id); }
    }
  }

  lemma {:induction false} ExceptSame(ids: seq<string>, gone: set<string>, id: string)
    requires id !in ids
    ensures Except(ids, gone + {id}) == Except(ids, gone)
  {
    if ids == [] {
    } else {
      ExceptSame(ids[1..], gone, id);
    }
  }

  lemma {:induction false} IdsOfPart(calls: seq<ToolCall>, k: nat)
    requires k < |calls|
    ensures IdsOf(calls[..k + 1]) == IdsOf(calls[..k]) + if calls[k].id.Some? then [calls[k].id.value] else []
    ensures IdsOf(calls[k..]) == (if calls[k].id.Some? then [calls[k].id.value] else []) + IdsOf(calls[k + 1..])
  {
    assert calls[k..][1..] == calls[k + 1..];
    if k == 0 {
      assert calls[..1][1..] == [];
    } else {
      assert calls[..k][1..] == calls[1..][..k - 1] && calls[..k + 1][1..] == calls[1..][..k];
      IdsOfPart(calls[1..], k - 1);
    }
  }

  lemma {:induction false} IdsOfMembers(calls: seq<ToolCall>)
    ensures forall id :: id in IdsOf(calls) <==> exists j | 0 <= j < |calls| :: calls[j].id == Some(id)
  {
    if calls == [] {
    } else {
      IdsOfMembers(calls[1..]);
      forall id ensures id in IdsOf(calls) <==> exists j | 0 <= j < |calls| :: calls[j].id == Some(id) {
        if j :| 0 <= j < |calls| && calls[j].id == Some(id) {
          if j > 0 { assert calls[1..][j - 1] == calls[j]; }
        }
        if id in IdsOf(calls[1..]) {
          var j :| 0 <= j < |calls[1..]| && calls[1..][j].id == Some(id);
          assert calls[j + 1].id == Some(id);
        }
      }
    }
  }

  lemma {:induction false} NoIds()
    ensures IdsOf([]) == []
  {
  }

  /** The calls from `k` on are recorded if and only if they are all fine;
      otherwise the first one that is not gives the error. */
  lemma {:induction false} RecordsFine(before: seq<Message>, calls: seq<ToolCall>, k: nat, pending: seq<string>,
          seen: set<string>)
    requires k <= |calls| && FineCalls(before, calls, k)
    requires seen == ToSet(AskedIds(before) + IdsOf(calls[..k])) && Distinct(AskedIds(before) + IdsOf(calls[..k]))
    ensures var r := RecordCalls(calls[k..], pending, seen);
            && (r.Ok? <==> FineCalls(before, calls, |calls|))
            && (r.Ok? ==> r.value == (pending + IdsOf(calls[k..]), ToSet(AskedIds(before) + IdsOf(calls)))
                          && Distinct(AskedIds(before) + IdsOf(calls)))
            && (r.Err? ==> exists j | 0 <= j < |calls| ::
                  && FineCalls(before, calls, j) && !FineCall(before, calls, j)
                  && r.error == (if calls[j].id.None? then MissingCallId
                                 else if !calls[j].arguments.Object? then NonObjectArguments
                                 else ReusedCallId))
    decreases |calls| - k
  {
    hide AskedIds, IdsOf;
    if k == |calls| {
      assert calls[k..] == [] && calls[..k] == calls && pending + [] == pending;
      NoIds();
    } else {
      assert calls[k..][0] == calls[k] && calls[k..][1..] == calls[k + 1..];
      IdsOfPart(calls, k);
      IdsOfMembers(calls[..k]);
      assert forall j | 0 <= j < k :: calls[..k][j] == calls[j];
      if FineCall(before, calls, k) {
        var id, ids := calls[k].id.value, AskedIds(before) + IdsOf(calls[..k]);
        assert AskedIds(before) + IdsOf(calls[..k + 1]) == ids + [id];
        assert id !in ids;
        assert ToSet(ids + [id]) == seen + {id};
        assert FineCalls(before, calls, k + 1);
        RecordsFine(before, calls, k + 1, pending + [id], seen + {id});
        assert pending + [id] + IdsOf(calls[k + 1..]) == pending + IdsOf(calls[k..]);
      }
    }
  }

  /** The writer after the messages `before`. */
  predicate Wrote(w: Writer, before: seq<Message>) {
    && w.pending == Waiting(before) && w.seen == ToSet(AskedIds(before)) && Distinct(AskedIds(before))
    && ResultIds(before) <= w.seen
  }

  lemma {:induction false} DistinctApart(a: seq<string>, b: seq<string>)
    requires Distinct(a + b)
    ensures Distinct(a) && Distinct(b) && forall id | id in b :: id !in a
  {
    assert forall i | 0 <= i < |a| :: (a + b)[i] == a[i];
    assert forall i | 0 <= i < |b| :: (a + b)[|a| + i] == b[i];
  }

  lemma {:induction false} WaitingAfterCalls(before: seq<Message>, m: Message)
    requires m.role != Tool && Waiting(before) == []
    requires Distinct(AskedIds(before) + IdsOf(m.toolCalls)) && ResultIds(before) <= ToSet(AskedIds(before))
    ensures Waiting(before + [m]) == IdsOf(m.toolCalls) && ResultIds(before + [m]) == ResultIds(before)
  {
    var ids := IdsOf(m.toolCalls);
    assert forall x :: x in before + [m] <==> x in before || x == m;
    AskedIdsSnoc(before, m);
    ExceptConcat(AskedIds(before), ids, ResultIds(before));
    DistinctApart(AskedIds(before), ids);
    ExceptFree(ids, ResultIds(before));
    assert ResultIds(before + [m]) == ResultIds(before) && [] + ids == ids;
  }

  lemma {:induction false} WaitingAfterResult(before: seq<Message>, m: Message)
    requires m.role == Tool && m.toolCalls == [] && m.toolCallId.Some? && m.toolCallId.value in Waiting(before)
    requires Distinct(AskedIds(before))
    ensures Waiting(before + [m]) == RemoveId(Waiting(before), m.toolCallId.value)
    ensures AskedIds(before + [m]) == AskedIds(before) && m.toolCallId.value in AskedIds(before)
    ensures ResultIds(before + [m]) == ResultIds(before) + {m.toolCallId.value}
  {
    assert forall x :: x in before + [m] <==> x in before || x == m;
    assert ResultIds(before + [m]) == ResultIds(before) + {m.toolCallId.value};
    AskedIdsSnoc(before, m);
    assert AskedIds(before) + [] == AskedIds(before);
    ExceptMembers(AskedIds(before), ResultIds(before));
    ExceptOne(AskedIds(before), ResultIds(before), m.toolCallId.value);
  }

  lemma {:induction false} WritesFit(w: Writer, before: seq<Message>, m: Message)
    requires Wrote(w, before)
    ensures var r := WriteMessage(w, m);
            && (r.Ok? <==> Fits(before, m))
            && (r.Ok? ==> Wrote(r.value, before + [m]))
            && (r.Err? ==> Faulty(before, m, r.error))
  {
    hide Persist, RemoveId, Waiting, ResultIds, Except, FineCall;
    var calls := m.toolCalls;
    assert calls[0..] == calls && calls[..0] == [] && AskedIds(before) + IdsOf(calls[..0]) == AskedIds(before);
    RecordsFine(before, calls, 0, w.pending, w.seen);
    AskedIdsSnoc(before, m);
    assert [] + IdsOf(calls) == IdsOf(calls);
    if Fits(before, m) {
      if m.role == Tool {
        WaitingAfterResult(before, m);
      } else {
        WaitingAfterCalls(before, m);
      }
    }
  }

  lemma {:induction false} WriteAllSnoc(w: Writer, ms: seq<Message>, m: Message)
    ensures WriteAll(w, ms + [m]) ==
            if WriteAll(w, ms).Err? then WriteAll(w, ms) else WriteMessage(WriteAll(w, ms).value, m)
    decreases ms
  {
    if ms == [] {
      assert ([] + [m])[1..] == [];
    } else {
      assert (ms + [m])[1..] == ms[1..] + [m];
      if WriteMessage(w, ms[0]).Ok? { WriteAllSnoc(WriteMessage(w, ms[0]).value, ms[1..], m); }
    }
  }

  /** Where a rejected turn goes wrong, and how. */
  predicate Fails(turn: seq<Message>, i: nat, e: BuildError)
    requires i < |turn|
  {
    Accepted(turn[..i]) && Faulty(turn[..i], turn[i], e)
  }

  lemma {:induction false} AcceptedSnoc(ms: seq<Message>, m: Message)
    ensures Accepted(ms + [m]) <==> Accepted(ms) && Fits(ms, m)
  {
    hide Fits;
    var all := ms + [m];
    assert all[..|ms|] == ms && all[|ms|] == m;
    assert forall i | 0 <= i < |ms| :: all[..i] == ms[..i] && all[i] == ms[i];
  }

  lemma {:induction false} WritesAccepted(ms: seq<Message>)
    ensures var r := WriteAll(Writer([], [], {}), ms);
            && (r.Ok? <==> Accepted(ms))
            && (r.Ok? ==> Wrote(r.value, ms))
            && (r.Err? ==> exists i | 0 <= i < |ms| :: Fails(ms, i, r.error))
  {
    hide WriteMessage, Fits, Faulty, WriteAll;
    if ms == [] {
      WritesNothing();
    } else {
      var n := |ms| - 1;
      var front, last := ms[..n], ms[n];
      assert ms == front + [last];
      WritesAccepted(front);
      WriteAllSnoc(Writer([], [], {}), front, last);
      AcceptedSnoc(front, last);
      var r := WriteAll(Writer([], [], {}), front);
      if r.Ok? {
        WritesFit(r.value, front, last);
        if WriteMessage(r.value, last).Err? { assert Fails(ms, n, WriteMessage(r.value, last).error); }
      } else {
        var i :| 0 <= i < |front| && Fails(front, i, r.error);
        assert front[..i] == ms[..i] && front[i] == ms[i];
        assert Fails(ms, i, r.error);
      }
    }
  }

  lemma {:induction false} WritesNothing()
    ensures WriteAll(Writer([], [], {}), []) == Ok(Writer([], [], {})) && Wrote(Writer([], [], {}), [])
  {
    assert ToSet<string>([]) == {};
  }

  /** A turn is written exactly when every message fits what came before it and
      nothing is left waiting that cannot be closed. */
  lemma {:induction false} BuildAcceptsIff(turn: seq<Message>, finalMessage: Option<string>, incomplete: Option<string>)
    ensures Build(turn, finalMessage, incomplete).Ok? <==> Accepted(turn) && (Waiting(turn) == [] || incomplete.Some?)
  {
    WritesAccepted(turn);
  }

  lemma {:induction false} FaultyOnce(before: seq<Message>, m: Message, e: BuildError, other: BuildError)
    requires Faulty(before, m, e)
    ensures !Fits(before, m) && (Faulty(before, m, other) ==> other == e)
  {
    hide FineCall, Waiting;
    var calls := m.toolCalls;
    forall j, k | 0 <= j < |calls| && 0 <= k < |calls| && FineCalls(before, calls, j) && !FineCall(before, calls, j)
                  && FineCalls(before, calls, k) && !FineCall(before, calls, k)
      ensures j == k
    {
    }
  }

  lemma {:induction false} FailsOnce(turn: seq<Message>, i: nat, e: BuildError, j: nat, other: BuildError)
    requires i < |turn| && Fails(turn, i, e) && j < |turn| && Fails(turn, j, other)
    ensures i == j && e == other && !Accepted(turn)
  {
    hide Faulty, Fits;
    FaultyOnce(turn[..i], turn[i], e, other);
    FaultyOnce(turn[..j], turn[j], other, e);
    if i < j { EarlierFits(turn, i, j); }
    if j < i { EarlierFits(turn, j, i); }
  }

  lemma {:induction false} EarlierFits(turn: seq<Message>, i: nat, j: nat)
    requires i < j < |turn| && Accepted(turn[..j])
    ensures Fits(turn[..i], turn[i])
  {
    assert turn[..j][..i] == turn[..i] && turn[..j][i] == turn[i];
  }

  /** Which error a rejected turn gives: that of its first message that does not
      fit, or the calls left without a result. */
  lemma {:induction false} BuildErrorIff(turn: seq<Message>, finalMessage: Option<string>, incomplete: Option<string>,
          e: BuildError)
    ensures Build(turn, finalMessage, incomplete) == Err(e) <==>
            || (Accepted(turn) && Waiting(turn) != [] && incomplete.None? && e == UnansweredCalls)
            || exists i | 0 <= i < |turn| :: Fails(turn, i, e)
  {
    hide Fails, Accepted, Waiting, WriteAll;
    WritesAccepted(turn);
    var written := WriteAll(Writer([], [], {}), turn);
    if i :| 0 <= i < |turn| && Fails(turn, i, e) {
      FailsOnce(turn, i, e, i, e);
      var j :| 0 <= j < |turn| && Fails(turn, j, written.error);
      FailsOnce(turn, i, e, j, written.error);
    }
  }

  lemma {:induction false} IdsOfIndex(calls: seq<ToolCall>)
    requires forall c | c in calls :: c.id.Some?
    ensures |IdsOf(calls)| == |calls| && forall k | 0 <= k < |calls| :: IdsOf(calls)[k] == calls[k].id.value
  {
    if calls == [] {
    } else {
      IdsOfIndex(calls[1..]);
    }
  }

  lemma {:induction false} IdsAreCallIds(calls: seq<ToolCall>)
    requires forall c | c in calls :: c.id != Some("")
    ensures CallIds(calls) == IdsOf(calls)
  {
    if calls == [] {
    } else {
      IdsAreCallIds(calls[1..]);
    }
  }

  lemma {:induction false} ExceptDistinct(ids: seq<string>, gone: set<string>)
    requires Distinct(ids)
    ensures Distinct(Except(ids, gone))
  {
    if ids == [] {
    } else {
      DistinctHead(ids);
      ExceptDistinct(ids[1..], gone);
      ExceptMembers(ids[1..], gone);
      if ids[0] !in gone {
        assert Except(ids, gone)[1..] == Except(ids[1..], gone);
        DistinctHead(Except(ids, gone));
      }
    }
  }

  lemma {:induction false} FineIffDistinct(before: seq<Message>, calls: seq<ToolCall>)
    requires Distinct(AskedIds(before))
    ensures FineCalls(before, calls, |calls|) <==>
            && (forall c | c in calls :: c.id.Some? && c.arguments.Object?)
            && Distinct(AskedIds(before) + IdsOf(calls))
  {
    var asked, ids := AskedIds(before), IdsOf(calls);
    if FineCalls(before, calls, |calls|) {
      assert calls[0..] == calls && calls[..0] == [] && asked + IdsOf(calls[..0]) == asked;
      RecordsFine(before, calls, 0, [], ToSet(asked));
      forall c | c in calls ensures c.id.Some? && c.arguments.Object? {
        var k :| 0 <= k < |calls| && calls[k] == c;
        assert FineCall(before, calls, k);
      }
    } else if (forall c | c in calls :: c.id.Some? && c.arguments.Object?) && Distinct(asked + ids) {
      IdsOfIndex(calls);
      DistinctApart(asked, ids);
      forall k | 0 <= k < |calls| ensures FineCall(before, calls, k) {
        assert (asked + ids)[|asked| + k] == calls[k].id.value;
        forall j | 0 <= j < k ensures calls[j].id != calls[k].id {
          assert (asked + ids)[|asked| + j] == calls[j].id.value;
        }
        assert ids[k] in ids;
      }
    }
  }

  lemma {:induction false} LastFollows(front: seq<Message>, last: Message)
    requires Distinct(AskedIds(front)) && ResultIds(front) <= ToSet(AskedIds(front))
    requires forall c | c in last.toolCalls :: c.id != Some("")
    ensures Fits(front, last) <==>
            && Writable(last) && Distinct(AskedIds(front) + IdsOf(last.toolCalls))
            && Next(ToSet(Waiting(front)), last).Some?
    ensures Fits(front, last) ==>
              Next(ToSet(Waiting(front)), last) == Some(ToSet(Waiting(front + [last])))
  {
    assert Waiting(front) != [] ==> Waiting(front)[0] in ToSet(Waiting(front));
    FineIffDistinct(front, last.toolCalls);
    IdsAreCallIds(last.toolCalls);
    if Distinct(AskedIds(front) + IdsOf(last.toolCalls)) { DistinctApart(AskedIds(front), IdsOf(last.toolCalls)); }
    CallIdsLength(last.toolCalls);
    if last.role == Tool {
      if Fits(front, last) {
        WaitingAfterResult(front, last);
        ExceptDistinct(AskedIds(front), ResultIds(front));
        RemovedId(Waiting(front), last.toolCallId.value);
      }
      assert AskedIds(front) + [] == AskedIds(front);
    } else if Fits(front, last) {
      WaitingAfterCalls(front, last);
    }
  }

  /** The same in terms of the reader: with no empty id, a turn is accepted
      exactly when its messages can be written, no id is used twice, and the
      history automaton follows it. */
  lemma {:induction false} AcceptedFollows(turn: seq<Message>)
    requires forall m, c | m in turn && c in m.toolCalls :: c.id != Some("")
    ensures Accepted(turn) <==>
            (forall m | m in turn :: Writable(m)) && Distinct(AskedIds(turn)) && After({}, turn).Some?
    ensures Accepted(turn) ==> After({}, turn) == Some(ToSet(Waiting(turn)))
  {
    if turn == [] {
      assert ToSet(Waiting([])) == {};
    } else {
      var n := |turn| - 1;
      var front, last := turn[..n], turn[n];
      assert turn == front + [last];
      assert forall m :: m in turn <==> m in front || m == last;
      AcceptedFollows(front);
      AcceptedSnoc(front, last);
      AfterConcat({}, front, [last]);
      assert After({}, front).Some? ==> After(After({}, front).value, [last]) == Next(After({}, front).value, last) by {
        assert [last][1..] == [];
      }
      AskedIdsSnoc(front, last);
      if Accepted(front) {
        WritesAccepted(front);
        LastFollows(front, last);
      } else if Distinct(AskedIds(turn)) {
        DistinctApart(AskedIds(front), IdsOf(last.toolCalls));
      }
    }
  }

  // ----- What is written, entry by entry -----

  /** The stored calls of a message are JSON objects of three fields, in order. */
  predicate StoresCalls(stored: seq<Value>, calls: seq<ToolCall>) {
    && |stored| == |calls|
    && forall k | 0 <= k < |calls| ::
         && calls[k].id.Some?
         && stored[k] == Object(map["id" := String(calls[k].id.value), "name" := String(calls[k].name),
                                    "arguments" := calls[k].arguments])
  }

  predicate StoresMessage(stored: HistoryMessage, m: Message) {
    && stored.role == (if m.role == Tool then "tool" else "assistant") && stored.content == m.content
    && stored.toolCallId == m.toolCallId && StoresCalls(stored.toolCalls, m.toolCalls)
  }

  lemma {:induction false} WireCallsStore(calls: seq<ToolCall>)
    requires forall c | c in calls :: c.id.Some?
    ensures StoresCalls(WireCalls(calls), calls)
  {
    if calls == [] {
    } else {
      WireCallsStore(calls[1..]);
    }
  }

  lemma {:induction false} PersistAllIndex(ms: seq<Message>)
    requires forall m | m in ms :: Writable(m)
    ensures |PersistAll(ms)| == |ms| && forall i | 0 <= i < |ms| :: StoresMessage(PersistAll(ms)[i], ms[i])
  {
    if ms == [] {
    } else {
      assert Writable(ms[0]);
      WireCallsStore(ms[0].toolCalls);
      PersistAllIndex(ms[1..]);
    }
  }

  lemma {:induction false} ClosersIndex(pending: seq<string>, content: string)
    ensures |Closers(pending, content)| == |pending|
    ensures forall j | 0 <= j < |pending| ::
              Closers(pending, content)[j] == Message(Tool, content, Some(pending[j]), [])
  {
    if pending == [] {
    } else {
      ClosersIndex(pending[1..], content);
    }
  }

  lemma {:induction false} StoresPlain(stored: HistoryMessage, m: Message)
    requires StoresMessage(stored, m) && m.toolCalls == []
    ensures stored == HistoryMessage(if m.role == Tool then "tool" else "assistant", m.content, [], m.toolCallId)
  {
  }

  /** The stored transcript holds the messages of the turn, then one closing
      result for each waiting call in call order, then the final message. */
  lemma {:induction false} BuildWrites(turn: seq<Message>, finalMessage: Option<string>, incomplete: Option<string>)
    requires Build(turn, finalMessage, incomplete).Ok?
    ensures var stored, waiting := Build(turn, finalMessage, incomplete).value, Waiting(turn);
            && |stored| == |turn| + |waiting| + (if finalMessage.Some? then 1 else 0)
            && (forall i | 0 <= i < |turn| :: StoresMessage(stored[i], turn[i]))
            && (waiting != [] ==> incomplete.Some?)
            && (forall j | 0 <= j < |waiting| ::
                  stored[|turn| + j] == HistoryMessage("tool", incomplete.value, [], Some(waiting[j])))
            && (finalMessage.Some? ==>
                  stored[|stored| - 1] == HistoryMessage("assistant", finalMessage.value, [], None))
  {
    var all, waiting := Intended(turn, finalMessage, incomplete), Waiting(turn);
    BuildStoresIntended(turn, finalMessage, incomplete);
    WritesAccepted(turn);
    var closers := if waiting == [] || incomplete.None? then [] else Closers(waiting, incomplete.value);
    if waiting != [] { ClosersIndex(waiting, incomplete.value); }
    PersistAllIndex(all);
    var stored := PersistAll(all);
    assert all == turn + (closers + Final(finalMessage)) && |closers| == |waiting|;
    hide Build, Intended, PersistAll, Waiting, Closers, WriteAll, Writable, StoresMessage, Accepted, Wrote;
    forall i | 0 <= i < |turn| ensures StoresMessage(stored[i], turn[i]) {
      assert all[i] == turn[i];
    }
    forall j | 0 <= j < |waiting|
      ensures stored[|turn| + j] == HistoryMessage("tool", incomplete.value, [], Some(waiting[j]))
    {
      assert all[|turn| + j] == closers[j];
      StoresPlain(stored[|turn| + j], closers[j]);
    }
    if finalMessage.Some? {
      assert all[|all| - 1] == Message(Assistant, finalMessage.value, None, []);
      StoresPlain(stored[|all| - 1], all[|all| - 1]);
    }
  }

  // ----- The loop itself -----

  method BuildTerminalTranscriptMessages(turn: seq<Message>, finalMessage: Option<string>, incomplete: Option<string>)
    returns (r: Result<seq<HistoryMessage>, BuildError>)
    ensures r == Build(turn, finalMessage, incomplete)
  {
    var transcript: seq<HistoryMessage>, pending: seq<string>, seen: set<string> := [], [], {};
    ghost var rest := turn;
    for i := 0 to |turn|
      invariant rest == turn[i..]
      invariant WriteAll(Writer(transcript, pending, seen), rest) == WriteAll(Writer([], [], {}), turn)
    {
      var message := turn[i];
      ghost var before := Writer(transcript, pending, seen);
      assert rest == [message] + turn[i + 1..] && rest[1..] == turn[i + 1..];
      rest := rest[1..];
      if message.role == System || message.role == User {
        return Err(NonTerminalRole);
      }
      if message.role == Assistant && pending != [] {
        return Err(UnfinishedBatch);
      }
      var toolCalls: seq<Value>;
      var recorded := RecordToolCalls(message.toolCalls, pending, seen);
      if recorded.Err? {
        return Err(recorded.error);
      }
      toolCalls, pending, seen := recorded.value.0, recorded.value.1, recorded.value.2;
      if message.role == Tool {
        if toolCalls != [] {
          return Err(CallsOnResult);
        }
        if message.toolCallId.None? {
          return Err(MissingResultId);
        }
        var index := Position(pending, message.toolCallId.value);
        if index.None? {
          return Err(UnknownResultId);
        }
        RemoveAt(pending, index.value);
        pending := pending[..index.value] + pending[index.value + 1..];
        transcript := transcript + [HistoryMessage("tool", message.content, [], message.toolCallId)];
      } else {
        if message.toolCallId.Some? {
          return Err(ResultIdOnAssistant);
        }
        transcript := transcript + [HistoryMessage("assistant", message.content, toolCalls, None)];
      }
      assert WriteMessage(before, message) == Ok(Writer(transcript, pending, seen));
    }

    assert WriteAll(Writer(transcript, pending, seen), []) == WriteAll(Writer([], [], {}), turn);
    r := CloseTranscript(transcript, pending, finalMessage, incomplete);
  }

  /** The end of the function: close a batch left open, add the final message. */
  method CloseTranscript(written: seq<HistoryMessage>, pending: seq<string>, finalMessage: Option<string>,
          incomplete: Option<string>)
    returns (r: Result<seq<HistoryMessage>, BuildError>)
    ensures r == if pending != [] && incomplete.None? then Err(UnansweredCalls)
                 else Ok(written + PersistAll(Tail(pending, finalMessage, incomplete)))
  {
    var transcript := written;
    ghost var content := if incomplete.Some? then incomplete.value else [];
    ghost var closers := if pending == [] then [] else Closers(pending, content);
    ClosersWritable(pending, if incomplete.Some? then incomplete.value else []);
    if pending != [] {
      if incomplete.None? {
        return Err(UnansweredCalls);
      }
      transcript := CloseBatch(transcript, pending, incomplete.value);
    }
    assert transcript == written + PersistAll(closers);
    PersistConcat(closers, Final(finalMessage));
    if finalMessage.Some? {
      assert Final(finalMessage)[1..] == [];
      transcript := transcript + [HistoryMessage("assistant", finalMessage.value, [], None)];
    }
    assert transcript == written + PersistAll(closers) + PersistAll(Final(finalMessage));
    assert transcript == written + PersistAll(Tail(pending, finalMessage, incomplete));
    r := Ok(transcript);
  }

  /** One result for each call that never got one, in call order. */
  method CloseBatch(written: seq<HistoryMessage>, pending: seq<string>, content: string)
    returns (transcript: seq<HistoryMessage>)
    ensures forall m | m in Closers(pending, content) :: Writable(m)
    ensures transcript == written + PersistAll(Closers(pending, content))
  {
    transcript := written;
    ClosersWritable(pending, content);
    ghost var left := pending;
    for i := 0 to |pending|
      invariant left == pending[i..]
      invariant forall m | m in Closers(left, content) :: Writable(m)
      invariant transcript + PersistAll(Closers(left, content)) == written + PersistAll(Closers(pending, content))
    {
      assert left == [pending[i]] + pending[i + 1..] && left[1..] == pending[i + 1..];
      left := left[1..];
      ClosersWritable(left, content);
      transcript := transcript + [HistoryMessage("tool", content, [], Some(pending[i]))];
    }
    assert transcript + [] == transcript;
  }

  /** The closure mapped over a message's tool calls; it stops at the first error. */
  method RecordToolCalls(calls: seq<ToolCall>, pending: seq<string>, seen: set<string>)
    returns (r: Result<(seq<Value>, seq<string>, set<string>), BuildError>)
    ensures var spec := RecordCalls(calls, pending, seen);
            if spec.Err? then r == Err(spec.error)
            else (forall c | c in calls :: c.id.Some?) && r == Ok((WireCalls(calls), spec.value.0, spec.value.1))
  {
    var wire: seq<Value>, waiting, used := [], pending, seen;
    ghost var rest := calls;
    for i := 0 to |calls|
      invariant rest == calls[i..]
      invariant RecordCalls(rest, waiting, used) == RecordCalls(calls, pending, seen)
      invariant forall c | c in calls[..i] :: c.id.Some?
      invariant wire == WireCalls(calls[..i])
    {
      var call := calls[i];
      assert rest == [call] + calls[i + 1..] && rest[1..] == calls[i + 1..];
      rest := rest[1..];
      if call.id.None? {
        return Err(MissingCallId);
      }
      if !call.arguments.Object? {
        return Err(NonObjectArguments);
      }
      if call.id.value in used {
        return Err(ReusedCallId);
      }
      used := used + {call.id.value};
      waiting := waiting + [call.id.value];
      assert calls[..i + 1] == calls[..i] + [call];
      WireCallsSnoc(calls[..i], call);
      wire := wire + [WireCall(call)];
    }
    assert calls[..|calls|] == calls;
    r := Ok((wire, waiting, used));
  }

  lemma {:induction false} WireCallsSnoc(calls: seq<ToolCall>, call: ToolCall)
    requires forall c | c in calls + [call] :: c.id.Some?
    ensures forall c | c in calls :: c in calls + [call]
    ensures WireCalls(calls + [call]) == WireCalls(calls) + [WireCall(call)]
  {
    if calls == [] {
      assert calls + [call] == [call];
    } else {
      assert (calls + [call])[1..] == calls[1..] + [call];
      WireCallsSnoc(calls[1..], call);
    }
  }

  method Position(pending: seq<string>, id: string) returns (index: Option<nat>)
    ensures index.None? <==> id !in pending
    ensures index.Some? ==> index.value < |pending| && pending[index.value] == id && id !in pending[..index.value]
  {
    for i := 0 to |pending|
      invariant id !in pending[..i]
    {
      if pending[i] == id {
        return Some(i);
      }
    }
    index := None;
  }

  lemma {:induction false} RemoveAt(pending: seq<string>, index: nat)
    requires index < |pending| && pending[index] !in pending[..index]
    ensures pending[..index] + pending[index + 1..] == RemoveId(pending, pending[index])
  {
    if index == 0 {
    } else {
      assert pending[0] in pending[..index];
      assert pending[1..][..index - 1] == pending[1..index];
      RemoveAt(pending[1..], index - 1);
      assert pending[..index] + pending[index + 1..]
             == [pending[0]] + (pending[1..][..index - 1] + pending[1..][index..]);
    }
  }
}
