/**
 Normalization of the durable conversation history before it is handed to the
 engine (containers/agent/src/engine_support.rs): tool batches that are not
 answered in full are reduced to plain text, orphan results are dropped.
 */
module History {
  import opened Wrappers
  import opened Collections
  import opened Conversation

  predicate Calling(m: Message) {
    m.role == Assistant && m.toolCalls != []
  }

  /** The non-empty correlation ids of a batch, in call order. */
  function CallIds(calls: seq<ToolCall>): seq<string> {
    if calls == [] then []
    else (if calls[0].id.Some? && calls[0].id.value != [] then [calls[0].id.value] else []) + CallIds(calls[1..])
  }

  /** An assistant message with tool calls, the results kept for it so far, and
      the ids these results answer. */
  datatype Batch = Batch(call: Message, matched: seq<Message>, seen: set<string>)
  {
    function Expected(): set<string> { ToSet(CallIds(call.toolCalls)) }

    /** Keeps the first result for each expected id. */
    function Extend(result: Message): Batch {
      if result.toolCallId.Some? && result.toolCallId.value in Expected() && result.toolCallId.value !in seen
      then Batch(call, matched + [result], seen + {result.toolCallId.value})
      else this
    }

    predicate Complete() {
      var ids := CallIds(call.toolCalls);
      |ids| == |call.toolCalls| && |ToSet(ids)| == |ids| && |seen| == |ToSet(ids)|
    }

    function Close(): seq<Message> {
      if Complete() then [call] + matched
      else if !Blank(call.content) then [call.(toolCalls := [])]
      else []
    }
  }

  function Flush(open: Option<Batch>): seq<Message> {
    if open.Some? then open.value.Close() else []
  }

  /** What remains to be output when `ms` is still to come and `open` is the
      batch whose results are being collected. */
  function Normalize(open: Option<Batch>, ms: seq<Message>): seq<Message>
    decreases ms
  {
    if ms == [] then Flush(open)
    else if ms[0].role == Tool then
      Normalize(if open.Some? then Some(open.value.Extend(ms[0])) else None, ms[1..])
    else if Calling(ms[0]) then
      Flush(open) + Normalize(Some(Batch(ms[0], [], {})), ms[1..])
    else
      Flush(open) + ([ms[0]] + Normalize(None, ms[1..]))
  }

  /** What `coherent_conversation_history` computes. */
  function Coherent(ms: seq<Message>): seq<Message> {
    Normalize(None, ms)
  }

  // ----- Well-formed histories -----

  /** Every call carries a non-empty id of its own. */
  predicate Answerable(calls: seq<ToolCall>) {
    |CallIds(calls)| == |calls| && Distinct(CallIds(calls))
  }

  /** The calls still to be answered after one more message, if it may come next. */
  function Next(outstanding: set<string>, m: Message): Option<set<string>> {
    if m.role == Tool then
      if m.toolCallId.Some? && m.toolCallId.value in outstanding then Some(outstanding - {m.toolCallId.value}) else None
    else if outstanding != {} then None
    else if Calling(m) then
      if Answerable(m.toolCalls) then Some(ToSet(CallIds(m.toolCalls))) else None
    else Some({})
  }

  function After(outstanding: set<string>, ms: seq<Message>): Option<set<string>>
    decreases ms
  {
    if ms == [] then Some(outstanding)
    else if Next(outstanding, ms[0]).None? then None
    else After(Next(outstanding, ms[0]).value, ms[1..])
  }

  /** Each tool-calling assistant message is followed at once by exactly one
      result for each of its distinct non-empty call ids, and there are no other
      tool messages. */
  predicate WellFormed(ms: seq<Message>) {
    After({}, ms) == Some({})
  }

  lemma {:induction false} AfterConcat(outstanding: set<string>, a: seq<Message>, b: seq<Message>)
    ensures After(outstanding, a + b) ==
            if After(outstanding, a).None? then None else After(After(outstanding, a).value, b)
    decreases a
  {
    if a == [] {
      assert a + b == b;
    } else {
      assert (a + b)[1..] == a[1..] + b;
      if Next(outstanding, a[0]).Some? {
        AfterConcat(Next(outstanding, a[0]).value, a[1..], b);
      }
    }
  }

  lemma {:induction false} WellFormedConcat(a: seq<Message>, b: seq<Message>)
    requires WellFormed(a)
    ensures WellFormed(a + b) <==> WellFormed(b)
  {
    AfterConcat({}, a, b);
  }

  // ----- Collected batches -----

  /** The kept results answer distinct expected ids, namely the ones seen. */
  ghost predicate Collected(b: Batch) {
    && Calling(b.call)
    && b.seen <= b.Expected()
    && (Answerable(b.call.toolCalls) ==> After({}, [b.call] + b.matched) == Some(b.Expected() - b.seen))
  }

  lemma {:induction false} CollectedStart(call: Message)
    requires Calling(call)
    ensures Collected(Batch(call, [], {}))
  {
    var b := Batch(call, [], {});
    assert [call] + [] == [call];
    assert b.Expected() - {} == b.Expected();
  }

  lemma {:induction false} CollectedExtend(b: Batch, result: Message)
    requires Collected(b) && result.role == Tool
    ensures Collected(b.Extend(result))
  {
    var next := b.Extend(result);
    if next != b && Answerable(b.call.toolCalls) {
      assert [b.call] + next.matched == ([b.call] + b.matched) + [result];
      AfterConcat({}, [b.call] + b.matched, [result]);
      assert b.Expected() - b.seen - {result.toolCallId.value} == next.Expected() - next.seen;
    }
  }

  lemma {:induction false} CompleteIffAnswered(b: Batch)
    requires Collected(b)
    ensures b.Complete() <==> Answerable(b.call.toolCalls) && b.seen == b.Expected()
  {
    SetSizeDistinct(CallIds(b.call.toolCalls));
    SubsetOfSameSize(b.seen, b.Expected());
  }

  lemma {:induction false} CloseWellFormed(b: Batch)
    requires Collected(b)
    ensures WellFormed(b.Close())
  {
    CompleteIffAnswered(b);
    if b.Complete() {
      assert b.Expected() - b.seen == {};
    } else if !Blank(b.call.content) {
      assert b.Close()[1..] == [];
    }
  }

  // ----- Normalization is a projection onto well-formed histories -----

  lemma {:induction false} NormalizeWellFormed(open: Option<Batch>, ms: seq<Message>)
    requires open.Some? ==> Collected(open.value)
    ensures WellFormed(Normalize(open, ms))
    decreases ms
  {
    if open.Some? { CloseWellFormed(open.value); }
    if ms == [] {
    } else if ms[0].role == Tool {
      if open.Some? { CollectedExtend(open.value, ms[0]); }
      NormalizeWellFormed(if open.Some? then Some(open.value.Extend(ms[0])) else None, ms[1..]);
    } else if Calling(ms[0]) {
      CollectedStart(ms[0]);
      var rest := Normalize(Some(Batch(ms[0], [], {})), ms[1..]);
      NormalizeWellFormed(Some(Batch(ms[0], [], {})), ms[1..]);
      WellFormedConcat(Flush(open), rest);
    } else {
      var rest := Normalize(None, ms[1..]);
      NormalizeWellFormed(None, ms[1..]);
      assert ([ms[0]] + rest)[1..] == rest;
      WellFormedConcat(Flush(open), [ms[0]] + rest);
    }
  }

  function Held(open: Option<Batch>): seq<Message> {
    if open.Some? then [open.value.call] + open.value.matched else []
  }

  function Outstanding(open: Option<Batch>): set<string> {
    if open.Some? then open.value.Expected() - open.value.seen else {}
  }

  lemma {:induction false} FlushAnswered(open: Option<Batch>)
    requires open.Some? ==> Collected(open.value) && Answerable(open.value.call.toolCalls)
    requires Outstanding(open) == {}
    ensures Flush(open) == Held(open)
  {
    if open.Some? {
      CompleteIffAnswered(open.value);
      forall id | id in open.value.Expected() ensures id in open.value.seen {
        assert id !in Outstanding(open);
      }
    }
  }

  /** With a batch open, input that answers it in full comes through verbatim. */
  lemma {:induction false} NormalizeFixed(open: Option<Batch>, ms: seq<Message>)
    requires open.Some? ==> Collected(open.value) && Answerable(open.value.call.toolCalls)
    requires After(Outstanding(open), ms) == Some({})
    ensures Normalize(open, ms) == Held(open) + ms
    decreases ms
  {
    if ms == [] {
      FlushAnswered(open);
      assert Held(open) + ms == Held(open);
    } else {
      assert ms == [ms[0]] + ms[1..];
      if ms[0].role == Tool {
        var next := open.value.Extend(ms[0]);
        CollectedExtend(open.value, ms[0]);
        assert Outstanding(open) - {ms[0].toolCallId.value} == Outstanding(Some(next));
        NormalizeFixed(Some(next), ms[1..]);
        assert Held(Some(next)) == Held(open) + [ms[0]];
        Assoc(Held(open), [ms[0]], ms[1..]);
      } else {
        FlushAnswered(open);
        if Calling(ms[0]) {
          CollectedStart(ms[0]);
          assert Outstanding(Some(Batch(ms[0], [], {}))) == ToSet(CallIds(ms[0].toolCalls));
          NormalizeFixed(Some(Batch(ms[0], [], {})), ms[1..]);
          assert [ms[0]] + [] == [ms[0]];
        } else {
          NormalizeFixed(None, ms[1..]);
          assert [] + ms[1..] == ms[1..];
        }
      }
    }
  }

  lemma {:induction false} CoherentWellFormed(ms: seq<Message>)
    ensures WellFormed(Coherent(ms))
  {
    NormalizeWellFormed(None, ms);
  }

  /** Normalization leaves exactly the well-formed histories alone. */
  lemma {:induction false} CoherentIdentity(ms: seq<Message>)
    ensures Coherent(ms) == ms <==> WellFormed(ms)
  {
    CoherentWellFormed(ms);
    if WellFormed(ms) {
      NormalizeFixed(None, ms);
      assert [] + ms == ms;
    }
  }

  lemma {:induction false} CoherentIdempotent(ms: seq<Message>)
    ensures Coherent(Coherent(ms)) == Coherent(ms)
  {
    CoherentWellFormed(ms);
    CoherentIdentity(Coherent(ms));
  }

  lemma {:induction false} NormalizeConcat(open: Option<Batch>, a: seq<Message>, b: seq<Message>)
    requires b != [] ==> b[0].role != Tool
    ensures Normalize(open, a + b) == Normalize(open, a) + Normalize(None, b)
    decreases a
  {
    if a == [] {
      assert a + b == b;
      if b == [] {
        assert Flush(open) + [] == Flush(open);
      } else {
        assert forall rest: seq<Message> :: [] + rest == rest;
      }
    } else {
      assert (a + b)[1..] == a[1..] + b;
      if a[0].role == Tool {
        NormalizeConcat(if open.Some? then Some(open.value.Extend(a[0])) else None, a[1..], b);
      } else if Calling(a[0]) {
        NormalizeConcat(Some(Batch(a[0], [], {})), a[1..], b);
        Assoc(Flush(open), Normalize(Some(Batch(a[0], [], {})), a[1..]), Normalize(None, b));
      } else {
        NormalizeConcat(None, a[1..], b);
        Assoc([a[0]], Normalize(None, a[1..]), Normalize(None, b));
        Assoc(Flush(open), [a[0]] + Normalize(None, a[1..]), Normalize(None, b));
      }
    }
  }

  /** Two histories may be normalized apart when the seam does not cut a batch. */
  lemma {:induction false} CoherentConcat(a: seq<Message>, b: seq<Message>)
    requires b != [] ==> b[0].role != Tool
    ensures Coherent(a + b) == Coherent(a) + Coherent(b)
  {
    NormalizeConcat(None, a, b);
  }

  // ----- What normalization never drops or invents -----

  predicate Spoken(m: Message) {
    m.role == System || m.role == User
  }

  function SpokenOnly(ms: seq<Message>): seq<Message> {
    if ms == [] then []
    else if Spoken(ms[0]) then [ms[0]] + SpokenOnly(ms[1..])
    else SpokenOnly(ms[1..])
  }

  lemma {:induction false} SpokenConcat(a: seq<Message>, b: seq<Message>)
    ensures SpokenOnly(a + b) == SpokenOnly(a) + SpokenOnly(b)
  {
    if a == [] {
      assert a + b == b;
    } else {
      assert (a + b)[1..] == a[1..] + b;
      SpokenConcat(a[1..], b);
      Assoc([a[0]], SpokenOnly(a[1..]), SpokenOnly(b));
    }
  }

  lemma {:induction false} NoneSpoken(ms: seq<Message>)
    requires forall m | m in ms :: !Spoken(m)
    ensures SpokenOnly(ms) == []
  {
    if ms == [] {
    } else {
      NoneSpoken(ms[1..]);
    }
  }

  lemma {:induction false} NormalizeKeepsSpoken(open: Option<Batch>, ms: seq<Message>)
    requires open.Some? ==> Calling(open.value.call) && forall m | m in open.value.matched :: m.role == Tool
    ensures SpokenOnly(Normalize(open, ms)) == SpokenOnly(ms)
    decreases ms
  {
    NoneSpoken(Flush(open));
    if ms == [] {
    } else if ms[0].role == Tool {
      NormalizeKeepsSpoken(if open.Some? then Some(open.value.Extend(ms[0])) else None, ms[1..]);
    } else if Calling(ms[0]) {
      NormalizeKeepsSpoken(Some(Batch(ms[0], [], {})), ms[1..]);
      SpokenConcat(Flush(open), Normalize(Some(Batch(ms[0], [], {})), ms[1..]));
    } else {
      NormalizeKeepsSpoken(None, ms[1..]);
      SpokenConcat(Flush(open), [ms[0]] + Normalize(None, ms[1..]));
      SpokenConcat([ms[0]], Normalize(None, ms[1..]));
      SpokenConcat([ms[0]], ms[1..]);
      assert ms == [ms[0]] + ms[1..];
    }
  }

  /** The system and user messages come through unchanged and in order. */
  lemma {:induction false} CoherentKeepsSpoken(ms: seq<Message>)
    ensures SpokenOnly(Coherent(ms)) == SpokenOnly(ms)
  {
    NormalizeKeepsSpoken(None, ms);
  }

  /** The tool calls of a history. */
  function Calls(ms: seq<Message>): set<ToolCall> {
    if ms == [] then {} else (set c | c in ms[0].toolCalls) + Calls(ms[1..])
  }

  lemma {:induction false} CallsConcat(a: seq<Message>, b: seq<Message>)
    ensures Calls(a + b) == Calls(a) + Calls(b)
  {
    if a == [] {
      assert a + b == b;
    } else {
      assert (a + b)[1..] == a[1..] + b;
      CallsConcat(a[1..], b);
    }
  }

  lemma {:induction false} NormalizeInventsNoCall(open: Option<Batch>, ms: seq<Message>)
    ensures Calls(Normalize(open, ms)) <=
            Calls(ms) + if open.Some? then Calls([open.value.call] + open.value.matched) else {}
    decreases ms
  {
    var held := if open.Some? then [open.value.call] + open.value.matched else [];
    assert Calls(Flush(open)) <= Calls(held) by {
      if open.Some? { assert Calls([open.value.call.(toolCalls := [])]) == {}; }
    }
    if ms == [] {
    } else if ms[0].role == Tool {
      if open.Some? {
        var next := open.value.Extend(ms[0]);
        NormalizeInventsNoCall(Some(next), ms[1..]);
        if next != open.value {
          assert [next.call] + next.matched == held + [ms[0]];
          CallsConcat(held, [ms[0]]);
        }
      } else {
        NormalizeInventsNoCall(None, ms[1..]);
      }
    } else if Calling(ms[0]) {
      NormalizeInventsNoCall(Some(Batch(ms[0], [], {})), ms[1..]);
      CallsConcat(Flush(open), Normalize(Some(Batch(ms[0], [], {})), ms[1..]));
      assert [ms[0]] + [] == [ms[0]];
    } else {
      NormalizeInventsNoCall(None, ms[1..]);
      CallsConcat(Flush(open), [ms[0]] + Normalize(None, ms[1..]));
      CallsConcat([ms[0]], Normalize(None, ms[1..]));
    }
  }

  /** Every tool call that survives was in the input. */
  lemma {:induction false} CoherentInventsNoCall(ms: seq<Message>)
    ensures Calls(Coherent(ms)) <= Calls(ms)
  {
    NormalizeInventsNoCall(None, ms);
  }

  lemma {:induction false} NothingOpen(m: Message, rest: seq<Message>)
    requires m.role != Tool
    ensures Normalize(None, [m] + rest) ==
            if Calling(m) then Normalize(Some(Batch(m, [], {})), rest) else [m] + Normalize(None, rest)
  {
  }

  // ----- What becomes of one batch -----

  predicate AsksFor(calls: seq<ToolCall>, id: string) {
    id != [] && exists c | c in calls :: c.id == Some(id)
  }

  /** Every call has a non-empty id that no other call of the message has. */
  predicate OwnIds(calls: seq<ToolCall>) {
    && (forall c | c in calls :: c.id.Some? && c.id.value != [])
    && forall i, j | 0 <= i < j < |calls| :: calls[i].id != calls[j].id
  }

  /** Result `i` answers a call that no earlier result answers. */
  predicate FirstAnswer(calls: seq<ToolCall>, results: seq<Message>, i: nat)
    requires i < |results|
  {
    && results[i].toolCallId.Some? && AsksFor(calls, results[i].toolCallId.value)
    && forall j | 0 <= j < i :: results[j].toolCallId != results[i].toolCallId
  }

  /** The first answers among the first `n` results, in order. */
  function FirstAnswers(calls: seq<ToolCall>, results: seq<Message>, n: nat): seq<Message>
    requires n <= |results|
  {
    if n == 0 then []
    else FirstAnswers(calls, results, n - 1) + if FirstAnswer(calls, results, n - 1) then [results[n - 1]] else []
  }

  function AnsweredIds(calls: seq<ToolCall>, results: seq<Message>): set<string> {
    set r | r in results && r.toolCallId.Some? && AsksFor(calls, r.toolCallId.value) :: r.toolCallId.value
  }

  lemma {:induction false} CallIdsAsked(calls: seq<ToolCall>)
    ensures forall id :: id in CallIds(calls) <==> AsksFor(calls, id)
  {
    if calls == [] {
    } else {
      CallIdsAsked(calls[1..]);
      assert calls == [calls[0]] + calls[1..];
    }
  }

  lemma {:induction false} AnswerableOwnIds(calls: seq<ToolCall>)
    ensures |CallIds(calls)| <= |calls|
    ensures Answerable(calls) <==> OwnIds(calls)
    ensures OwnIds(calls) ==> forall i | 0 <= i < |calls| :: CallIds(calls)[i] == calls[i].id.value
  {
    if calls == [] {
    } else {
      var rest := calls[1..];
      AnswerableOwnIds(rest);
      CallIdsAsked(rest);
      assert calls == [calls[0]] + rest;
      var ids := CallIds(calls);
      if ids != [] { DistinctHead(ids); }
      if Answerable(calls) {
        assert |CallIds(rest)| == |rest|;
        assert ids[1..] == CallIds(rest);
        forall j | 0 < j < |calls| ensures calls[0].id != calls[j].id {
          assert rest[j - 1] == calls[j] && ids[0] !in ids[1..];
        }
        forall i, j | 0 < i < j < |calls| ensures calls[i].id != calls[j].id {
          assert rest[i - 1] == calls[i] && rest[j - 1] == calls[j];
        }
      }
      if OwnIds(calls) {
        forall i, j | 0 <= i < j < |rest| ensures rest[i].id != rest[j].id {
          assert calls[i + 1].id != calls[j + 1].id;
        }
        assert ids[1..] == CallIds(rest);
        assert ids[0] !in ids[1..];
      }
    }
  }

  /** The batch once all of `results` have been looked at. */
  function Collect(b: Batch, results: seq<Message>): Batch
    decreases results
  {
    if results == [] then b else Collect(b.Extend(results[0]), results[1..])
  }

  lemma {:induction false} CollectSnoc(b: Batch, results: seq<Message>, last: Message)
    ensures Collect(b, results + [last]) == Collect(b, results).Extend(last)
    decreases results
  {
    if results == [] {
      assert ([] + [last])[1..] == [];
    } else {
      assert (results + [last])[1..] == results[1..] + [last];
      CollectSnoc(b.Extend(results[0]), results[1..], last);
    }
  }

  lemma {:induction false} CollectCloses(b: Batch, results: seq<Message>)
    requires forall r | r in results :: r.role == Tool
    ensures Normalize(Some(b), results) == Collect(b, results).Close()
    decreases results
  {
    if results == [] {
    } else {
      CollectCloses(b.Extend(results[0]), results[1..]);
    }
  }

  lemma {:induction false} CollectCollected(b: Batch, results: seq<Message>)
    requires Collected(b) && forall r | r in results :: r.role == Tool
    ensures Collected(Collect(b, results))
    decreases results
  {
    if results == [] {
    } else {
      CollectedExtend(b, results[0]);
      CollectCollected(b.Extend(results[0]), results[1..]);
    }
  }

  lemma {:induction false} FirstAnswersPrefix(calls: seq<ToolCall>, results: seq<Message>, last: Message, n: nat)
    requires n <= |results|
    ensures FirstAnswers(calls, results + [last], n) == FirstAnswers(calls, results, n)
  {
    if n == 0 {
    } else {
      FirstAnswersPrefix(calls, results, last, n - 1);
      assert forall j | 0 <= j < n :: (results + [last])[j] == results[j];
    }
  }

  lemma {:induction false} CollectIs(call: Message, results: seq<Message>)
    ensures Collect(Batch(call, [], {}), results) ==
            Batch(call, FirstAnswers(call.toolCalls, results, |results|), AnsweredIds(call.toolCalls, results))
  {
    var calls := call.toolCalls;
    if results == [] {
    } else {
      var n := |results| - 1;
      var front, last := results[..n], results[n];
      assert results == front + [last];
      CollectIs(call, front);
      CollectSnoc(Batch(call, [], {}), front, last);
      FirstAnswersPrefix(calls, front, last, n);
      CallIdsAsked(calls);
      LastAnswered(calls, front, last);
    }
  }

  lemma {:induction false} LastAnswered(calls: seq<ToolCall>, front: seq<Message>, last: Message)
    ensures var results := front + [last];
            && FirstAnswer(calls, results, |front|) == (last.toolCallId.Some? && AsksFor(calls, last.toolCallId.value)
                                                        && last.toolCallId.value !in AnsweredIds(calls, front))
            && AnsweredIds(calls, results) == AnsweredIds(calls, front) +
                 if last.toolCallId.Some? && AsksFor(calls, last.toolCallId.value) then {last.toolCallId.value} else {}
  {
    var results := front + [last];
    assert forall r :: r in results <==> r in front || r == last;
    assert forall j | 0 <= j < |front| :: results[j] == front[j] && front[j] in front;
  }

  /** A calling message and the results behind it come through with the first
      answer to each call when every call has its own id and an answer; otherwise
      only the text of the message is left, if it has any. */
  lemma {:induction false} CoherentBatch(call: Message, results: seq<Message>)
    requires Calling(call) && forall r | r in results :: r.role == Tool
    ensures Coherent([call] + results) ==
            if OwnIds(call.toolCalls)
               && forall c | c in call.toolCalls :: exists r | r in results :: r.toolCallId == c.id
            then [call] + FirstAnswers(call.toolCalls, results, |results|)
            else if Blank(call.content) then []
            else [Message(Assistant, call.content, call.toolCallId, [])]
  {
    var calls, start := call.toolCalls, Batch(call, [], {});
    var b := Collect(start, results);
    NothingOpen(call, results);
    CollectCloses(start, results);
    CollectedStart(call);
    CollectCollected(start, results);
    CollectIs(call, results);
    CompleteIffAnswered(b);
    AnswerableOwnIds(calls);
    CallIdsAsked(calls);
    if OwnIds(calls) {
      if forall c | c in calls :: exists r | r in results :: r.toolCallId == c.id {
        forall id | id in b.Expected() ensures id in b.seen {
          var c :| c in calls && c.id == Some(id);
          var r :| r in results && r.toolCallId == c.id;
        }
      } else {
        var c :| c in calls && forall r | r in results :: r.toolCallId != c.id;
        assert c.id.value in b.Expected() && c.id.value !in b.seen;
      }
    }
  }

  /** Any other message comes through alone, and results with no call before
      them are dropped. */
  lemma {:induction false} CoherentOther(ms: seq<Message>, results: seq<Message>)
    requires |ms| <= 1 && (ms != [] ==> ms[0].role != Tool && !Calling(ms[0]))
    requires forall r | r in results :: r.role == Tool
    ensures Coherent(ms + results) == ms
  {
    OrphansDropped(results);
    if ms == [] {
      assert ms + results == results;
    } else {
      NothingOpen(ms[0], results);
      assert ms + results == [ms[0]] + results;
    }
  }

  lemma {:induction false} OrphansDropped(results: seq<Message>)
    requires forall r | r in results :: r.role == Tool
    ensures Normalize(None, results) == []
  {
    if results == [] {
    } else {
      OrphansDropped(results[1..]);
    }
  }

  // ----- The loop itself -----

  lemma {:induction false} Peel(ms: seq<Message>, i: nat)
    requires i < |ms|
    ensures ms[i..] == [ms[i]] + ms[i + 1..] && ms[i..][1..] == ms[i + 1..]
  {
  }

  method CoherentConversationHistory(messages: seq<Message>) returns (coherent: seq<Message>)
    ensures coherent == Coherent(messages)
    ensures WellFormed(coherent)
  {
    coherent := [];
    var index := 0;
    ghost var rest := messages;
    while index < |messages|
      invariant index <= |messages| && rest == messages[index..]
      invariant coherent + Normalize(None, rest) == Coherent(messages)
    {
      var message := messages[index];
      Peel(messages, index);
      rest := rest[1..];
      if message.role == Tool {
        index := index + 1;
        continue;
      }
      if message.role != Assistant || message.toolCalls == [] {
        NothingOpen(message, rest);
        Assoc(coherent, [message], Normalize(None, rest));
        coherent := coherent + [message];
        index := index + 1;
        continue;
      }

      NothingOpen(message, rest);
      var callIds := CallIds(message.toolCalls);
      var expectedIds := ToSet(callIds);
      var matchedResults, seenIds, nextIndex := CollectResults(messages, index + 1, message, expectedIds);
      ghost var batch := Batch(message, matchedResults, seenIds);
      rest := messages[nextIndex..];
      Assoc(coherent, batch.Close(), Normalize(None, rest));
      var complete := |callIds| == |message.toolCalls| && |expectedIds| == |callIds| && |seenIds| == |expectedIds|;
      if complete {
        Assoc(coherent, [message], matchedResults);
        coherent := coherent + [message] + matchedResults;
      } else if !Blank(message.content) {
        coherent := coherent + [message.(toolCalls := [])];
      } else {
        assert coherent + [] == coherent;
      }
      index := nextIndex;
    }
    assert coherent + [] == coherent;
    CoherentWellFormed(messages);
  }

  /** The inner loop: the results that directly follow a tool-calling message. */
  method CollectResults(messages: seq<Message>, start: nat, ghost call: Message, expectedIds: set<string>)
    returns (matchedResults: seq<Message>, seenIds: set<string>, nextIndex: nat)
    requires start <= |messages| && expectedIds == ToSet(CallIds(call.toolCalls))
    ensures start <= nextIndex <= |messages|
    ensures Normalize(Some(Batch(call, [], {})), messages[start..]) ==
            Batch(call, matchedResults, seenIds).Close() + Normalize(None, messages[nextIndex..])
  {
    matchedResults, seenIds, nextIndex := [], {}, start;
    ghost var rest := messages[start..];
    while nextIndex < |messages| && messages[nextIndex].role == Tool
      invariant start <= nextIndex <= |messages| && rest == messages[nextIndex..]
      invariant Normalize(Some(Batch(call, matchedResults, seenIds)), rest) ==
                Normalize(Some(Batch(call, [], {})), messages[start..])
    {
      var result := messages[nextIndex];
      Peel(messages, nextIndex);
      rest := rest[1..];
      if result.toolCallId.Some? {
        var id := result.toolCallId.value;
        if id in expectedIds && id !in seenIds {
          seenIds := seenIds + {id};
          matchedResults := matchedResults + [result];
        }
      }
      nextIndex := nextIndex + 1;
    }
    CloseThenRest(Batch(call, matchedResults, seenIds), rest);
  }

  /** A batch is closed by the first message that is not a tool result. */
  lemma {:induction false} CloseThenRest(b: Batch, ms: seq<Message>)
    requires ms != [] ==> ms[0].role != Tool
    ensures Normalize(Some(b), ms) == b.Close() + Normalize(None, ms)
  {
  }
}
