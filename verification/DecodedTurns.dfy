/**
 Turns made of decoded model responses (containers/agent/src/model.rs), written
 and read back (containers/agent/src/main.rs and engine_support.rs): the decoder
 rules out empty ids and names, but not white space around a name.
 */
module DecodedTurns {
  import opened Wrappers
  import opened Conversation
  import opened History
  import opened WireHistory
  import opened Transcript
  import Budget

  /** The call came out of the response decoder. */
  ghost predicate IsDecoded(parse: JsonParser, call: ToolCall) {
    exists raw :: Budget.Decodable(parse, raw) && call == Budget.Decoded(parse, raw)
  }

  /** The response was decoded, and its results are results. */
  ghost predicate IsDecodedTurn(parse: JsonParser, turn: Budget.Turn) {
    && (forall c | c in turn.output.toolCalls :: IsDecoded(parse, c))
    && (forall m | m in turn.results :: Budget.IsResult(m))
  }

  lemma {:induction false} DecodedNamed(parse: JsonParser, call: ToolCall)
    requires IsDecoded(parse, call)
    ensures call.id.Some? && call.id.value != [] && call.name != []
  {
  }

  lemma {:induction false} ResultsCallNothing(results: seq<Message>)
    requires forall m | m in results :: Budget.IsResult(m)
    ensures Calls(results) == {}
  {
    if results == [] {
    } else {
      assert Budget.IsResult(results[0]);
      ResultsCallNothing(results[1..]);
    }
  }

  lemma {:induction false} PlayedCalls(parse: JsonParser, before: seq<Message>, turns: seq<Budget.Turn>)
    requires forall c | c in Calls(before) :: IsDecoded(parse, c)
    requires forall t | t in turns :: IsDecodedTurn(parse, t)
    ensures forall c | c in Calls(Budget.Messages(before, turns)) :: IsDecoded(parse, c)
    decreases turns
  {
    hide IsDecoded;
    if turns == [] {
    } else {
      var asked, results := [Budget.AssistantMessage(turns[0].output)], turns[0].results;
      assert turns[0] in turns;
      CallsConcat(before, asked + results);
      CallsConcat(asked, results);
      ResultsCallNothing(results);
      assert asked[1..] == [];
      assert Calls(asked) == set c | c in turns[0].output.toolCalls;
      PlayedCalls(parse, before + (asked + results), turns[1..]);
    }
  }

  /** The transcript of any run of decoded responses reads back unchanged exactly
      when no tool name has white space around it. */
  lemma {:induction false} DecodedReadsBackIff(parse: JsonParser, turns: seq<Budget.Turn>, finalMessage: Option<string>,
          incomplete: Option<string>)
    requires forall t | t in turns :: IsDecodedTurn(parse, t)
    requires Build(Budget.Messages([], turns), finalMessage, incomplete).Ok?
    ensures var turn := Budget.Messages([], turns);
            ReadBack(parse, Build(turn, finalMessage, incomplete).value) == Intended(turn, finalMessage, incomplete)
            <==> forall c | c in Calls(turn) :: Trim(c.name) == c.name
  {
    hide Build, ReadBack, Intended, IsDecoded;
    var turn := Budget.Messages([], turns);
    PlayedCalls(parse, [], turns);
    TranscriptReadsBack(parse, turn, finalMessage, incomplete);
    forall c | c in Calls(turn) ensures c.id.Some? && c.id.value != [] && c.name != [] {
      DecodedNamed(parse, c);
    }
  }

  /** A response that calls ` n` is decoded, answered and stored, and the next run
      does not see the stored transcript unchanged. */
  lemma {:induction false} PaddedNameChanges(parse: JsonParser)
    requires parse("{}") == Some(Object(map[]))
    ensures var raw := Budget.RawCall("c", " n", "{}");
            && Budget.Decodable(parse, raw)
            && var output := Budget.ModelOutput(None, [Budget.Decoded(parse, raw)]);
               var turns := [Budget.Turn(output, [Message(Tool, "r", Some("c"), [])])];
               var turn := Budget.Messages([], turns);
               && IsDecodedTurn(parse, turns[0]) && Build(turn, None, None).Ok?
               && ReadBack(parse, Build(turn, None, None).value) != Intended(turn, None, None)
  {
    hide Build, ReadBack, Intended, Trim, Budget.Decodable, Budget.Messages;
    var raw := Budget.RawCall("c", " n", "{}");
    PaddedDecodable(parse);
    var call, result := ToolCall(Some("c"), " n", Object(map[])), Message(Tool, "r", Some("c"), []);
    assert call == Budget.Decoded(parse, raw) && IsDecoded(parse, call);
    var turns := [Budget.Turn(Budget.ModelOutput(None, [call]), [result])];
    var turn := [Message(Assistant, "", None, [call]), result];
    PaddedPlays(turns, turn, call, result);
    PaddedBuilds(call, result);
    assert call in Calls(turn) && Trim(call.name) != call.name by { TrimLosesSpace(); }
    DecodedReadsBackIff(parse, turns, None, None);
  }

  lemma {:induction false} TrimLosesSpace()
    ensures Trim(" n") != " n"
  {
    assert " n"[1..] == "n";
    assert TrimStart(" n") == "n";
  }

  lemma {:induction false} PaddedDecodable(parse: JsonParser)
    requires parse("{}") == Some(Object(map[]))
    ensures Budget.Decodable(parse, Budget.RawCall("c", " n", "{}"))
  {
    assert "c"[1..] == "" && " n"[1..] == "n" && "n"[1..] == "" && "{}"[1..] == "}" && "}"[1..] == "";
  }

  lemma {:induction false} PaddedPlays(turns: seq<Budget.Turn>, turn: seq<Message>, call: ToolCall, result: Message)
    requires turns == [Budget.Turn(Budget.ModelOutput(None, [call]), [result])]
    requires turn == [Message(Assistant, "", None, [call]), result]
    ensures Budget.Messages([], turns) == turn
  {
    assert turns[1..] == [];
    assert [] + Budget.Recorded(turns[0]) == turn;
    assert Budget.Messages(turn, []) == turn;
  }

  lemma {:induction false} PaddedBuilds(call: ToolCall, result: Message)
    requires call.id == Some("c") && call.arguments.Object? && result == Message(Tool, "r", Some("c"), [])
    ensures Build([Message(Assistant, "", None, [call]), result], None, None).Ok?
  {
    var asked := Message(Assistant, "", None, [call]);
    assert [call][1..] == [] && [asked, result][1..] == [result] && [result][1..] == [];
    assert RecordCalls([call], [], {}) == Ok((["c"], {"c"})) by {
      assert [] + ["c"] == ["c"] && {} + {"c"} == {"c"};
    }
    var first := WriteMessage(Writer([], [], {}), asked);
    assert first.Ok? && first.value.pending == ["c"];
    var second := WriteMessage(first.value, result);
    assert second.Ok? && second.value.pending == [];
    assert WriteAll(second.value, []) == Ok(second.value);
    assert WriteAll(first.value, [result]) == Ok(second.value);
  }
}
