/**
 * The event relay of src/podflix/utils/graph_runner.py: a `GraphRunner` folds the
 * events a LangGraph run streams into the content of the assistant message and the
 * id of the last finished chain run.
 */
module GraphRunning {
  import opened Wrappers

  const ChatModelStream := "on_chat_model_stream"
  const ChainEnd := "on_chain_end"

  /**
   * One streamed event: its kind, the `langgraph_node` of its metadata (if any), the
   * content of its message chunk and its `run_id` (if any).
   */
  datatype Event = Event(kind: string, node: Option<string>, chunk: string, runId: Option<string>)

  /** The chat message the tokens are streamed into. */
  class Message {
    var content: string

    constructor (content: string)
      ensures this.content == content
    {
      this.content := content;
    }

    /** `stream_token`: the token is appended to the content. */
    method StreamToken(token: string)
      modifies this
      ensures content == old(content) + token
    {
      content := content + token;
    }
  }

  /** The event is a chat-model token from one of the streamable nodes. */
  predicate FromStreamableNode(nodeNames: seq<string>, e: Event) {
    e.kind == ChatModelStream && e.node.Some? && e.node.value in nodeNames
  }

  /** The text one event appends to the message. */
  function Token(nodeNames: seq<string>, e: Event): string {
    if FromStreamableNode(nodeNames, e) then e.chunk else ""
  }

  /** The text a sequence of events appends to the message, in event order. */
  function Tokens(nodeNames: seq<string>, events: seq<Event>): string
    decreases |events|
  {
    if events == [] then ""
    else Tokens(nodeNames, events[..|events| - 1]) + Token(nodeNames, events[|events| - 1])
  }

  /** The run id after one event: a chain end overwrites it with its own, possibly absent, id. */
  function RunIdAfter(runId: Option<string>, e: Event): Option<string> {
    if e.kind == ChainEnd then e.runId else runId
  }

  /** The run id after a sequence of events. */
  function RunIdAfterAll(runId: Option<string>, events: seq<Event>): Option<string>
    decreases |events|
  {
    if events == [] then runId
    else RunIdAfter(RunIdAfterAll(runId, events[..|events| - 1]), events[|events| - 1])
  }

  /** An event appends text exactly when it is a stream event of a listed node with a non-empty chunk. */
  lemma TokenAppendedIff(nodeNames: seq<string>, e: Event)
    ensures Token(nodeNames, e) != "" <==>
      e.kind == ChatModelStream && e.node.Some? && e.node.value in nodeNames && e.chunk != ""
    ensures Token(nodeNames, e) != "" ==> Token(nodeNames, e) == e.chunk
  {
  }

  /** Events of other kinds append nothing and keep the run id. */
  lemma OtherEventsNeutral(nodeNames: seq<string>, runId: Option<string>, e: Event)
    requires e.kind != ChatModelStream && e.kind != ChainEnd
    ensures Token(nodeNames, e) == "" && RunIdAfter(runId, e) == runId
  {
  }

  /** The text of two runs of events is the text of the first followed by that of the second. */
  lemma {:induction false} TokensAppend(nodeNames: seq<string>, a: seq<Event>, b: seq<Event>)
    ensures Tokens(nodeNames, a + b) == Tokens(nodeNames, a) + Tokens(nodeNames, b)
    decreases |b|
  {
    if b == [] {
      assert a + b == a;
    } else {
      var init, last := b[..|b| - 1], b[|b| - 1];
      TokensAppend(nodeNames, a, init);
      assert (a + b)[..|a + b| - 1] == a + init && (a + b)[|a + b| - 1] == last;
      var x, y, z := Tokens(nodeNames, a), Tokens(nodeNames, init), Token(nodeNames, last);
      assert (x + y) + z == x + (y + z);
    }
  }

  /** Events none of which come from a streamable node, such as events without a node, leave the message as it is. */
  lemma {:induction false} TokensSilent(nodeNames: seq<string>, events: seq<Event>)
    requires forall k :: 0 <= k < |events| ==> !FromStreamableNode(nodeNames, events[k])
    ensures Tokens(nodeNames, events) == ""
    decreases |events|
  {
    if events != [] {
      var init := events[..|events| - 1];
      assert forall k :: 0 <= k < |init| ==> init[k] == events[k];
      TokensSilent(nodeNames, init);
    }
  }

  /** Without a chain end the run id stays as it was. */
  lemma {:induction false} RunIdKeptWithoutChainEnd(runId: Option<string>, events: seq<Event>)
    requires forall k :: 0 <= k < |events| ==> events[k].kind != ChainEnd
    ensures RunIdAfterAll(runId, events) == runId
    decreases |events|
  {
    if events != [] {
      var init := events[..|events| - 1];
      assert forall k :: 0 <= k < |init| ==> init[k] == events[k];
      RunIdKeptWithoutChainEnd(runId, init);
    }
  }

  /** The last chain end wins: its id is the run id after all the events. */
  lemma {:induction false} RunIdOfLastChainEnd(runId: Option<string>, events: seq<Event>, k: nat)
    requires k < |events| && events[k].kind == ChainEnd
    requires forall j :: k < j < |events| ==> events[j].kind != ChainEnd
    ensures RunIdAfterAll(runId, events) == events[k].runId
    decreases |events|
  {
    var init := events[..|events| - 1];
    if k < |events| - 1 {
      assert init[k] == events[k];
      assert forall j :: k < j < |init| ==> init[j] == events[j];
      RunIdOfLastChainEnd(runId, init, k);
    }
  }

  /** The chunks of the events from streamable nodes, in event order: a reference reading of `Tokens`. */
  function StreamedChunks(nodeNames: seq<string>, events: seq<Event>): seq<string>
    decreases |events|
  {
    if events == [] then []
    else (if FromStreamableNode(nodeNames, events[0]) then [events[0].chunk] else []) + StreamedChunks(nodeNames, events[1..])
  }

  /** `"".join(xs)`. */
  function Concat(xs: seq<string>): string
    decreases |xs|
  {
    if xs == [] then "" else xs[0] + Concat(xs[1..])
  }

  /** The message text is the chunks of the streamed tokens, concatenated in order. */
  lemma {:induction false} TokensAreStreamedChunks(nodeNames: seq<string>, events: seq<Event>)
    ensures Tokens(nodeNames, events) == Concat(StreamedChunks(nodeNames, events))
    decreases |events|
  {
    if events != [] {
      var e, rest := events[0], events[1..];
      TokensAreStreamedChunks(nodeNames, rest);
      assert events == [e] + rest;
      TokensAppend(nodeNames, [e], rest);
      assert [e][..0] == [];
      assert Tokens(nodeNames, [e]) == Token(nodeNames, e);
      var head := if FromStreamableNode(nodeNames, e) then [e.chunk] else [];
      assert Concat(head + StreamedChunks(nodeNames, rest)) == Token(nodeNames, e) + Concat(StreamedChunks(nodeNames, rest)) by {
        if head == [] {
          assert head + StreamedChunks(nodeNames, rest) == StreamedChunks(nodeNames, rest);
        } else {
          assert (head + StreamedChunks(nodeNames, rest))[1..] == StreamedChunks(nodeNames, rest);
        }
      }
    }
  }

  /**
   * Tokens of the listed node are relayed and those of another node are not:
   * `Hel` from `generate`, `X` from `retrieve`, then `lo` from `generate` make `Hello`.
   */
  lemma RelayExample()
    ensures Tokens(["generate"], [Event(ChatModelStream, Some("generate"), "Hel", None),
                                  Event(ChatModelStream, Some("retrieve"), "X", None),
                                  Event(ChatModelStream, Some("generate"), "lo", None)]) == "Hello"
  {
    var nodes := ["generate"];
    var e1, e2, e3 := Event(ChatModelStream, Some("generate"), "Hel", None),
                      Event(ChatModelStream, Some("retrieve"), "X", None),
                      Event(ChatModelStream, Some("generate"), "lo", None);
    assert "retrieve" !in nodes by { assert "retrieve"[0] != "generate"[0]; }
    assert [e1, e2, e3][..2] == [e1, e2] && [e1, e2][..1] == [e1] && [e1][..0] == [];
    assert Tokens(nodes, [e1]) == "Hel";
    assert Tokens(nodes, [e1, e2]) == "Hel";
    assert "Hel" + "lo" == "Hello";
  }

  class GraphRunner {
    /** The inputs handed to the graph; the graph itself is foreign and yields the events. */
    const graphInputs: map<string, string>
    const graphStreamableNodeNames: seq<string>
    const sessionId: string
    const assistantMessage: Message
    var runId: Option<string>

    /** `GraphRunner.__init__`: keeps its arguments; no run id yet. */
    constructor (graphInputs: map<string, string>, graphStreamableNodeNames: seq<string>, sessionId: string, assistantMessage: Message)
      ensures this.graphInputs == graphInputs && this.graphStreamableNodeNames == graphStreamableNodeNames
      ensures this.sessionId == sessionId && this.assistantMessage == assistantMessage
      ensures runId == None
    {
      this.graphInputs := graphInputs;
      this.graphStreamableNodeNames := graphStreamableNodeNames;
      this.sessionId := sessionId;
      this.assistantMessage := assistantMessage;
      runId := None;
    }

    /** `stream_llm_response`: relay a token from a streamable node; record the id of a chain end. */
    method StreamLlmResponse(e: Event)
      modifies this, assistantMessage
      ensures assistantMessage.content == old(assistantMessage.content) + Token(graphStreamableNodeNames, e)
      ensures runId == RunIdAfter(old(runId), e)
    {
      var eventKind := e.kind;
      var langgraphNode := e.node;
      if eventKind == ChatModelStream {
        if langgraphNode.None? || langgraphNode.value !in graphStreamableNodeNames {
          return;
        }
        var content := e.chunk;
        if content != "" {
          assistantMessage.StreamToken(content);
        }
      }
      if e.kind == ChainEnd {
        runId := e.runId;
      }
    }

    /** `run_graph`: every event the graph streams goes through `stream_llm_response`, in order. */
    method RunGraph(events: seq<Event>)
      modifies this, assistantMessage
      ensures assistantMessage.content == old(assistantMessage.content) + Tokens(graphStreamableNodeNames, events)
      ensures runId == RunIdAfterAll(old(runId), events)
    {
      var i := 0;
      while i < |events|
        invariant i <= |events|
        invariant assistantMessage.content == old(assistantMessage.content) + Tokens(graphStreamableNodeNames, events[..i])
        invariant runId == RunIdAfterAll(old(runId), events[..i])
        decreases |events| - i
      {
        assert events[..i + 1][..i] == events[..i];
        StreamLlmResponse(events[i]);
        i := i + 1;
      }
      assert events[..i] == events;
    }
  }
}
