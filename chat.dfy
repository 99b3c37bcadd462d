/** The chat front end: the text stream read from the remote agent, and the
    chat handler that grows the conversation history as that stream arrives. */
module Chat {
  import opened Outcomes
  import opened Text

  // ---------------------------------------------------------------------------
  // Events streamed back by the agent

  /** One part of an event's content; `text` is absent when the part has none. */
  datatype Part = Part(text: Option<string>)

  /** An event's `content`; `parts` is absent when the content has none. */
  datatype Content = Content(parts: Option<seq<Part>>)

  /** One event of the agent's response stream. */
  datatype AgentEvent = AgentEvent(content: Option<Content>)

  /** What the remote agent does for one query: the events it delivers, then,
      if `failure` is present, the exception that ends the stream (raised while
      fetching the agent, opening the stream or reading the next event). */
  datatype RemoteStream = RemoteStream(events: seq<AgentEvent>, failure: Option<string>)

  const MISSING_AGENT_MESSAGE := "Error: AGENT_ENGINE_ID is missing. Check your .env file or deployment."
  const COMMUNICATION_ERROR_PREFIX := "Error communicating with Vertex AI: "
  const NO_RESPONSE_MESSAGE := "No response received from the agent."

  /** The texts of the parts that carry one, in order. */
  function PartTexts(parts: seq<Part>): seq<string>
  {
    if parts == [] then []
    else (if parts[0].text.Some? then [parts[0].text.value] else []) + PartTexts(parts[1..])
  }

  /** The event has both `content` and `content.parts`. */
  predicate HasParts(e: AgentEvent) {
    e.content.Some? && e.content.value.parts.Some?
  }

  /** The texts an event contributes: none unless it has content with parts. */
  function EventTexts(e: AgentEvent): seq<string>
  {
    if HasParts(e) then PartTexts(e.content.value.parts.value) else []
  }

  /** The texts of a run of events, in event order and then part order. */
  function StreamTexts(events: seq<AgentEvent>): seq<string>
  {
    if events == [] then [] else EventTexts(events[0]) + StreamTexts(events[1..])
  }

  /** What the stream yields, given the configured agent id. */
  function AgentReply(agentEngineId: Option<string>, remote: RemoteStream): seq<string>
  {
    if !Truthy(agentEngineId) then [MISSING_AGENT_MESSAGE]
    else
      StreamTexts(remote.events) +
      if remote.failure.Some? then [COMMUNICATION_ERROR_PREFIX + remote.failure.value] else []
  }

  lemma {:induction false} PartTextsSnoc(parts: seq<Part>, p: Part)
    ensures PartTexts(parts + [p]) == PartTexts(parts) + (if p.text.Some? then [p.text.value] else [])
  {
    if parts != [] {
      assert (parts + [p])[1..] == parts[1..] + [p];
      PartTextsSnoc(parts[1..], p);
    }
  }

  /** The texts of consecutive runs of events are the concatenation of their texts. */
  lemma {:induction false} StreamTextsAppend(a: seq<AgentEvent>, b: seq<AgentEvent>)
    ensures StreamTexts(a + b) == StreamTexts(a) + StreamTexts(b)
  {
    if a == [] {
      assert a + b == b;
    } else {
      assert (a + b)[1..] == a[1..] + b;
      StreamTextsAppend(a[1..], b);
    }
  }

  /** A text is yielded exactly when some part of some event with content and parts carries it. */
  lemma {:induction false} StreamTextsMembership(events: seq<AgentEvent>, t: string)
    ensures t in StreamTexts(events) <==>
      exists i, j :: 0 <= i < |events| && HasParts(events[i]) &&
        0 <= j < |events[i].content.value.parts.value| &&
        events[i].content.value.parts.value[j].text == Some(t)
  {
    if events != [] {
      StreamTextsMembership(events[1..], t);
      var e := events[0];
      if HasParts(e) {
        PartTextsMembership(e.content.value.parts.value, t);
      }
      if t in StreamTexts(events[1..]) {
        var i, j :| 0 <= i < |events[1..]| && HasParts(events[1..][i]) &&
          0 <= j < |events[1..][i].content.value.parts.value| &&
          events[1..][i].content.value.parts.value[j].text == Some(t);
        assert events[i + 1] == events[1..][i];
      }
      if exists i, j :: 0 <= i < |events| && HasParts(events[i]) &&
          0 <= j < |events[i].content.value.parts.value| &&
          events[i].content.value.parts.value[j].text == Some(t) {
        var i, j :| 0 <= i < |events| && HasParts(events[i]) &&
          0 <= j < |events[i].content.value.parts.value| &&
          events[i].content.value.parts.value[j].text == Some(t);
        if i > 0 {
          assert events[1..][i - 1] == events[i];
        }
      }
    }
  }

  lemma {:induction false} PartTextsMembership(parts: seq<Part>, t: string)
    ensures t in PartTexts(parts) <==> exists j :: 0 <= j < |parts| && parts[j].text == Some(t)
  {
    if parts != [] {
      PartTextsMembership(parts[1..], t);
      if t in PartTexts(parts[1..]) {
        var j :| 0 <= j < |parts[1..]| && parts[1..][j].text == Some(t);
        assert parts[j + 1] == parts[1..][j];
      }
      if exists j :: 0 <= j < |parts| && parts[j].text == Some(t) {
        var j :| 0 <= j < |parts| && parts[j].text == Some(t);
        if j > 0 {
          assert parts[1..][j - 1] == parts[j];
        }
      }
    }
  }

  /** With no agent id configured, the stream yields the one error string and nothing else. */
  lemma MissingAgentYieldsOnlyError(agentEngineId: Option<string>, remote: RemoteStream)
    requires !Truthy(agentEngineId)
    ensures AgentReply(agentEngineId, remote) == [MISSING_AGENT_MESSAGE]
  {
  }

  /** A failure of the remote stream adds exactly one error string, after the
      texts of the events delivered before it. */
  lemma FailureYieldsErrorLast(agentEngineId: Option<string>, events: seq<AgentEvent>, error: string)
    requires Truthy(agentEngineId)
    ensures var r := AgentReply(agentEngineId, RemoteStream(events, Some(error)));
      && r == AgentReply(agentEngineId, RemoteStream(events, None)) + [COMMUNICATION_ERROR_PREFIX + error]
      && |r| == |StreamTexts(events)| + 1
  {
  }

  /** The agent stream: a nested loop over events and their parts that yields
      each text found under `content.parts[*].text`, then the error message if
      the remote stream failed. */
  method StreamFromAgentEngine(agentEngineId: Option<string>, remote: RemoteStream)
    returns (yielded: seq<string>)
    ensures yielded == AgentReply(agentEngineId, remote)
  {
    if !Truthy(agentEngineId) {
      return [MISSING_AGENT_MESSAGE];
    }
    var events := remote.events;
    yielded := [];
    var i := 0;
    while i < |events|
      invariant 0 <= i <= |events|
      invariant yielded == StreamTexts(events[..i])
    {
      var event := events[i];
      if HasParts(event) {
        var parts := event.content.value.parts.value;
        var j := 0;
        while j < |parts|
          invariant 0 <= j <= |parts|
          invariant yielded == StreamTexts(events[..i]) + PartTexts(parts[..j])
        {
          PartTextsSnoc(parts[..j], parts[j]);
          assert parts[..j + 1] == parts[..j] + [parts[j]];
          if parts[j].text.Some? {
            yielded := yielded + [parts[j].text.value];
          }
          j := j + 1;
        }
        assert parts[..j] == parts;
      }
      assert StreamTexts([event]) == EventTexts(event);
      StreamTextsAppend(events[..i], [event]);
      assert events[..i + 1] == events[..i] + [event];
      i := i + 1;
    }
    assert events[..i] == events;
    if remote.failure.Some? {
      yielded := yielded + [COMMUNICATION_ERROR_PREFIX + remote.failure.value];
    }
  }

  // ---------------------------------------------------------------------------
  // The chat handler

  datatype Role = User | Assistant

  /** One history entry, `{"role": ..., "content": ...}`. */
  datatype ChatMessage = ChatMessage(role: Role, content: string)

  /** The conversation history: a list the chat handler changes in place. */
  class ChatHistory {
    var entries: seq<ChatMessage>

    constructor ()
      ensures entries == []
    {
      entries := [];
    }
  }

  /** The history after the user's `message` and an assistant reply `reply`. */
  function WithTurn(base: seq<ChatMessage>, message: string, reply: string): seq<ChatMessage>
  {
    base + [ChatMessage(User, message), ChatMessage(Assistant, reply)]
  }

  /** The final reply shown for the streamed chunks. */
  function FinalReply(chunks: seq<string>): string
  {
    if Flatten(chunks) == "" then NO_RESPONSE_MESSAGE else Flatten(chunks)
  }

  /** The fallback reply is shown exactly when every chunk was empty (in particular when none arrived). */
  lemma {:induction false} FallbackExactlyWhenSilent(chunks: seq<string>)
    ensures FinalReply(chunks) == NO_RESPONSE_MESSAGE <==>
      (forall i :: 0 <= i < |chunks| ==> chunks[i] == "") || Flatten(chunks) == NO_RESPONSE_MESSAGE
  {
    FlattenEmpty(chunks);
  }

  /** The chat handler. `history` is the caller's list, or null for None; an
      empty list is falsy, so a new one replaces it and the caller's is left
      alone. Returns the list it changed and every snapshot it yielded. */
  method Predict(message: string, history: ChatHistory?, agentEngineId: Option<string>, remote: RemoteStream)
    returns (used: ChatHistory, snapshots: seq<seq<ChatMessage>>)
    modifies history
    ensures history != null && old(history.entries) != [] ==> used == history
    ensures history == null || old(history.entries) == [] ==> fresh(used)
    ensures history != null && old(history.entries) == [] ==> unchanged(history)
    ensures var base := if history == null then [] else old(history.entries);
      var chunks := AgentReply(agentEngineId, remote);
      && |snapshots| == |chunks| + 1 + (if Flatten(chunks) == "" then 1 else 0)
      // the first yield shows the user turn and an empty assistant turn
      && snapshots[0] == WithTurn(base, message, "")
      // after the k-th chunk, the assistant turn holds chunks 1..k
      && (forall k :: 0 <= k <= |chunks| ==> snapshots[k] == WithTurn(base, message, Flatten(chunks[..k])))
      && snapshots[|snapshots| - 1] == WithTurn(base, message, FinalReply(chunks))
      && used.entries == WithTurn(base, message, FinalReply(chunks))
  {
    ghost var base := if history == null then [] else history.entries;
    if history != null && history.entries != [] {
      used := history;
    } else {
      used := new ChatHistory();
    }
    used.entries := used.entries + [ChatMessage(User, message)];
    used.entries := used.entries + [ChatMessage(Assistant, "")];
    var chunks := StreamFromAgentEngine(agentEngineId, remote);
    snapshots := ShowReply(used, base, message, chunks);
  }

  /** The streaming part of the chat handler: yields the history, then
      rewrites its last entry with the running concatenation after each chunk,
      and with the fallback message at the end if nothing arrived. */
  method ShowReply(h: ChatHistory, ghost base: seq<ChatMessage>, message: string, chunks: seq<string>)
    returns (snapshots: seq<seq<ChatMessage>>)
    requires h.entries == WithTurn(base, message, "")
    modifies h
    ensures |snapshots| == |chunks| + 1 + (if Flatten(chunks) == "" then 1 else 0)
    ensures forall k :: 0 <= k <= |chunks| ==> snapshots[k] == WithTurn(base, message, Flatten(chunks[..k]))
    ensures snapshots[|snapshots| - 1] == WithTurn(base, message, FinalReply(chunks))
    ensures h.entries == WithTurn(base, message, FinalReply(chunks))
  {
    snapshots := [h.entries];
    var responseContent := "";
    var k := 0;
    while k < |chunks|
      invariant 0 <= k <= |chunks|
      invariant responseContent == Flatten(chunks[..k])
      invariant h.entries == WithTurn(base, message, responseContent)
      invariant |snapshots| == k + 1
      invariant forall i :: 0 <= i <= k ==> snapshots[i] == WithTurn(base, message, Flatten(chunks[..i]))
    {
      FlattenPrefixStep(chunks, k);
      responseContent := responseContent + chunks[k];
      h.entries := h.entries[|h.entries| - 1 := ChatMessage(Assistant, responseContent)];
      snapshots := snapshots + [h.entries];
      k := k + 1;
    }
    assert chunks[..k] == chunks;
    if responseContent == "" {
      h.entries := h.entries[|h.entries| - 1 := ChatMessage(Assistant, NO_RESPONSE_MESSAGE)];
      snapshots := snapshots + [h.entries];
    }
  }
}
