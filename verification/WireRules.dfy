/** The wire predicates on messages spelled out: which types, states, modes, phases and places count. */
module WireRules {
  import opened Options
  import opened Text
  import opened JsonValues
  import opened StreamTerminal
  import opened InboundPriority
  import opened TurnIds
  import opened Frames
  import opened TurnBoundary

  // ----- Messages of the common shapes -----

  function Typed(t: string): Json {
    JObj(map["type" := JStr(t)])
  }

  function Scoped(t: string, scope: string): Json {
    JObj(map["type" := JStr(t), "scope" := JStr(scope)])
  }

  function EventMessage(mode: string, data: Json): Json {
    JObj(map["type" := JStr("event"), "mode" := JStr(mode), "data" := data])
  }

  function NextMessage(mode: string, data: Json): Json {
    JObj(map["type" := JStr("next"), "payload" := JObj(map["mode" := JStr(mode), "data" := data])])
  }

  function MessageItems(t: string, phase: string): Json {
    JArr([JObj(map["type" := JStr(t), "phase" := JStr(phase)])])
  }

  lemma EventReads(mode: string, data: Json)
    ensures var msg := EventMessage(mode, data);
            StrField(msg, "type") == "event" && StrField(msg, "mode") == mode && DataOf(msg) == data
  {
  }

  lemma NextReads(mode: string, data: Json)
    ensures var msg := NextMessage(mode, data);
            && StrField(msg, "type") == "next" && ObjField(msg, "payload").Some?
            && var payload := ObjField(msg, "payload").value;
               StrField(payload, "mode") == mode && StrField(payload, "type") == "" && DataOf(payload) == data
               && ObjField(payload, "data") == (if data.JObj? then Some(data) else None)
               && "data" in payload.fields && payload.fields["data"] == data
  {
    var payload := JObj(map["mode" := JStr(mode), "data" := data]);
    assert NextMessage(mode, data).fields["payload"] == payload;
  }

  lemma ItemsRead(t: string, phase: string)
    ensures var item := JObj(map["type" := JStr(t), "phase" := JStr(phase)]);
            && FirstObject(MessageItems(t, phase)) == Some(item)
            && StrField(item, "type") == t && StrField(item, "phase") == phase
  {
  }

  // ----- Terminals and progress -----

  /** Turn ends: the loop's completion, and a stream end whose scope is the turn or not given. */
  lemma TurnEndRule(t: string, scope: string)
    ensures IsTurnEndCustomData(Scoped(t, scope)) <==>
              || Trim(t) == "soothe.cognition.strange_loop.completed"
              || (Trim(t) == "soothe.stream.end" && (Trim(scope) == "" || ToLower(Trim(scope)) == "turn"))
    ensures IsTurnEndCustomData(Typed(t)) <==>
              Trim(t) == "soothe.cognition.strange_loop.completed" || Trim(t) == "soothe.stream.end"
  {
    assert StrField(Scoped(t, scope), "type") == t && StrField(Scoped(t, scope), "scope") == scope;
    assert StrField(Typed(t), "type") == t && StrField(Typed(t), "scope") == "";
    TrimFixed("");
    assert STREAM_END[7] != STRANGE_LOOP_COMPLETED[7];
    assert |ToLower(Trim(scope))| == |Trim(scope)|;
  }

  lemma OnlyObjectsEndTurns(data: Json)
    requires !data.JObj?
    ensures !IsTurnEndCustomData(data) && !IsTurnProgressChunk("custom", data)
  {
  }

  /** Progress: any message or update; of the custom payloads plans, steps and cards. */
  lemma ProgressRule(mode: string, t: string)
    ensures IsTurnProgressChunk(mode, Typed(t)) <==>
              || mode == "messages" || mode == "updates"
              || (mode == "custom"
                  && (Trim(t) == "soothe.cognition.plan.created"
                      || "soothe.cognition.strange_loop.step" <= Trim(t)
                      || Trim(t) == "soothe.card.created" || Trim(t) == "soothe.card.updated"
                      || Trim(t) == "soothe.card.finalized"))
  {
    assert StrField(Typed(t), "type") == t;
    TurnEndRule(t, "");
    if IsTurnEndCustomData(Typed(t)) {
      TerminalTypesAreNotProgress(Trim(t));
    }
  }

  lemma TerminalTypesAreNotProgress(t: string)
    requires t == "soothe.stream.end" || t == "soothe.cognition.strange_loop.completed"
    ensures t != "soothe.cognition.plan.created" && !("soothe.cognition.strange_loop.step" <= t)
    ensures t != "soothe.card.created" && t != "soothe.card.updated" && t != "soothe.card.finalized"
  {
    assert "soothe.cognition.strange_loop.step"[30] == 's' && "soothe.cognition.strange_loop.step"[7] == 'c';
    assert "soothe.cognition.strange_loop.completed"[30] == 'c' && "soothe.stream.end"[7] == 's';
    assert "soothe.cognition.plan.created"[17] == 'p' && "soothe.cognition.strange_loop.completed"[17] == 's';
    assert "soothe.card.created"[8] == 'a' && "soothe.cognition.strange_loop.completed"[8] == 'o';
    assert "soothe.card.updated"[8] == 'a' && "soothe.card.finalized"[8] == 'a';
  }

  /** How a terminal is called in the end state: by its type as it is written. */
  lemma EndKindRule(t: string)
    requires Trim(t) == "soothe.cognition.strange_loop.completed" || Trim(t) == "soothe.stream.end"
    ensures KindOf("custom", Typed(t)) == Terminal(None, t == "soothe.stream.end")
  {
    TurnEndRule(t, "");
    assert StrField(Typed(t), "type") == t;
  }

  // ----- Drop priorities -----

  predicate IsOneOf(s: string, a: string, b: string, c: string) {
    s == a || s == b || s == c
  }

  /** A message that has nothing but a type. */
  lemma TypePriority(t: string)
    ensures DropPriority(Typed(t)) ==
              if t == "event_batch" || t == "tool_call_updates_batch" then 1
              else if IsOneOf(t, "complete", "error", "connection_ack") then 0
              else 2
  {
    assert StrField(Typed(t), "type") == t && StrField(Typed(t), "state") == "" && StrField(Typed(t), "mode") == "";
  }

  lemma StatePriority(state: string)
    ensures DropPriority(JObj(map["type" := JStr("status"), "state" := JStr(state)])) ==
              if state == "detached" || IsOneOf(state, "idle", "running", "stopped") then 0 else 2
  {
    var msg := JObj(map["type" := JStr("status"), "state" := JStr(state)]);
    assert StrField(msg, "type") == "status" && StrField(msg, "state") == state;
  }

  /** Custom events: terminals and errors are critical, cognition and tool batches high. */
  lemma CustomPriority(t: string)
    ensures DropPriority(EventMessage("custom", Typed(t))) ==
              if IsTurnEndCustomData(Typed(t)) then 0
              else if "soothe.cognition." <= t then 1
              else if "soothe.error." <= t || t == "stream_degraded" then 0
              else if t == "soothe.ux.stream_tool_wire.tool_call_updates_batch" then 1
              else 2
  {
    EventReads("custom", Typed(t));
    assert StrField(Typed(t), "type") == t;
  }

  /** Message events: critical when the first item ends the stream or is the goal's final answer, bare or in the
      payload of a `next`. */
  lemma MessagesPriority(t: string, phase: string)
    ensures DropPriority(EventMessage("messages", MessageItems(t, phase))) ==
              if Contains(t, "stream.end") || phase == "goal_completion" then 0 else 2
    ensures DropPriority(NextMessage("messages", MessageItems(t, phase))) ==
              if Contains(t, "stream.end") || phase == "goal_completion" then 0 else 2
  {
    EventReads("messages", MessageItems(t, phase));
    NextReads("messages", MessageItems(t, phase));
    ItemsRead(t, phase);
    if t == STREAM_END {
      assert STREAM_END[7..] == "stream.end";
      assert EndsWith(t, "stream.end");
    }
  }

  // ----- Stale frames -----

  predicate IsStaleName(t: string) {
    || IsOneOf(t, "connection_ack", "complete", "soothe.card.created")
    || t == "soothe.card.replay.begin" || t == "soothe.card.replay.end"
  }

  /** A bare message is stale by its type; an event, by a turn end in its custom data. */
  lemma StaleRule(t: string, data: Json)
    ensures StalePendingFrameLabel(Typed(t)) == if IsStaleName(t) then Some(t) else None
    ensures StalePendingFrameLabel(EventMessage("custom", data))
         == if IsTurnEndCustomData(data) then Some(Trim(StrField(data, "type"))) else None
  {
    assert StrField(Typed(t), "type") == t;
    assert "payload" !in Typed(t).fields && "data" !in Typed(t).fields;
    EventReads("custom", data);
  }

  /** A `next` is stale by the mode of its payload, else as what it carries, to any depth. */
  lemma StaleNextRule(mode: string, data: Json)
    ensures StalePendingFrameLabel(NextMessage(mode, data))
         == if IsStaleName(mode) then Some(mode) else StalePendingFrameLabel(data)
  {
    NextReads(mode, data);
  }

  // ----- Delivery acks -----

  /** Acknowledged are `complete`, terminal events, and terminal events inside a `next` whose payload is in mode
      `event`. */
  lemma AckRule(t: string, phase: string, data: Json, mode: string)
    ensures InboundNeedsDeliveryAck(Typed(t)) <==> t == "complete"
    ensures InboundNeedsDeliveryAck(EventMessage("custom", data)) <==> IsTurnEndCustomData(data)
    ensures InboundNeedsDeliveryAck(EventMessage("messages", MessageItems(t, phase))) <==> Contains(t, "stream.end")
    ensures InboundNeedsDeliveryAck(NextMessage(mode, EventMessage("custom", data)))
       <==> mode == "event" && IsTurnEndCustomData(data)
  {
    assert StrField(Typed(t), "type") == t && StrField(Typed(t), "mode") == "";
    EventReads("custom", data);
    EventReads("messages", MessageItems(t, phase));
    ItemsRead(t, phase);
    NextReads(mode, EventMessage("custom", data));
    if t == STREAM_END {
      assert STREAM_END[7..] == "stream.end";
      assert EndsWith(t, "stream.end");
    }
  }

  /** The first of these that is not blank, trimmed. */
  function FirstNonBlank(a: string, b: string, c: string): string {
    if Trim(a) != "" then Trim(a) else if Trim(b) != "" then Trim(b) else Trim(c)
  }

  /** The loop of a frame: its own, else its payload's, else that of the payload's data; the last two only of
      a `next`. */
  lemma LoopIdRule(t: string, own: string, ofPayload: string, ofData: string)
    ensures var data := JObj(map["loop_id" := JStr(ofData)]);
            var payload := JObj(map["loop_id" := JStr(ofPayload), "data" := data]);
            var msg := JObj(map["type" := JStr(t), "loop_id" := JStr(own), "payload" := payload]);
            ExtractLoopIdFromInbound(msg) == if t == "next" then FirstNonBlank(own, ofPayload, ofData) else Trim(own)
  {
    var data := JObj(map["loop_id" := JStr(ofData)]);
    var payload := JObj(map["loop_id" := JStr(ofPayload), "data" := data]);
    var msg := JObj(map["type" := JStr(t), "loop_id" := JStr(own), "payload" := payload]);
    assert StrField(msg, "type") == t && StrField(msg, "loop_id") == own && ObjField(msg, "payload") == Some(payload);
    assert StrField(payload, "loop_id") == ofPayload && ObjField(payload, "data") == Some(data);
    assert StrField(data, "loop_id") == ofData;
  }

  // ----- Turn ids -----

  function Tagged(t: string, own: string, ofData: string): Json {
    JObj(map["type" := JStr("event"), "mode" := JStr("custom"), "turn_id" := JStr(own),
             "data" := JObj(map["type" := JStr(t), "turn_id" := JStr(ofData)])])
  }

  /** A frame's turn id is its own, trimmed, and that of its data only when its own is blank. */
  lemma TurnIdRule(t: string, own: string, ofData: string)
    ensures FrameTurnId(Tagged(t, own, ofData))
         == if Trim(own) != "" then Some(Trim(own)) else if Trim(ofData) != "" then Some(Trim(ofData)) else None
  {
    var data := JObj(map["type" := JStr(t), "turn_id" := JStr(ofData)]);
    var msg := Tagged(t, own, ofData);
    assert StrAt(msg, "turn_id") == Some(own) && msg.fields["data"] == data && ObjField(msg, "data") == Some(data);
    assert StrAt(data, "turn_id") == Some(ofData);
  }

  function Present(id: string): Option<string> {
    if Trim(id) != "" then Some(Trim(id)) else None
  }

  lemma TaggedDecodes(t: string, own: string, ofData: string)
    requires Trim(t) == "soothe.stream.end" || Trim(t) == "soothe.cognition.strange_loop.completed"
    ensures var f := Decode(Tagged(t, own, ofData));
            && f.body.Event? && f.body.kind == Terminal(Present(ofData), t == "soothe.stream.end")
            && f.turnId == (if Present(own).Some? then Present(own) else Present(ofData))
  {
    var data := JObj(map["type" := JStr(t), "turn_id" := JStr(ofData)]);
    var msg := Tagged(t, own, ofData);
    TurnIdRule(t, own, ofData);
    TaggedDataEnds(t, ofData);
    TaggedReads(t, own, ofData);
    DecodeTagged(msg, data, FrameTurnId(msg), Terminal(Present(ofData), t == "soothe.stream.end"));
  }

  lemma TaggedReads(t: string, own: string, ofData: string)
    ensures var msg := Tagged(t, own, ofData);
            && StrField(msg, "type") == "event" && StrField(msg, "mode") == "custom"
            && DataOf(msg) == JObj(map["type" := JStr(t), "turn_id" := JStr(ofData)])
  {
  }

  /** A terminal is judged the other way round: by the id of its data first. */
  lemma TerminalIdRule(t: string, own: string, ofData: string)
    requires Trim(t) == "soothe.stream.end" || Trim(t) == "soothe.cognition.strange_loop.completed"
    ensures var f := Decode(Tagged(t, own, ofData));
            var id := if Present(ofData).Some? then Present(ofData) else Present(own);
            IsTurnEnd(f) && TerminalTurnId(f) == id && SignalOf(f) == TurnEnd(id)
  {
    var f := Decode(Tagged(t, own, ofData));
    TaggedDecodes(t, own, ofData);
    TerminalOfBoth(f, Present(ofData), f.turnId);
  }

  lemma DecodeTagged(msg: Json, data: Json, id: Option<string>, kind: Kind)
    requires StrField(msg, "type") == "event" && StrField(msg, "mode") == "custom" && DataOf(msg) == data
    requires FrameTurnId(msg) == id && KindOf("custom", data) == kind
    ensures Decode(msg).turnId == id && Decode(msg).body.Event? && Decode(msg).body.kind == kind
  {
  }

  lemma TerminalOfBoth(f: Frame, ofData: Option<string>, own: Option<string>)
    requires f.turnId == own && f.body.Event? && f.body.kind.Terminal? && f.body.kind.dataTurn == ofData
    ensures IsTurnEnd(f) && SignalOf(f) == TurnEnd(if ofData.Some? then ofData else own)
    ensures TerminalTurnId(f) == if ofData.Some? then ofData else own
  {
  }

  lemma TaggedDataEnds(t: string, ofData: string)
    requires Trim(t) == "soothe.stream.end" || Trim(t) == "soothe.cognition.strange_loop.completed"
    ensures var data := JObj(map["type" := JStr(t), "turn_id" := JStr(ofData)]);
            KindOf("custom", data)
            == Terminal(Present(ofData), t == "soothe.stream.end")
  {
    var data := JObj(map["type" := JStr(t), "turn_id" := JStr(ofData)]);
    assert StrField(data, "type") == t && StrField(data, "scope") == "";
    assert StrAt(data, "turn_id") == Some(ofData) && ObjField(data, "data").None?;
    TrimFixed("");
    assert IsTurnEndCustomData(data);
  }

  // ----- States, tools, errors, cancellation -----

  lemma ExactStateRule(state: string)
    ensures ExactState(state) == RunningState <==> state == "running"
    ensures ExactState(state) == IdleState <==> state == "idle"
    ensures ExactState(state) == StoppedState <==> state == "stopped"
  {
  }

  /** Tool traffic is told by the dotted namespace: a result if it names one, else a call. */
  lemma ToolRule(a: string, b: string)
    ensures var name := a + "." + b;
            ToolUseOf(JArr([JStr(a), JNull, JStr(b)])) ==
              if !Contains(name, "tool") then NoTool else if Contains(name, "result") then ToolResult else ToolCall
  {
    var items := [JStr(a), JNull, JStr(b)];
    assert items[..2] == [JStr(a), JNull] && items[..2][..1] == [JStr(a)] && items[..2][..1][..0] == [];
    assert StringsIn(items[..2][..1]) == [] + [a];
    assert StringsIn(items[..2]) == [a] + [];
    assert StringsIn(items) == [a] + [b];
    assert [a, b][..1] == [a];
    assert Join([a, b]) == a + "." + b;
  }

  /** An error says its nested message, else its own, else a stock phrase. */
  lemma ErrorRule(nested: string, own: string)
    ensures var inner := JObj(map["message" := JStr(nested)]);
            ErrorMessage(JObj(map["error" := inner, "message" := JStr(own)])) == nested
    ensures ErrorMessage(JObj(map["message" := JStr(own)])) == own
    ensures ErrorMessage(JObj(map["error" := JStr(nested), "message" := JStr(own)])) == own
    ensures ErrorMessage(JObj(map[])) == "daemon error"
  {
    var inner := JObj(map["message" := JStr(nested)]);
    assert ObjField(JObj(map["error" := inner, "message" := JStr(own)]), "error") == Some(inner);
    assert StrAt(inner, "message") == Some(nested);
    assert ObjField(JObj(map["error" := JStr(nested), "message" := JStr(own)]), "error").None?;
  }

  /** A command response cancels the turn when it says that cancellation was requested. */
  lemma CancelRule(content: string)
    ensures Decode(JObj(map["type" := JStr("command_response"), "content" := JStr(content)])).body
         == CommandResponse(Contains(content, "Cancellation requested"))
  {
    var msg := JObj(map["type" := JStr("command_response"), "content" := JStr(content)]);
    assert StrField(msg, "type") == "command_response" && StrField(msg, "content") == content;
  }
}
