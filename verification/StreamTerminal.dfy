/** Terminal, progress and stale-frame predicates, and `next` unwrapping
    (src/stream_terminal.rs, src/protocol.rs). */
module StreamTerminal {
  import opened Options
  import opened Text
  import opened JsonValues

  const STREAM_END := "soothe.stream.end"
  const STRANGE_LOOP_COMPLETED := "soothe.cognition.strange_loop.completed"
  const PLAN_CREATED := "soothe.cognition.plan.created"
  const STEP_PREFIX := "soothe.cognition.strange_loop.step"
  const EVENT_CARD_CREATED := "soothe.card.created"
  const EVENT_CARD_UPDATED := "soothe.card.updated"
  const EVENT_CARD_FINALIZED := "soothe.card.finalized"
  const EVENT_CARD_REPLAY_BEGIN := "soothe.card.replay.begin"
  const EVENT_CARD_REPLAY_END := "soothe.card.replay.end"

  predicate IsTurnEndType(t: string) {
    t == STREAM_END || t == STRANGE_LOOP_COMPLETED
  }

  /** The step.started, step.queued and step.completed types are all covered by the prefix. */
  predicate IsTurnProgressType(t: string) {
    || t == PLAN_CREATED
    || t == EVENT_CARD_CREATED
    || t == EVENT_CARD_UPDATED
    || t == EVENT_CARD_FINALIZED
    || STEP_PREFIX <= t
  }

  predicate IsStalePendingType(t: string) {
    || t == "connection_ack"
    || t == "complete"
    || t == EVENT_CARD_REPLAY_BEGIN
    || t == EVENT_CARD_REPLAY_END
    || t == EVENT_CARD_CREATED
  }

  predicate IsTurnEndCustomData(data: Json) {
    data.JObj? &&
    var customType := Trim(StrField(data, "type"));
    && IsTurnEndType(customType)
    && (customType == STREAM_END ==>
          var scope := ToLower(Trim(StrField(data, "scope")));
          scope == "" || scope == "turn")
  }

  predicate IsTurnProgressChunk(mode: string, data: Json) {
    if mode == "messages" || mode == "updates" then true
    else
      && mode == "custom"
      && !IsTurnEndCustomData(data)
      && data.JObj?
      && IsTurnProgressType(Trim(StrField(data, "type")))
  }

  /** Unwraps one level of `next`, when its payload carries an object. */
  function UnwrapNext(msg: Json): Json {
    if StrField(msg, "type") == "next" then
      var payload := ObjField(msg, "payload");
      if payload.Some? && ObjField(payload.value, "data").Some? then ObjField(payload.value, "data").value
      else msg
    else msg
  }

  /** The peel label of a frame that may be dropped at turn start. */
  function StalePendingFrameLabel(event: Json): Option<string> {
    if !event.JObj? then None
    else
      var eventType := StrField(event, "type");
      if IsStalePendingType(eventType) then Some(eventType)
      else if eventType == "next" then
        var payload := ObjField(event, "payload");
        if payload.None? then None
        else
          var staleMode := StrField(payload.value, "mode");
          if IsStalePendingType(staleMode) then Some(staleMode)
          else if "data" in payload.value.fields then StalePendingFrameLabel(payload.value.fields["data"])
          else None
      else if eventType == "event" && StrField(event, "mode") == "custom" && "data" in event.fields
              && IsTurnEndCustomData(event.fields["data"]) then
        var t := Trim(StrField(event.fields["data"], "type"));
        if t != "" then Some(t) else None
      else None
  }

  /** `messages` bodies whose type names a stream end. */
  predicate MessagesBodyEndsStream(data: Json) {
    var body := FirstObject(data);
    body.Some? &&
    var t := StrField(body.value, "type");
    t == STREAM_END || Contains(t, "stream.end")
  }

  predicate NeedsAckFromEventShape(event: Json) {
    event.JObj? &&
    var mode := StrField(event, "mode");
    var data := if "data" in event.fields then event.fields["data"] else JNull;
    || (mode == "custom" && IsTurnEndCustomData(data))
    || (mode == "messages" && MessagesBodyEndsStream(data))
  }

  /** Whether the client bumps a delivery_ack sequence for this frame. */
  predicate InboundNeedsDeliveryAck(event: Json) {
    event.JObj? &&
    var eventType := StrField(event, "type");
    if eventType == "complete" then true
    else if eventType == "next" then
      var payload := ObjField(event, "payload");
      && payload.Some?
      && ObjField(payload.value, "data").Some?
      && StrField(payload.value, "mode") == "event"
      && NeedsAckFromEventShape(ObjField(payload.value, "data").value)
    else eventType == "event" && NeedsAckFromEventShape(event)
  }

  function ExtractLoopIdFromInbound(event: Json): string {
    var direct := Trim(StrField(event, "loop_id"));
    if direct != "" then direct
    else if StrField(event, "type") != "next" then ""
    else
      var payload := ObjField(event, "payload");
      if payload.None? then ""
      else
        var fromPayload := Trim(StrField(payload.value, "loop_id"));
        if fromPayload != "" then fromPayload
        else
          var data := ObjField(payload.value, "data");
          if data.Some? then Trim(StrField(data.value, "loop_id")) else ""
  }

  /** A terminal frame never counts as its own progress: the two classes are disjoint. */
  lemma TerminalIsNotProgress(data: Json)
    ensures IsTurnEndCustomData(data) ==> !IsTurnProgressChunk("custom", data)
  {
  }
}
