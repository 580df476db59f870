/** Drop priorities of inbound frames (src/inbound_priority.rs). */
module InboundPriority {
  import opened Options
  import opened Text
  import opened JsonValues
  import opened StreamTerminal

  const CRITICAL := 0
  const HIGH := 1
  const NORMAL := 2

  /** A `messages` payload that must survive: a stream end or the goal's final answer. */
  predicate MessagesPayloadIsCritical(data: Json) {
    || MessagesBodyEndsStream(data)
    || (FirstObject(data).Some? && StrField(FirstObject(data).value, "phase") == "goal_completion")
  }

  function DataOf(v: Json): Json {
    if v.JObj? && "data" in v.fields then v.fields["data"] else JNull
  }

  /** Priority of a frame; anything that is not an object is critical. */
  function DropPriority(event: Json): int {
    if !event.JObj? then CRITICAL
    else
      var eventType := StrField(event, "type");
      if eventType == "event_batch" || eventType == "tool_call_updates_batch" then HIGH
      else if eventType == "next" && ObjField(event, "payload").Some? then
        var payload := ObjField(event, "payload").value;
        if StrField(payload, "mode") == "messages" && MessagesPayloadIsCritical(DataOf(payload)) then CRITICAL
        else if StrField(payload, "type") == "complete" then CRITICAL
        else if ObjField(payload, "data").Some? then DropPriority(ObjField(payload, "data").value)
        else PriorityByType(event, StrField(payload, "type"))
      else PriorityByType(event, eventType)
  }

  /** The flat part of the decision, for a frame whose effective type is `eventType`. */
  function PriorityByType(event: Json, eventType: string): int {
    if eventType == "complete" || eventType == "error" || eventType == "connection_ack" then CRITICAL
    else if eventType == "status" && IsKnownState(StrField(event, "state")) then CRITICAL
    else if eventType == "event" then EventPriority(StrField(event, "mode"), DataOf(event))
    else NORMAL
  }

  predicate IsKnownState(state: string) {
    state == "idle" || state == "running" || state == "stopped" || state == "detached"
  }

  function EventPriority(mode: string, data: Json): int {
    if mode == "custom" && data.JObj? then
      var customType := StrField(data, "type");
      if IsTurnEndCustomData(data) then CRITICAL
      else if "soothe.cognition." <= customType then HIGH
      else if "soothe.error." <= customType || customType == "stream_degraded" then CRITICAL
      else if customType == "soothe.ux.stream_tool_wire.tool_call_updates_batch" then HIGH
      else NORMAL
    else if mode == "messages" && MessagesPayloadIsCritical(data) then CRITICAL
    else NORMAL
  }

  lemma {:induction false} PriorityRange(event: Json)
    ensures CRITICAL <= DropPriority(event) <= NORMAL
  {
    if StrField(event, "type") == "next" && ObjField(event, "payload").Some? {
      var payload := ObjField(event, "payload").value;
      if ObjField(payload, "data").Some? {
        PriorityRange(ObjField(payload, "data").value);
      }
    }
  }

  // ----- Acks and priorities agree -----

  /** The frame types whose ack-worthiness the priority table also sees once the frame is wrapped. */
  predicate InnerTypeKeepsAck(inner: Json) {
    var t := StrField(inner, "type");
    || t == "event" || t == "complete" || t == "error" || t == "connection_ack"
    || (t == "status" && IsKnownState(StrField(inner, "state")))
  }

  /** Inner types that send the priority decision elsewhere: batches are HIGH, `next` unwraps again. */
  predicate InnerUnwrapsAgain(inner: Json) {
    StrField(inner, "type") == "next" && ObjField(inner, "payload").Some?
  }

  /** The object a `next` frame carries, or the frame itself. */
  function Payload(event: Json): Option<Json> {
    if StrField(event, "type") == "next" then ObjField(event, "payload") else None
  }

  /** A frame that needs a delivery_ack and arrives bare is critical. */
  lemma BareAckIsCritical(event: Json)
    requires InboundNeedsDeliveryAck(event) && StrField(event, "type") != "next"
    ensures DropPriority(event) == CRITICAL
  {
  }

  /** The payloads of the `next` wrappers around a frame, from the outside in. */
  function Payloads(event: Json): seq<Json> {
    if Payload(event).None? then []
    else
      var payload := Payload(event).value;
      [payload] + if ObjField(payload, "data").Some? then Payloads(ObjField(payload, "data").value) else []
  }

  /** What is left when every wrapper with an object inside is taken off. */
  function Innermost(event: Json): Json {
    if Payload(event).Some? && ObjField(Payload(event).value, "data").Some?
    then Innermost(ObjField(Payload(event).value, "data").value) else event
  }

  /** A payload that is critical whatever it carries. */
  predicate PayloadDecides(payload: Json) {
    || (StrField(payload, "mode") == "messages" && MessagesPayloadIsCritical(DataOf(payload)))
    || StrField(payload, "type") == "complete"
  }

  /** The priority table applied to a frame that wraps no other; an unwrappable `next` goes by the type of
      its payload. */
  predicate BareIsCritical(event: Json) {
    var eventType := StrField(event, "type");
    if eventType == "event_batch" || eventType == "tool_call_updates_batch" then false
    else
      var effectiveType := if Payload(event).Some? then StrField(Payload(event).value, "type") else eventType;
      PriorityByType(event, effectiveType) == CRITICAL
  }

  /** A frame is critical exactly when one of the payloads around it says so or its innermost frame is
      critical when bare. */
  lemma {:induction false} CriticalIff(event: Json)
    requires event.JObj?
    ensures DropPriority(event) == CRITICAL
       <==> (exists p :: p in Payloads(event) && PayloadDecides(p)) || BareIsCritical(Innermost(event))
  {
    if Payload(event).Some? {
      var payload := Payload(event).value;
      if ObjField(payload, "data").Some? {
        var inner := ObjField(payload, "data").value;
        CriticalIff(inner);
        assert Payloads(event) == [payload] + Payloads(inner);
        assert DropPriority(event) == if PayloadDecides(payload) then CRITICAL else DropPriority(inner);
      } else {
        assert Payloads(event) == [payload];
      }
    }
  }

  /** A wrapped one is critical exactly when its payload says `complete`; or, if the inner frame wraps
      another one, when a payload further in decides or the innermost frame is critical when bare; or, if it
      does not, when its own type is one the priority table recognises. */
  lemma WrappedAckIsCriticalIff(event: Json)
    requires InboundNeedsDeliveryAck(event) && StrField(event, "type") == "next"
    ensures var payload := Payload(event).value;
            var inner := ObjField(payload, "data").value;
            DropPriority(event) == CRITICAL <==>
              || StrField(payload, "type") == "complete"
              || (if InnerUnwrapsAgain(inner)
                  then (exists p :: p in Payloads(inner) && PayloadDecides(p)) || BareIsCritical(Innermost(inner))
                  else InnerTypeKeepsAck(inner))
  {
    var payload := Payload(event).value;
    var inner := ObjField(payload, "data").value;
    assert StrField(payload, "mode") == "event";
    if StrField(payload, "type") != "complete" {
      assert DropPriority(event) == DropPriority(inner);
      CriticalIff(inner);
      if !InnerUnwrapsAgain(inner) {
        WrappedInner(inner);
      }
    }
  }

  lemma WrappedInner(inner: Json)
    requires inner.JObj? && NeedsAckFromEventShape(inner) && !InnerUnwrapsAgain(inner)
    ensures DropPriority(inner) == CRITICAL <==> InnerTypeKeepsAck(inner)
  {
  }

  /** The gap is real: a wrapped terminal whose inner frame names no type is acknowledged and droppable. */
  lemma AckedButDroppable()
    ensures exists event :: InboundNeedsDeliveryAck(event) && DropPriority(event) == NORMAL
  {
    var data := JObj(map["type" := JStr(STREAM_END)]);
    var inner := JObj(map["mode" := JStr("custom"), "data" := data]);
    var payload := JObj(map["mode" := JStr("event"), "data" := inner]);
    var event := JObj(map["type" := JStr("next"), "payload" := payload]);
    TrimFixed(STREAM_END);
    TrimFixed("");
    assert IsTurnEndCustomData(data);
    assert NeedsAckFromEventShape(inner);
    assert ObjField(event, "payload") == Some(payload) && ObjField(payload, "data") == Some(inner);
    assert InboundNeedsDeliveryAck(event);
    assert DropPriority(inner) == PriorityByType(inner, "") == NORMAL;
    assert DropPriority(event) == NORMAL;
  }

  /** A status frame that announces a known state is critical, bare or behind one `next`. */
  lemma StatusIsCritical(msg: Json)
    requires StrField(UnwrapNext(msg), "type") == "status" && IsKnownState(StrField(UnwrapNext(msg), "state"))
    ensures DropPriority(msg) == CRITICAL
  {
    if StrField(msg, "type") == "next" {
      var payload := ObjField(msg, "payload").value;
      assert UnwrapNext(msg) == ObjField(payload, "data").value;
    }
  }

  /** Wrapping a frame never makes it easier to drop, at any depth. */
  lemma WrappingNeverDemotes(msg: Json)
    ensures DropPriority(msg) <= DropPriority(UnwrapNext(msg))
  {
    PriorityRange(UnwrapNext(msg));
    if StrField(msg, "type") == "next" && ObjField(msg, "payload").Some? {
      var payload := ObjField(msg, "payload").value;
      if ObjField(payload, "data").Some? {
        assert UnwrapNext(msg) == ObjField(payload, "data").value;
      }
    }
  }
}
