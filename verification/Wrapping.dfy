/** The `next` envelope, on JSON: one level of it makes no difference to a turn, a second one hides the frame. */
module Wrapping {
  import opened Options
  import opened Sequences
  import opened JsonValues
  import opened StreamTerminal
  import opened InboundPriority
  import opened TurnIds
  import opened Frames
  import opened TurnBoundary
  import opened TurnBoundaryRuns
  import opened Backpressure
  import opened Samples
  import opened Survival
  import opened DaemonSession
  import Simulation

  function Wrapped(inner: Json): Json {
    JObj(map["type" := JStr("next"), "payload" := JObj(map["data" := inner])])
  }

  /** A `next` message whose payload carries an object, whatever else it and its payload carry. */
  predicate Carries(msg: Json, inner: Json) {
    && msg.JObj? && "type" in msg.fields && msg.fields["type"] == JStr("next")
    && "payload" in msg.fields && msg.fields["payload"].JObj?
    && "data" in msg.fields["payload"].fields && msg.fields["payload"].fields["data"] == inner
    && inner.JObj?
  }

  /** The frame a bare message is, spelled out field by field. */
  predicate IsBareFrame(msg: Json, f: Frame) {
    && f.loopId == StrField(msg, "loop_id")
    && f.turnId == FrameTurnId(msg)
    && f.body == DecodeBody(msg, StrField(msg, "type"))
  }

  /** A message that is not wrapped is decoded as it is. */
  lemma BareIsItself(msg: Json)
    requires StrField(msg, "type") != "next"
    ensures IsBareFrame(msg, Decode(msg))
  {
  }

  /** A wrapped one is decoded as what it carries. */
  lemma CarriedIsDecoded(msg: Json, inner: Json)
    requires Carries(msg, inner)
    ensures IsBareFrame(inner, Decode(msg))
  {
    assert StrField(msg, "type") == "next";
    assert ObjField(msg, "payload") == Some(msg.fields["payload"]);
    assert ObjField(msg.fields["payload"], "data") == Some(inner);
  }

  lemma WrappedCarries(inner: Json)
    requires inner.JObj?
    ensures Carries(Wrapped(inner), inner)
  {
    var payload := JObj(map["data" := inner]);
    assert Wrapped(inner).fields["payload"] == payload && payload.fields["data"] == inner;
  }

  /** So wrapping changes nothing that either detector sees. */
  lemma WrappingIsInvisible(inner: Json)
    requires inner.JObj? && StrField(inner, "type") != "next"
    ensures Decode(Wrapped(inner)) == Decode(inner)
  {
    WrappedCarries(inner);
    CarriedIsDecoded(Wrapped(inner), inner);
    BareIsItself(inner);
  }

  /** Only one level comes off: a doubly wrapped frame says nothing to a turn, whatever it is. */
  lemma SecondLevelStaysOn(inner: Json)
    requires inner.JObj?
    ensures Decode(Wrapped(Wrapped(inner))).body == Other
  {
    WrappedCarries(Wrapped(inner));
    CarriedIsDecoded(Wrapped(Wrapped(inner)), Wrapped(inner));
    assert StrField(Wrapped(inner), "type") == "next";
  }

  /** And a `next` that carries no object says nothing either. */
  lemma EmptyNextSaysNothing(msg: Json)
    requires StrField(msg, "type") == "next" && !exists inner :: Carries(msg, inner)
    ensures Decode(msg).body == Other
  {
    if ObjField(msg, "payload").Some? && ObjField(ObjField(msg, "payload").value, "data").Some? {
      assert Carries(msg, ObjField(ObjField(msg, "payload").value, "data").value);
    }
  }

  // ----- Whole turns -----

  function WrapAll(msgs: seq<Json>): seq<Json> {
    Mapped(Wrapped, msgs)
  }

  predicate AllBare(msgs: seq<Json>) {
    forall i :: 0 <= i < |msgs| ==> msgs[i].JObj? && StrField(msgs[i], "type") != "next"
  }

  /** A turn whose messages come wrapped runs as the bare one, in the session and in the boundary. */
  lemma WrappedTurnsAreTheSame(drop: EarlyDrop, loopId: string, msgs: seq<Json>)
    requires AllBare(msgs)
    ensures DaemonSession.Run(drop, Begin(loopId), Simulation.Reads(WrapAll(msgs)))
         == DaemonSession.Run(drop, Begin(loopId), Simulation.Reads(msgs))
    ensures BoundaryRun(Signals(WrapAll(msgs))) == BoundaryRun(Signals(msgs))
  {
    var wrapped := WrapAll(msgs);
    forall i | 0 <= i < |msgs|
      ensures Simulation.ReadOf(wrapped[i]) == Simulation.ReadOf(msgs[i])
      ensures SignalOfWire(wrapped[i]) == SignalOfWire(msgs[i])
    {
      WrappingIsInvisible(msgs[i]);
    }
    MappedAlike(Simulation.ReadOf, wrapped, msgs);
    MappedAlike(SignalOfWire, wrapped, msgs);
  }

  /** Wrapped `running`, text and stream end bind and end a turn. */
  lemma WrappedTurnEnds(id: string)
    requires IsPlainId(id)
    ensures var b := BoundaryRun(Signals(WrapAll(ShortTurn(id))));
            b.ended && b.gate.expectedTurnId == Some(id) && b.reason == TURN_END_STREAM_END
  {
    ShortTurnIsBare(id);
    WrappedTurnsAreTheSame((namespace, mode, data) => false, "", ShortTurn(id));
    ShortTurnSignals(id);
    ShortTurnEnds(id);
  }

  lemma ShortTurnIsBare(id: string)
    ensures AllBare(ShortTurn(id))
  {
    forall i | 0 <= i < 3 ensures ShortTurn(id)[i].JObj? && StrField(ShortTurn(id)[i], "type") != "next" {
      assert StrField(ShortTurn(id)[0], "type") == "status";
      assert StrField(ShortTurn(id)[1], "type") == "event";
      assert StrField(ShortTurn(id)[2], "type") == "event";
    }
  }

  lemma ShortTurnEnds(id: string)
    requires IsPlainId(id)
    ensures BoundaryRun([Running(Some(id)), Signal.Progress, TurnEnd(Some(id))])
         == Boundary(Gate(true, true, Some(id), false), true, TURN_END_STREAM_END)
  {
    var s0, s1, s2 := Running(Some(id)), Signal.Progress, TurnEnd(Some(id));
    var running := Boundary(Gate(true, false, Some(id), false), false, "");
    assert [s0, s1, s2][..2] == [s0, s1] && [s0, s1][..1] == [s0] && [s0][..0] == [];
    assert BoundaryRun([s0]) == Feed(FRESH, s0) == running;
    assert BoundaryRun([s0, s1]) == Feed(running, s1);
    assert BoundaryRun([s0, s1, s2]) == Feed(BoundaryRun([s0, s1]), s2);
  }

  // ----- The fields of an event -----

  /** What a message says about an event, read off its JSON. */
  lemma EventFields(msg: Json)
    requires msg.JObj? && StrField(msg, "type") == "event"
    ensures var f := Decode(msg);
            && f.body.Event?
            && f.body.mode == ModeOf(StrField(msg, "mode"))
            && f.body.data == (if "data" in msg.fields then msg.fields["data"] else JNull)
            && f.body.namespace == (if "namespace" in msg.fields then msg.fields["namespace"] else JArr([]))
            && f.loopId == StrField(msg, "loop_id")
  {
  }
}
