/** Messages as the daemon sends them, and what they decode to: the material of the counterexamples. */
module Samples {
  import opened Options
  import opened Text
  import opened JsonValues
  import opened StreamTerminal
  import opened InboundPriority
  import opened TurnIds
  import opened Frames
  import opened TurnBoundary
  import opened Classifier
  import opened MessagePayloads

  /** A turn id as frames carry it: not blank, nothing to trim. */
  predicate IsPlainId(id: string) {
    Trim(id) == id != ""
  }

  function StatusMessage(state: string, id: string): Json {
    JObj(map["type" := JStr("status"), "state" := JStr(state), "turn_id" := JStr(id)])
  }

  function TextMessage(msgType: string, text: string, phase: string, id: string): Json {
    JObj(map["type" := JStr("event"), "mode" := JStr("messages"), "turn_id" := JStr(id),
             "data" := JArr([ItemObject(msgType, text, phase)])])
  }

  /** The same without a turn id. */
  function UntaggedText(msgType: string, text: string, phase: string): Json {
    JObj(map["type" := JStr("event"), "mode" := JStr("messages"),
             "data" := JArr([ItemObject(msgType, text, phase)])])
  }

  function CustomMessage(data: Json, id: string): Json {
    JObj(map["type" := JStr("event"), "mode" := JStr("custom"), "turn_id" := JStr(id), "data" := data])
  }

  function StreamEndMessage(id: string): Json {
    CustomMessage(JObj(map["type" := JStr(STREAM_END)]), id)
  }

  function ErrorFrame(text: string, id: string): Json {
    JObj(map["type" := JStr("error"), "turn_id" := JStr(id), "error" := JObj(map["message" := JStr(text)])])
  }

  lemma DecodeStatus(state: string, id: string)
    requires IsPlainId(id)
    ensures Decode(StatusMessage(state, id)) == Frame("", Some(id), Status(ExactState(state), LooseState(state)))
  {
    var msg := StatusMessage(state, id);
    assert StrField(msg, "type") == "status" && StrField(msg, "state") == state;
    assert StrAt(msg, "turn_id") == Some(id);
  }

  lemma DecodeRunning(id: string)
    requires IsPlainId(id)
    ensures Decode(StatusMessage("running", id)) == Frame("", Some(id), Status(RunningState, RunningState))
  {
    DecodeStatus("running", id);
    OneStateAtMost("running");
  }

  lemma NoTools()
    ensures ToolUseOf(JArr([])) == NoTool
  {
    assert Join(StringsIn([])) == "";
    assert !Contains("", "tool");
  }

  /** An event frame without a loop id, a namespace or wrapping. */
  lemma DecodeEvent(msg: Json, mode: string, data: Json, id: Option<string>)
    requires StrField(msg, "type") == "event" && StrField(msg, "mode") == mode && DataOf(msg) == data
    requires StrField(msg, "loop_id") == "" && Get(msg, "namespace").None?
    requires FrameTurnId(msg) == id
    ensures Decode(msg) == Frame("", id, Event(ModeOf(mode), JArr([]), data, KindOf(mode, data), NoTool))
  {
    NoTools();
  }

  lemma TaggedTurnId(msg: Json, id: string)
    requires StrAt(msg, "turn_id") == Some(id) && IsPlainId(id)
    ensures FrameTurnId(msg) == Some(id)
  {
  }

  function TextFrame(id: Option<string>, data: Json): Frame {
    Frame("", id, Event(Messages, JArr([]), data, Kind.Progress, NoTool))
  }

  lemma DecodeText(msgType: string, text: string, phase: string, id: string)
    requires IsPlainId(id)
    ensures Decode(TextMessage(msgType, text, phase, id))
         == TextFrame(Some(id), JArr([ItemObject(msgType, text, phase)]))
  {
    var msg := TextMessage(msgType, text, phase, id);
    TaggedTurnId(msg, id);
    DecodeEvent(msg, "messages", JArr([ItemObject(msgType, text, phase)]), Some(id));
  }

  lemma DecodeUntagged(msgType: string, text: string, phase: string)
    ensures Decode(UntaggedText(msgType, text, phase)) == TextFrame(None, JArr([ItemObject(msgType, text, phase)]))
  {
    var msg := UntaggedText(msgType, text, phase);
    assert StrAt(msg, "turn_id").None?;
    DecodeEvent(msg, "messages", JArr([ItemObject(msgType, text, phase)]), None);
  }

  const END_DATA := JObj(map["type" := JStr(STREAM_END)])

  lemma EndDataIsTerminal()
    ensures KindOf("custom", END_DATA) == Terminal(None, true)
  {
    TrimFixed(STREAM_END);
    TrimFixed("");
    assert StrField(END_DATA, "type") == STREAM_END && StrField(END_DATA, "scope") == "";
    assert IsTurnEndCustomData(END_DATA);
    assert FrameTurnId(END_DATA).None?;
  }

  lemma DecodeCustom(data: Json, id: string, kind: Kind)
    requires IsPlainId(id) && KindOf("custom", data) == kind
    ensures Decode(CustomMessage(data, id)) == Frame("", Some(id), Event(Custom, JArr([]), data, kind, NoTool))
  {
    var msg := CustomMessage(data, id);
    TaggedTurnId(msg, id);
    DecodeEvent(msg, "custom", data, Some(id));
  }

  lemma DecodeStreamEnd(id: string)
    requires IsPlainId(id)
    ensures Decode(StreamEndMessage(id))
         == Frame("", Some(id), Event(Custom, JArr([]), END_DATA, Terminal(None, true), NoTool))
  {
    EndDataIsTerminal();
    DecodeCustom(END_DATA, id, Terminal(None, true));
  }

  lemma DecodeError(text: string, id: string)
    requires IsPlainId(id)
    ensures Decode(ErrorFrame(text, id)) == Frame("", Some(id), Failure(text))
  {
    var msg := ErrorFrame(text, id);
    assert StrField(msg, "type") == "error";
    assert StrAt(msg, "turn_id") == Some(id);
    assert ObjField(msg, "error") == Some(JObj(map["message" := JStr(text)]));
  }

  // ----- What the classifier makes of them -----

  const NOTHING := EventResult("", "", Continue, "", None)

  function FailedResult(error: string): EventResult {
    EventResult("", "", FailedComplete, "", Some(error))
  }

  /** The report of an error that names no code. */
  function EnvelopeError(text: string): string {
    "daemon error [-32603]: " + text
  }

  /** The classifier on status, error and `messages` frames, and on turn ends, which it leaves to the boundary. */
  function ClassifyWire(cfg: Config, msg: Json): EventResult {
    var frame := UnwrapNext(msg);
    if StrField(frame, "type") == "error" then
      var error := ObjField(frame, "error");
      FailedResult(EnvelopeError(if error.Some? then StrField(error.value, "message") else ""))
    else if StrField(frame, "type") == "event" && StrField(frame, "mode") == "messages" then
      var r := ClassifyMessages(cfg, ReadPayload(frame));
      if r.Some? then r.value else NOTHING
    else NOTHING
  }

  lemma ClassifyMessage(cfg: Config, msgType: string, text: string, phase: string, id: string)
    requires text != ""
    ensures var msg := TextMessage(msgType, text, phase, id);
            var p := ReadPayload(msg);
            && ClassifyWire(cfg, msg)
               == (if ClassifyMessages(cfg, p).Some? then ClassifyMessages(cfg, p).value else NOTHING)
            && p.present && p.msgType == msgType && p.content == text && p.phase == phase
            && p.loopMessage == (if IsLoopAssistantPhase(phase) then Some((msgType, text)) else None)
  {
    var msg := TextMessage(msgType, text, phase, id);
    assert StrField(msg, "type") == "event" && StrField(msg, "mode") == "messages";
    assert FirstObject(DataOf(msg)) == Some(ItemObject(msgType, text, phase));
    assert DecodesAsEvent(msg);
    ReadItem(msg, msgType, text, phase);
  }

  lemma ClassifyChunk(cfg: Config, text: string, phase: string, id: string)
    requires text != ""
    ensures ClassifyWire(cfg, TextMessage("AIMessageChunk", text, phase, id)) == ContinueWith(text)
  {
    ClassifyMessage(cfg, "AIMessageChunk", text, phase, id);
  }

  lemma ClassifyReply(cfg: Config, text: string, id: string)
    requires text != "" && "goal_completion" in cfg.deliverablePhases && IsSubstantive(cfg, text)
    ensures ClassifyWire(cfg, TextMessage("ai", text, "goal_completion", id)) == DeliverAs(text, "goal_completion")
  {
    ClassifyMessage(cfg, "ai", text, "goal_completion", id);
  }

  lemma ClassifyStreamEnd(cfg: Config, id: string)
    ensures ClassifyWire(cfg, StreamEndMessage(id)) == NOTHING
  {
    var msg := StreamEndMessage(id);
    assert StrField(msg, "type") == "event" && StrField(msg, "mode") == "custom";
  }

  lemma ClassifyError(cfg: Config, text: string, id: string)
    ensures ClassifyWire(cfg, ErrorFrame(text, id)) == FailedResult(EnvelopeError(text))
  {
    var msg := ErrorFrame(text, id);
    assert StrField(msg, "type") == "error";
    assert ObjField(msg, "error") == Some(JObj(map["message" := JStr(text)]));
  }
}
