/** Decoded inbound frames: what both turn-end detectors look at after unwrapping `next`
    (src/appkit/daemon_session.rs, src/appkit/turn_runner.rs). */
module Frames {
  import opened Options
  import opened Text
  import opened JsonValues
  import opened StreamTerminal
  import opened TurnIds
  import opened InboundPriority

  /** The status states the turn protocol turns on. */
  datatype StateName = RunningState | IdleState | StoppedState | OtherState

  /** The session compares states exactly. */
  function ExactState(state: string): StateName {
    if state == "running" then RunningState
    else if state == "idle" then IdleState
    else if state == "stopped" then StoppedState
    else OtherState
  }

  /** The boundary and the runner ignore ASCII case. */
  function LooseState(state: string): StateName {
    if EqIgnoreCase(state, "running") then RunningState
    else if EqIgnoreCase(state, "idle") then IdleState
    else if EqIgnoreCase(state, "stopped") then StoppedState
    else OtherState
  }

  lemma OneStateAtMost(state: string)
    ensures EqIgnoreCase(state, "running") <==> LooseState(state) == RunningState
    ensures EqIgnoreCase(state, "stopped") <==> LooseState(state) == StoppedState
    ensures EqIgnoreCase(state, "idle") <==> LooseState(state) == IdleState
    ensures ExactState(state) != OtherState ==> LooseState(state) == ExactState(state)
  {
    if EqIgnoreCase(state, "stopped") {
      assert |state| == 7;
      assert LowerChar(state[0]) == LowerChar("stopped"[0]) == 's';
      assert LowerChar("running"[0]) == 'r';
    }
    assert forall s :: EqIgnoreCase(s, s);
  }

  datatype Mode = Messages | Updates | Custom | OtherMode(name: string)

  function ModeOf(mode: string): Mode {
    if mode == "messages" then Messages
    else if mode == "updates" then Updates
    else if mode == "custom" then Custom
    else OtherMode(mode)
  }

  /** What an event frame means for its turn. A terminal carries the turn id of its data, if any, and
      whether it is the stream's end (by its untrimmed type) or the loop's completion. */
  datatype Kind = Terminal(dataTurn: Option<string>, streamEnd: bool) | Progress | Plain

  function KindOf(mode: string, data: Json): Kind {
    if mode == "custom" && IsTurnEndCustomData(data) then
      Terminal(FrameTurnId(data), StrField(data, "type") == STREAM_END)
    else if IsTurnProgressChunk(mode, data) then Progress
    else Plain
  }

  /** The three kinds are the two predicates: no chunk is both a turn end and progress. */
  lemma KindIsExact(mode: string, data: Json)
    ensures KindOf(mode, data).Terminal? <==> mode == "custom" && IsTurnEndCustomData(data)
    ensures KindOf(mode, data).Progress? <==> IsTurnProgressChunk(mode, data)
  {
    TerminalIsNotProgress(data);
  }

  /** Tool traffic, as the namespace tells it. */
  datatype ToolUse = NoTool | ToolCall | ToolResult

  function AsArray(v: Json): seq<Json> {
    if v.JArr? then v.items else []
  }

  function StringsIn(items: seq<Json>): seq<string> {
    if items == [] then []
    else
      var last := items[|items| - 1];
      StringsIn(items[..|items| - 1]) + if last.JStr? then [last.s] else []
  }

  function Join(parts: seq<string>): string {
    if parts == [] then ""
    else if |parts| == 1 then parts[0]
    else Join(parts[..|parts| - 1]) + "." + parts[|parts| - 1]
  }

  function ToolUseOf(namespace: Json): ToolUse {
    var ns := Join(StringsIn(AsArray(namespace)));
    if !Contains(ns, "tool") then NoTool else if Contains(ns, "result") then ToolResult else ToolCall
  }

  datatype Body =
    | Status(exact: StateName, loose: StateName)
    | Event(mode: Mode, namespace: Json, data: Json, kind: Kind, tool: ToolUse)
    | CommandResponse(cancels: bool)
    | Failure(message: string)
    | Other

  /** `turnId` is the frame's turn id; `loopId` is empty when the frame names no loop. */
  datatype Frame = Frame(loopId: string, turnId: Option<string>, body: Body)

  function ErrorMessage(frame: Json): string {
    var nested := ObjField(frame, "error");
    if nested.Some? && StrAt(nested.value, "message").Some? then StrAt(nested.value, "message").value
    else if StrAt(frame, "message").Some? then StrAt(frame, "message").value
    else "daemon error"
  }

  function Decode(msg: Json): Frame {
    var frame := UnwrapNext(msg);
    Frame(StrField(frame, "loop_id"), FrameTurnId(frame), DecodeBody(frame, StrField(frame, "type")))
  }

  function DecodeBody(frame: Json, eventType: string): Body {
    if eventType == "status" then
      Status(ExactState(StrField(frame, "state")), LooseState(StrField(frame, "state")))
    else if eventType == "event" then
      var mode, data := StrField(frame, "mode"), DataOf(frame);
      var namespace := if Get(frame, "namespace").Some? then Get(frame, "namespace").value else JArr([]);
      Event(ModeOf(mode), namespace, data, KindOf(mode, data), ToolUseOf(namespace))
    else if eventType == "command_response" then
      CommandResponse(Contains(StrField(frame, "content"), "Cancellation requested"))
    else if eventType == "error" then Failure(ErrorMessage(frame))
    else Other
  }

  predicate IsTurnEnd(f: Frame) {
    f.body.Event? && f.body.kind.Terminal?
  }

  predicate IsProgress(f: Frame) {
    f.body.Event? && f.body.kind.Progress?
  }

  /** The turn id a terminal event is judged by: its data's own id, else the frame's. */
  function TerminalTurnId(f: Frame): Option<string>
    requires IsTurnEnd(f)
  {
    f.body.kind.dataTurn.Or(f.turnId)
  }

  /** A state with a protocol meaning is written in lower case. */
  predicate LowerCaseStates(f: Frame) {
    f.body.Status? ==> f.body.exact == f.body.loose
  }
}
