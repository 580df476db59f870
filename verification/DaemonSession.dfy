/** One streamed turn of a daemon session (src/appkit/daemon_session.rs). */
module DaemonSession {
  import opened Options
  import opened Text
  import opened JsonValues
  import opened StreamTerminal
  import opened Sequences
  import opened TurnIds
  import opened Frames
  import opened TurnBoundary
  import BoundedQueue
  import InboundQueue

  /** What one pass of a read loop meets: its deadline, a failed read, a quiet read, or a decoded frame.
      `maxWait` is the time budget as text. */
  datatype Input = DeadlinePassed(maxWait: string) | ReadFailed | Quiet(alive: bool) | Got(frame: Frame)

  type EarlyDrop = (seq<Json>, Mode, Json) -> bool

  datatype Chunk = Chunk(namespace: Json, mode: Mode, data: Json)

  datatype Stats = Stats(
    total: nat, messages: nat, updates: nat, custom: nat, skipped: nat, filteredEarly: nat,
    toolCalls: nat, toolResults: nat, textChunks: nat, postIdleDrained: nat, inboundDropped: nat)

  const NO_STATS := Stats(0, 0, 0, 0, 0, 0, 0, 0, 0, 0, 0)

  /** How the last turn ended; `NoEnd` until it has. */
  datatype EndState = NoEnd | EndIdle | EndStopped | EndStream | EndCompleted | EndConnectionLost

  datatype Phase = Reading | Draining | Finished(ok: bool)

  /** The loop's own variables and the session fields it writes. */
  datatype Turn = Turn(
    phase: Phase,
    loopId: string,
    expectedLoop: string,
    started: bool,
    turnId: Option<string>,
    progress: bool,
    cancelSeen: bool,
    out: seq<Chunk>,
    stats: Stats,
    endState: EndState,
    errorMessage: string)

  function Begin(loopId: string): Turn {
    Turn(Reading, loopId, loopId, false, None, false, false, [], NO_STATS, NoEnd, "")
  }

  function TimeoutMessage(maxWait: string, loopId: string): string {
    "turn timed out after " + maxWait + " (loop=" + loopId + ")"
  }

  // ----- The turn as transitions -----

  /** A frame of another loop than the one this session talks to. */
  predicate IsForeign(expectedLoop: string, f: Frame) {
    expectedLoop != "" && f.loopId != "" && f.loopId != expectedLoop
  }

  /** A frame of another turn than the bound one. A terminal status may leave its turn id out. */
  predicate IsOtherTurn(turnId: Option<string>, f: Frame) {
    && turnId.Some?
    && (f.body.Event? || (f.body.Status? && f.body.exact != RunningState))
    && (f.body.Status? && IsTerminalState(f.body.exact) ==> f.turnId.Some?)
    && !TurnIdsMatch(turnId, f.turnId)
  }

  predicate IsTerminalState(state: StateName) {
    state == IdleState || state == StoppedState
  }

  function CountEvent(st: Stats, mode: Mode): Stats {
    var s := st.(total := st.total + 1);
    match mode
    case Messages => s.(messages := st.messages + 1)
    case Updates => s.(updates := st.updates + 1)
    case Custom => s.(custom := st.custom + 1)
    case OtherMode(_) => s
  }

  function CountText(st: Stats, mode: Mode): Stats {
    if mode == Messages then st.(textChunks := st.textChunks + 1) else st
  }

  function CountTool(st: Stats, tool: ToolUse): Stats {
    match tool
    case NoTool => st
    case ToolCall => st.(toolCalls := st.toolCalls + 1)
    case ToolResult => st.(toolResults := st.toolResults + 1)
  }

  function ChunkOf(f: Frame): Chunk
    requires f.body.Event?
  {
    Chunk(f.body.namespace, f.body.mode, f.body.data)
  }

  predicate Dropped(drop: EarlyDrop, f: Frame)
    requires f.body.Event?
  {
    drop(AsArray(f.body.namespace), f.body.mode, f.body.data)
  }

  function StatusStep(t: Turn, state: StateName, turnId: Option<string>): Turn {
    match state
    case RunningState =>
      if turnId.None? then t.(started := true)
      else
        var bound := Bind(t.turnId, turnId.value);
        t.(started := true, turnId := bound, progress := t.progress && (t.turnId.None? || bound == t.turnId))
    case StoppedState =>
      if t.started && (t.turnId.None? || TurnIdsMatch(t.turnId, turnId)) then
        t.(phase := Draining, endState := EndStopped)
      else t
    case IdleState =>
      if t.started && IsIdleTerminalAllowed(t.turnId, turnId, t.started, t.progress, t.cancelSeen) then
        t.(phase := Draining, endState := EndIdle)
      else t
    case OtherState => t
  }

  function EndLabel(f: Frame): EndState
    requires IsTurnEnd(f)
  {
    if f.body.kind.streamEnd then EndStream else EndCompleted
  }

  function EventStep(drop: EarlyDrop, t: Turn, f: Frame): Turn
    requires f.body.Event?
  {
    var stats := CountEvent(t.stats, f.body.mode);
    if Dropped(drop, f) then t.(stats := stats.(filteredEarly := stats.filteredEarly + 1))
    else if IsTurnEnd(f) && !IsTurnTerminalAllowed(t.turnId, TerminalTurnId(f), t.started, t.progress) then
      t.(stats := stats.(skipped := stats.skipped + 1))
    else Collect(t, f)
  }

  /** An event that is handed out. */
  function Collect(t: Turn, f: Frame): Turn
    requires f.body.Event?
  {
    var stats := CountEvent(t.stats, f.body.mode);
    var texted := if IsProgress(f) then CountText(stats, f.body.mode) else stats;
    var next := t.(stats := CountTool(texted, f.body.tool),
                   progress := t.progress || IsProgress(f),
                   out := t.out + [ChunkOf(f)]);
    if IsTurnEnd(f) then next.(phase := Draining, endState := EndLabel(f)) else next
  }

  function FrameStep(drop: EarlyDrop, t: Turn, f: Frame): Turn {
    if IsForeign(t.expectedLoop, f) || IsOtherTurn(t.turnId, f) then t
    else
      match f.body
      case Failure(message) => t.(phase := Finished(false), errorMessage := message)
      case Status(state, _) =>
        var at := if f.loopId != "" then t.(loopId := f.loopId, expectedLoop := f.loopId) else t;
        StatusStep(at, state, f.turnId)
      case CommandResponse(cancels) =>
        if cancels then t.(cancelSeen := true) else t
      case Event(_, _, _, _, _) => EventStep(drop, t, f)
      case Other => t
  }

  function DrainFrameStep(drop: EarlyDrop, t: Turn, f: Frame): Turn {
    if IsForeign(t.expectedLoop, f) then t
    else
      match f.body
      case Failure(_) => t.(phase := Finished(true))
      case Status(_, _) => if f.loopId != "" then t.(loopId := f.loopId) else t
      case Event(mode, _, _, _, _) =>
        var stats := CountEvent(t.stats, mode);
        if Dropped(drop, f) then t.(stats := stats.(filteredEarly := stats.filteredEarly + 1))
        else t.(stats := stats.(postIdleDrained := stats.postIdleDrained + 1), out := t.out + [ChunkOf(f)])
      case _ => t
  }

  function Step(drop: EarlyDrop, t: Turn, input: Input): Turn {
    match t.phase
    case Finished(_) => t
    case Draining =>
      if input.Got? then DrainFrameStep(drop, t, input.frame) else t.(phase := Finished(true))
    case Reading =>
      match input
      case DeadlinePassed(maxWait) =>
        t.(phase := Finished(false), errorMessage := TimeoutMessage(maxWait, t.expectedLoop))
      case ReadFailed => t.(phase := Finished(false))
      case Quiet(alive) =>
        if t.started && !alive then t.(phase := Finished(false), endState := EndConnectionLost) else t
      case Got(f) => FrameStep(drop, t, f)
  }

  function StepOf(drop: EarlyDrop): (Turn, Input) -> Turn {
    (t: Turn, input: Input) => Step(drop, t, input)
  }

  function Run(drop: EarlyDrop, t: Turn, inputs: seq<Input>): Turn {
    Fold(StepOf(drop), t, inputs)
  }

  lemma RunNext(drop: EarlyDrop, t: Turn, inputs: seq<Input>, i: nat)
    requires i < |inputs|
    ensures Run(drop, t, inputs[..i + 1]) == Step(drop, Run(drop, t, inputs[..i]), inputs[i])
  {
    FoldNext(StepOf(drop), t, inputs, i);
  }

  /** A finished turn takes no notice of later inputs. */
  lemma FinishedStays(drop: EarlyDrop, t: Turn, inputs: seq<Input>, i: nat)
    requires i <= |inputs| && Run(drop, t, inputs[..i]).phase.Finished?
    ensures Run(drop, t, inputs) == Run(drop, t, inputs[..i])
  {
    FoldStays(StepOf(drop), t, inputs, i);
  }

  /** A loop that stops because the turn is finished or no input is left has seen the whole run. */
  lemma ReadOut(drop: EarlyDrop, t: Turn, inputs: seq<Input>, i: nat)
    requires i <= |inputs| && (i == |inputs| || Run(drop, t, inputs[..i]).phase.Finished?)
    ensures Run(drop, t, inputs) == Run(drop, t, inputs[..i])
  {
    if i == |inputs| {
      assert inputs[..i] == inputs;
    } else {
      FinishedStays(drop, t, inputs, i);
    }
  }

  // ----- The session object -----

  /** The read loop's local variables. */
  datatype Locals = Locals(
    expectedLoop: string,
    started: bool,
    turnId: Option<string>,
    progress: bool,
    cancelSeen: bool,
    out: seq<Chunk>)

  class Session {
    const drop: EarlyDrop
    var loopId: string
    var lastTurnEndState: EndState
    var lastTurnCancelSeen: bool
    var lastTurnErrorMessage: string
    var stats: Stats

    constructor (drop: EarlyDrop, loopId: string)
      ensures this.drop == drop && this.loopId == loopId
    {
      this.drop, this.loopId := drop, loopId;
      lastTurnEndState, lastTurnCancelSeen, lastTurnErrorMessage, stats := NoEnd, false, "", NO_STATS;
    }

    /** The turn as these locals and the session's fields describe it. */
    ghost function View(v: Locals, phase: Phase): Turn
      reads this
    {
      Turn(phase, loopId, v.expectedLoop, v.started, v.turnId, v.progress, v.cancelSeen, v.out, stats,
           lastTurnEndState, lastTurnErrorMessage)
    }

    /** The cancel flag is kept twice: as a local and as a field. */
    ghost predicate CancelAgrees(v: Locals)
      reads this
    {
      v.cancelSeen == lastTurnCancelSeen
    }

    method HandleStatus(v: Locals, state: StateName, turnId: Option<string>) returns (w: Locals, phase: Phase)
      modifies this`lastTurnEndState
      ensures View(w, phase) == StatusStep(old(View(v, Reading)), state, turnId)
      ensures w.cancelSeen == v.cancelSeen
    {
      w, phase := v, Reading;
      match state
      case RunningState =>
        w := w.(started := true);
        if turnId.Some? && Rebinds(v.turnId, turnId.value) {
          if v.turnId.Some? && v.turnId != turnId {
            w := w.(progress := false);
          }
          w := w.(turnId := turnId);
        }
      case StoppedState =>
        if !v.started || (v.turnId.Some? && !TurnIdsMatch(v.turnId, turnId)) {
          return;
        }
        lastTurnEndState := EndStopped;
        phase := Draining;
      case IdleState =>
        if !v.started || !IsIdleTerminalAllowed(v.turnId, turnId, v.started, v.progress, v.cancelSeen) {
          return;
        }
        lastTurnEndState := EndIdle;
        phase := Draining;
      case OtherState =>
    }

    method HandleEvent(v: Locals, f: Frame) returns (w: Locals, phase: Phase)
      requires f.body.Event?
      modifies this`stats, this`lastTurnEndState
      ensures View(w, phase) == EventStep(drop, old(View(v, Reading)), f)
      ensures w.cancelSeen == v.cancelSeen
    {
      w, phase := v, Reading;
      var namespace, mode, data := AsArray(f.body.namespace), f.body.mode, f.body.data;
      stats := CountEvent(stats, mode);
      if drop(namespace, mode, data) {
        stats := stats.(filteredEarly := stats.filteredEarly + 1);
        return;
      }
      if IsTurnEnd(f) && !IsTurnTerminalAllowed(v.turnId, TerminalTurnId(f), v.started, v.progress) {
        stats := stats.(skipped := stats.skipped + 1);
        return;
      }
      if IsProgress(f) {
        w := w.(progress := true);
        stats := CountText(stats, mode);
      }
      stats := CountTool(stats, f.body.tool);
      w := w.(out := w.out + [Chunk(f.body.namespace, mode, data)]);
      if IsTurnEnd(f) {
        lastTurnEndState := EndLabel(f);
        phase := Draining;
      }
    }

    method HandleFrame(v: Locals, f: Frame) returns (w: Locals, phase: Phase)
      requires CancelAgrees(v)
      modifies this
      ensures View(w, phase) == FrameStep(drop, old(View(v, Reading)), f)
      ensures CancelAgrees(w)
    {
      w, phase := v, Reading;
      if IsForeign(v.expectedLoop, f) || IsOtherTurn(v.turnId, f) {
        return;
      }
      match f.body
      case Failure(message) =>
        lastTurnErrorMessage := message;
        phase := Finished(false);
      case Status(state, _) =>
        if f.loopId != "" {
          loopId := f.loopId;
          w := w.(expectedLoop := f.loopId);
        }
        w, phase := HandleStatus(w, state, f.turnId);
      case CommandResponse(cancels) =>
        if cancels {
          w := w.(cancelSeen := true);
          lastTurnCancelSeen := true;
        }
      case Event(_, _, _, _, _) =>
        w, phase := HandleEvent(v, f);
      case Other =>
    }

    method HandleInput(v: Locals, input: Input) returns (w: Locals, phase: Phase)
      requires CancelAgrees(v)
      modifies this
      ensures View(w, phase) == Step(drop, old(View(v, Reading)), input)
      ensures CancelAgrees(w)
    {
      w, phase := v, Reading;
      match input
      case DeadlinePassed(maxWait) =>
        lastTurnErrorMessage := TimeoutMessage(maxWait, v.expectedLoop);
        phase := Finished(false);
      case ReadFailed =>
        phase := Finished(false);
      case Quiet(alive) =>
        if v.started && !alive {
          lastTurnEndState := EndConnectionLost;
          phase := Finished(false);
        }
      case Got(f) =>
        w, phase := HandleFrame(v, f);
    }

    method HandleDrainFrame(v: Locals, f: Frame) returns (w: Locals, phase: Phase)
      modifies this`loopId, this`stats
      ensures View(w, phase) == DrainFrameStep(drop, old(View(v, Draining)), f)
      ensures w.cancelSeen == v.cancelSeen
      ensures phase == Draining || phase == Finished(true)
    {
      w, phase := v, Draining;
      if IsForeign(v.expectedLoop, f) {
        return;
      }
      match f.body
      case Failure(_) =>
        phase := Finished(true);
      case Status(_, _) =>
        if f.loopId != "" {
          loopId := f.loopId;
        }
      case Event(mode, namespace, data, _, _) =>
        stats := CountEvent(stats, mode);
        if drop(AsArray(namespace), mode, data) {
          stats := stats.(filteredEarly := stats.filteredEarly + 1);
          return;
        }
        stats := stats.(postIdleDrained := stats.postIdleDrained + 1);
        w := w.(out := w.out + [Chunk(namespace, mode, data)]);
      case _ =>
    }

    /** One pass of the drain, as the session's next transition. */
    method HandleDrainInput(v: Locals, inputs: seq<Input>, i: nat, ghost t0: Turn)
      returns (w: Locals, phase: Phase)
      requires i < |inputs| && View(v, Draining) == Run(drop, t0, inputs[..i])
      modifies this`loopId, this`stats
      ensures View(w, phase) == Run(drop, t0, inputs[..i + 1])
      ensures w.cancelSeen == v.cancelSeen
      ensures phase == Draining || phase == Finished(true)
    {
      RunNext(drop, t0, inputs, i);
      if inputs[i].Got? {
        w, phase := HandleDrainFrame(v, inputs[i].frame);
      } else {
        w, phase := v, Finished(true);
      }
    }

    method FinalizeInboundDropped(baseline: nat, now: nat)
      modifies this`stats
      ensures stats == old(stats).(inboundDropped := if now >= baseline then now - baseline else 0)
    {
      stats := stats.(inboundDropped := if now >= baseline then now - baseline else 0);
    }

    /** Collects what still arrives after the end, until the window closes, a read brings nothing or an
        error frame comes. `t0` is the turn before any input. */
    method DrainAfterIdle(v0: Locals, inputs: seq<Input>, from: nat, ghost t0: Turn)
      returns (v: Locals, phase: Phase)
      requires from <= |inputs|
      requires View(v0, Draining) == Run(drop, t0, inputs[..from])
      modifies this`loopId, this`stats
      ensures View(v, phase) == Run(drop, t0, inputs) && v.cancelSeen == v0.cancelSeen
    {
      v, phase := v0, Draining;
      var i := from;
      while i < |inputs| && phase == Draining
        invariant from <= i <= |inputs|
        invariant View(v, phase) == Run(drop, t0, inputs[..i]) && v.cancelSeen == v0.cancelSeen
        invariant phase == Draining || phase == Finished(true)
      {
        v, phase := HandleDrainInput(v, inputs, i, t0);
        i := i + 1;
      }
      ReadOut(drop, t0, inputs, i);
    }

    /** Streams one turn: peels the leftovers waiting in the client's queue, then reads. The inputs are what the
        loop's successive reads bring; a turn they do not finish is still `Reading` or `Draining`.
        `droppedAfter` is the client's drop counter at the end. */
    method IterTurnChunks(client: InboundQueue.Inbound, inputs: seq<Input>, droppedAfter: nat)
      returns (out: seq<Chunk>, phase: Phase, ghost end: Turn)
      modifies this, client
      ensures client.View() == BoundedQueue.Step(InboundQueue.FRAMES, old(client.View()), BoundedQueue.Peel)
      ensures end == Run(drop, Begin(old(loopId)), inputs)
      ensures phase == end.phase && out == end.out
      ensures loopId == end.loopId && lastTurnEndState == end.endState
      ensures lastTurnCancelSeen == end.cancelSeen && lastTurnErrorMessage == end.errorMessage
      ensures stats == end.stats.(inboundDropped := if phase.Finished? && droppedAfter >= old(client.droppedCount)
                                                    then droppedAfter - old(client.droppedCount) else 0)
    {
      var droppedBefore := client.droppedCount;
      var _ := client.PeelStalePendingControlEvents();
      out, phase, end := ReadTurn(inputs, droppedBefore, droppedAfter);
    }

    /** The two read loops of a turn. */
    method ReadTurn(inputs: seq<Input>, droppedBefore: nat, droppedAfter: nat)
      returns (out: seq<Chunk>, phase: Phase, ghost end: Turn)
      modifies this
      ensures end == Run(drop, Begin(old(loopId)), inputs)
      ensures phase == end.phase && out == end.out
      ensures loopId == end.loopId && lastTurnEndState == end.endState
      ensures lastTurnCancelSeen == end.cancelSeen && lastTurnErrorMessage == end.errorMessage
      ensures stats == end.stats.(inboundDropped := if phase.Finished? && droppedAfter >= droppedBefore
                                                    then droppedAfter - droppedBefore else 0)
    {
      lastTurnEndState, lastTurnErrorMessage, lastTurnCancelSeen, stats := NoEnd, "", false, NO_STATS;
      var v := Locals(loopId, false, None, false, false, []);
      phase := Reading;
      var i := 0;
      ghost var t0 := Begin(old(loopId));
      while i < |inputs| && phase == Reading
        invariant i <= |inputs|
        invariant View(v, phase) == Run(drop, t0, inputs[..i]) && CancelAgrees(v)
      {
        RunNext(drop, t0, inputs, i);
        v, phase := HandleInput(v, inputs[i]);
        i := i + 1;
      }
      if phase == Draining {
        v, phase := DrainAfterIdle(v, inputs, i, t0);
      } else {
        ReadOut(drop, t0, inputs, i);
      }
      out, end := v.out, View(v, phase);
      StatsStayUncounted(drop, t0, inputs);
      if phase.Finished? {
        FinalizeInboundDropped(droppedBefore, droppedAfter);
      }
    }
  }

  /** Only the end of the call sets the overflow counter. */
  lemma {:induction false} StatsStayUncounted(drop: EarlyDrop, t: Turn, inputs: seq<Input>)
    requires t.stats.inboundDropped == 0
    ensures Run(drop, t, inputs).stats.inboundDropped == 0
  {
    if inputs != [] {
      StatsStayUncounted(drop, t, inputs[..|inputs| - 1]);
      StepLeavesUncounted(drop, Run(drop, t, inputs[..|inputs| - 1]), inputs[|inputs| - 1]);
    }
  }

  lemma StepLeavesUncounted(drop: EarlyDrop, t: Turn, input: Input)
    ensures Step(drop, t, input).stats.inboundDropped == t.stats.inboundDropped
  {
    if input.Got? {
      FrameLeavesUncounted(drop, t, input.frame);
      DrainLeavesUncounted(drop, t, input.frame);
    }
  }

  lemma FrameLeavesUncounted(drop: EarlyDrop, t: Turn, f: Frame)
    ensures FrameStep(drop, t, f).stats.inboundDropped == t.stats.inboundDropped
  {
    if f.body.Event? {
      EventLeavesUncounted(drop, t, f);
    }
  }

  lemma DrainLeavesUncounted(drop: EarlyDrop, t: Turn, f: Frame)
    ensures DrainFrameStep(drop, t, f).stats.inboundDropped == t.stats.inboundDropped
  {
  }

  lemma EventLeavesUncounted(drop: EarlyDrop, t: Turn, f: Frame)
    requires f.body.Event?
    ensures EventStep(drop, t, f).stats.inboundDropped == t.stats.inboundDropped
  {
  }
}
