/** The turn-end contract of pooled turns (src/appkit/turn_boundary.rs). */
module TurnBoundary {
  import opened Options
  import opened Text
  import opened JsonValues
  import opened StreamTerminal
  import opened TurnIds
  import opened InboundPriority
  import opened Frames

  const TURN_END_STREAM_END := STREAM_END
  const TURN_END_IDLE := "status.idle"
  const TURN_END_STOPPED := "status.stopped"

  datatype Gate = Gate(
    sawRunning: bool,
    sawTurnProgress: bool,
    expectedTurnId: Option<string>,
    cancellationSeen: bool)

  datatype Boundary = Boundary(gate: Gate, ended: bool, reason: string)

  const FRESH_GATE := Gate(false, false, None, false)
  const FRESH := Boundary(FRESH_GATE, false, "")

  /** What a frame means to the boundary. */
  datatype Signal =
    | Running(id: Option<string>)
    | Stopped(id: Option<string>)
    | Idle(id: Option<string>)
    | TurnEnd(id: Option<string>)
    | Progress
    | Neutral

  function StateSignal(state: StateName, turnId: Option<string>): Signal {
    match state
    case RunningState => Running(turnId)
    case StoppedState => Stopped(turnId)
    case IdleState => Idle(turnId)
    case OtherState => Neutral
  }

  function StatusSignal(state: string, turnId: Option<string>): Signal {
    StateSignal(LooseState(state), turnId)
  }

  function EventSignal(mode: string, data: Json, frameTurn: Option<string>): Signal {
    if mode == "custom" && IsTurnEndCustomData(data) then TurnEnd(FrameTurnId(data).Or(frameTurn))
    else if IsTurnProgressChunk(mode, data) then Signal.Progress
    else Neutral
  }

  /** The signal of a decoded frame; frames that are neither status nor event say nothing. */
  function SignalOf(f: Frame): Signal {
    match f.body
    case Status(_, loose) => StateSignal(loose, f.turnId)
    case Event(_, _, _, Terminal(dataTurn, _), _) => TurnEnd(dataTurn.Or(f.turnId))
    case Event(_, _, _, Progress, _) => Signal.Progress
    case _ => Neutral
  }

  // ----- The gate and the boundary as transitions -----

  /** A status id takes over when nothing is bound or its generation is not older. */
  predicate Rebinds(bound: Option<string>, id: string) {
    bound.None? ||
    (var newGen, oldGen := ParseTurnGeneration(Some(id)), ParseTurnGeneration(bound);
     newGen.Some? && (oldGen.None? || newGen.value >= oldGen.value))
  }

  function Bind(bound: Option<string>, id: string): Option<string> {
    if Rebinds(bound, id) then Some(id) else bound
  }

  /** Gate after one frame. */
  function Observe(g: Gate, s: Signal): Gate {
    match s
    case Running(id) =>
      if id.None? then g.(sawRunning := true)
      else
        var bound := Bind(g.expectedTurnId, id.value);
        g.(sawRunning := true,
           expectedTurnId := bound,
           sawTurnProgress := g.sawTurnProgress && (g.expectedTurnId.None? || bound == g.expectedTurnId))
    case Progress => g.(sawTurnProgress := true)
    case _ => g
  }

  /** Why a frame ends the turn, judged by the gate that has already observed it. */
  function EndReason(g: Gate, s: Signal): Option<string> {
    match s
    case Stopped(id) =>
      if g.sawRunning && (g.expectedTurnId.None? || TurnIdsMatch(g.expectedTurnId, id))
      then Some(TURN_END_STOPPED) else None
    case Idle(id) =>
      if IsIdleTerminalAllowed(g.expectedTurnId, id, g.sawRunning, g.sawTurnProgress, g.cancellationSeen)
      then Some(TURN_END_IDLE) else None
    case TurnEnd(id) =>
      if IsTurnTerminalAllowed(g.expectedTurnId, id, g.sawRunning, g.sawTurnProgress)
      then Some(TURN_END_STREAM_END) else None
    case _ => None
  }

  function Feed(b: Boundary, s: Signal): Boundary {
    if b.ended then b
    else
      var g := Observe(b.gate, s);
      var end := EndReason(g, s);
      if end.Some? then Boundary(g, true, end.value) else b.(gate := g)
  }

  function StaticReason(reason: string): Option<string> {
    if reason == TURN_END_STREAM_END || reason == TURN_END_IDLE || reason == TURN_END_STOPPED
    then Some(reason) else None
  }

  /** What a feed reports. */
  function EndOf(b: Boundary): Option<string> {
    if b.ended then StaticReason(b.reason) else None
  }

  predicate IsDaemonTurnEndEvent(completionEvent: string) {
    StaticReason(Trim(completionEvent)).Some?
  }

  // ----- The objects -----

  class TurnLifecycleGate {
    var sawRunning: bool
    var sawTurnProgress: bool
    var expectedTurnId: Option<string>
    var cancellationSeen: bool

    function View(): Gate
      reads this
    {
      Gate(sawRunning, sawTurnProgress, expectedTurnId, cancellationSeen)
    }

    constructor ()
      ensures View() == FRESH_GATE
    {
      sawRunning, sawTurnProgress, expectedTurnId, cancellationSeen := false, false, None, false;
    }

    method ObserveStatus(state: string, turnId: Option<string>)
      modifies this
      ensures View() == Observe(old(View()), StatusSignal(state, turnId))
    {
      OneStateAtMost(state);
      if EqIgnoreCase(state, "running") {
        sawRunning := true;
        if turnId.Some? {
          var statusTurn := turnId.value;
          if Rebinds(expectedTurnId, statusTurn) {
            if expectedTurnId.Some? && expectedTurnId.value != statusTurn {
              sawTurnProgress := false;
            }
            expectedTurnId := Some(statusTurn);
          }
        }
      }
    }

    method ObserveEvent(mode: string, data: Json)
      modifies this
      ensures View() == Observe(old(View()), EventSignal(mode, data, None))
    {
      TerminalIsNotProgress(data);
      if IsTurnProgressChunk(mode, data) {
        sawTurnProgress := true;
      }
    }

    predicate AllowStreamEnd(frameTurn: Option<string>)
      reads this
    {
      IsTurnTerminalAllowed(expectedTurnId, frameTurn, sawRunning, sawTurnProgress)
    }

    predicate AllowIdleComplete(frameTurn: Option<string>)
      reads this
    {
      IsIdleTerminalAllowed(expectedTurnId, frameTurn, sawRunning, sawTurnProgress, cancellationSeen)
    }
  }

  class TurnBoundary {
    const gate: TurnLifecycleGate
    var ended: bool
    var reason: string

    function View(): Boundary
      reads this, gate
    {
      Boundary(gate.View(), ended, reason)
    }

    constructor ()
      ensures View() == FRESH && fresh(gate)
    {
      gate := new TurnLifecycleGate();
      ended, reason := false, "";
    }

    method Mark(why: string) returns (r: string)
      modifies this
      ensures ended && reason == why == r
    {
      ended, reason := true, why;
      return why;
    }

    /** Returns the end reason once the turn has ended, by this frame or an earlier one. */
    method FeedStatusTurn(state: string, turnId: Option<string>) returns (end: Option<string>)
      modifies this, gate
      ensures View() == Feed(old(View()), StatusSignal(state, turnId))
      ensures end == if ended then StaticReason(reason) else None
    {
      if ended {
        return StaticReason(reason);
      }
      gate.ObserveStatus(state, turnId);
      OneStateAtMost(state);
      if EqIgnoreCase(state, "stopped") && gate.sawRunning {
        if gate.expectedTurnId.Some? && !TurnIdsMatch(gate.expectedTurnId, turnId) {
          return None;
        }
        var r := Mark(TURN_END_STOPPED);
        return Some(r);
      }
      if EqIgnoreCase(state, "idle") && gate.AllowIdleComplete(turnId) {
        var r := Mark(TURN_END_IDLE);
        return Some(r);
      }
      return None;
    }

    method FeedEventTurn(mode: string, data: Json, frameTurn: Option<string>) returns (end: Option<string>)
      modifies this, gate
      ensures View() == Feed(old(View()), EventSignal(mode, data, frameTurn))
      ensures end == if ended then StaticReason(reason) else None
    {
      if ended {
        return StaticReason(reason);
      }
      TerminalIsNotProgress(data);
      gate.ObserveEvent(mode, data);
      var tid := FrameTurnId(data).Or(frameTurn);
      if mode == "custom" && IsTurnEndCustomData(data) && gate.AllowStreamEnd(tid) {
        var r := Mark(TURN_END_STREAM_END);
        return Some(r);
      }
      return None;
    }

    /** `feed_boundary`: decode a message and route it to the matching feed. */
    method FeedMessage(msg: Json) returns (end: Option<string>)
      modifies this, gate
      ensures View() == Feed(old(View()), SignalOf(Decode(msg)))
      ensures end.Some? ==> end == EndOf(View())
      ensures !old(ended) ==> end == EndOf(View())
    {
      var frame := UnwrapNext(msg);
      var eventType := StrField(frame, "type");
      if eventType == "status" {
        end := FeedStatusTurn(StrField(frame, "state"), FrameTurnId(frame));
      } else if eventType == "event" {
        end := FeedEventTurn(StrField(frame, "mode"), DataOf(frame), FrameTurnId(frame));
      } else {
        end := None;
      }
    }
  }
}
