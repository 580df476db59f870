/** The two turn-end detectors compared: the session's read loop and the pooled runner's boundary. */
module Simulation {
  import opened Options
  import opened Sequences
  import opened Text
  import opened JsonValues
  import opened Frames
  import opened StreamTerminal
  import opened TurnIds
  import opened TurnBoundary
  import opened TurnBoundaryRuns
  import opened DaemonSession
  import opened DaemonSessionRuns
  import opened MessagePayloads
  import opened Samples

  /** What an input of the session says to a boundary: only frames speak. */
  function SignalAt(input: Input): Signal {
    if input.Got? then SignalOf(input.frame) else Neutral
  }

  function Trace(inputs: seq<Input>): seq<Signal> {
    seq(|inputs|, i requires 0 <= i < |inputs| => SignalAt(inputs[i]))
  }

  lemma BoundaryNext(inputs: seq<Input>)
    requires inputs != []
    ensures BoundaryRun(Trace(inputs))
         == Feed(BoundaryRun(Trace(inputs[..|inputs| - 1])), SignalAt(inputs[|inputs| - 1]))
  {
    assert Trace(inputs)[..|inputs| - 1] == Trace(inputs[..|inputs| - 1]);
  }

  /** Frames of one loop, protocol states in lower case, and no cancellation notice. */
  predicate Ordinary(loopId: string, input: Input) {
    input.Got? ==>
      && (input.frame.loopId == "" || input.frame.loopId == loopId)
      && LowerCaseStates(input.frame)
      && (input.frame.body.CommandResponse? ==> !input.frame.body.cancels)
  }

  /** Same running flag, same bound turn; and the session has seen no progress the boundary has not. */
  predicate Agrees(t: Turn, g: Gate) {
    && g.sawRunning == t.started
    && g.expectedTurnId == t.turnId
    && (t.progress ==> g.sawTurnProgress)
    && !g.cancellationSeen && !t.cancelSeen
  }

  predicate Simulates(t: Turn, b: Boundary, loopId: string) {
    && (t.expectedLoop == "" || t.expectedLoop == loopId)
    && (t.phase == Reading && !b.ended ==> Agrees(t, b.gate))
    && (EndedWell(t) ==> b.ended)
    && !t.cancelSeen
  }

  lemma StatusSimulates(t: Turn, b: Boundary, f: Frame)
    requires t.phase == Reading && !b.ended && Agrees(t, b.gate)
    requires f.body.Status? && LowerCaseStates(f)
    ensures var u, c := StatusStep(t, f.body.exact, f.turnId), Feed(b, SignalOf(f));
            && (u.phase == Reading && !c.ended ==> Agrees(u, c.gate))
            && (u.phase == Draining ==> c.ended)
            && (u.phase == Reading || u.phase == Draining)
            && u.expectedLoop == t.expectedLoop && u.cancelSeen == t.cancelSeen
  {
  }

  /** A frame the session passes over as another turn's can only push the boundary further along. */
  lemma OtherTurnSimulates(t: Turn, b: Boundary, f: Frame)
    requires !b.ended && Agrees(t, b.gate) && LowerCaseStates(f) && IsOtherTurn(t.turnId, f)
    ensures var c := Feed(b, SignalOf(f)); c.ended || Agrees(t, c.gate)
  {
  }

  lemma EventSimulates(drop: EarlyDrop, t: Turn, b: Boundary, f: Frame)
    requires t.phase == Reading && !b.ended && Agrees(t, b.gate) && f.body.Event?
    ensures var u, c := EventStep(drop, t, f), Feed(b, SignalOf(f));
            && (u.phase == Reading && !c.ended ==> Agrees(u, c.gate))
            && (u.phase == Draining ==> c.ended)
            && (u.phase == Reading || u.phase == Draining)
            && u.expectedLoop == t.expectedLoop && u.cancelSeen == t.cancelSeen
  {
  }

  lemma ReadingStepSimulates(drop: EarlyDrop, t: Turn, b: Boundary, loopId: string, f: Frame)
    requires Simulates(t, b, loopId) && Ordinary(loopId, Got(f)) && t.phase == Reading && !b.ended
    ensures Simulates(FrameStep(drop, t, f), Feed(b, SignalOf(f)), loopId)
  {
    if IsForeign(t.expectedLoop, f) {
      assert false;
    } else if IsOtherTurn(t.turnId, f) {
      OtherTurnSimulates(t, b, f);
    } else if f.body.Status? {
      var at := if f.loopId != "" then t.(loopId := f.loopId, expectedLoop := f.loopId) else t;
      StatusSimulates(at, b, f);
    } else if f.body.Event? {
      EventSimulates(drop, t, b, f);
    }
  }

  lemma StepSimulates(drop: EarlyDrop, t: Turn, b: Boundary, loopId: string, input: Input)
    requires Simulates(t, b, loopId) && Ordinary(loopId, input)
    ensures Simulates(Step(drop, t, input), Feed(b, SignalAt(input)), loopId)
  {
    if t.phase == Reading && !b.ended {
      if input.Got? {
        ReadingStepSimulates(drop, t, b, loopId, input.frame);
      }
    } else {
      EndedStepSimulates(drop, t, b, loopId, input);
    }
  }

  /** After either side has ended, nothing is left to show but the loop id. */
  lemma EndedStepSimulates(drop: EarlyDrop, t: Turn, b: Boundary, loopId: string, input: Input)
    requires Simulates(t, b, loopId) && Ordinary(loopId, input) && (t.phase != Reading || b.ended)
    ensures Simulates(Step(drop, t, input), Feed(b, SignalAt(input)), loopId)
  {
    if t.phase == Reading {
      assert Feed(b, SignalAt(input)).ended;
      if input.Got? && input.frame.body.Event? {
        EventKeepsLoop(drop, t, input.frame);
        EventKeepsCancel(drop, t, input.frame);
      }
    } else if EndedWell(t) {
      DrainKeepsLoop(drop, t, input);
    }
  }

  lemma EventKeepsCancel(drop: EarlyDrop, t: Turn, f: Frame)
    requires f.body.Event?
    ensures EventStep(drop, t, f).cancelSeen == t.cancelSeen
  {
  }

  lemma DrainKeepsLoop(drop: EarlyDrop, t: Turn, input: Input)
    requires EndedWell(t)
    ensures var u := Step(drop, t, input);
            u.expectedLoop == t.expectedLoop && u.cancelSeen == t.cancelSeen && u.phase != Reading
  {
  }

  /** On the frames of one loop, session and boundary agree on whether a turn runs and which one it is
      for as long as neither has ended, and whenever the session has ended the turn, the boundary ended
      it at the same frame or earlier. */
  lemma {:induction false} BoundaryEndsNoLater(drop: EarlyDrop, first: string, loopId: string, inputs: seq<Input>)
    requires first == "" || first == loopId
    requires forall i :: 0 <= i < |inputs| ==> Ordinary(loopId, inputs[i])
    ensures Simulates(Run(drop, Begin(first), inputs), BoundaryRun(Trace(inputs)), loopId)
  {
    if inputs != [] {
      var n := |inputs| - 1;
      BoundaryEndsNoLater(drop, first, loopId, inputs[..n]);
      BoundaryNext(inputs);
      StepSimulates(drop, Run(drop, Begin(first), inputs[..n]), BoundaryRun(Trace(inputs[..n])), loopId, inputs[n]);
    } else {
      assert Trace(inputs) == [];
    }
  }

  // ----- Exactly when they end together -----

  lemma TracePrefix(inputs: seq<Input>, k: nat)
    requires k <= |inputs|
    ensures Trace(inputs)[..k] == Trace(inputs[..k])
  {
  }

  /** What the boundary's gate holds after these inputs while no turn end froze it. */
  function GateAfter(inputs: seq<Input>): Gate {
    GateRun(Trace(inputs))
  }

  /** Input k makes the session give up: its deadline, a failed read, a dead connection once a turn runs,
      or an error frame. */
  predicate FailsAt(inputs: seq<Input>, k: nat)
    requires k < |inputs|
  {
    match inputs[k]
    case Quiet(alive) => !alive && GateAfter(inputs[..k]).sawRunning
    case Got(f) => f.body.Failure?
    case _ => true
  }

  /** Frame `f` is progress for the session: not dropped early, and of the bound turn if there is one. */
  predicate CountsFor(drop: EarlyDrop, bound: Option<string>, f: Frame) {
    IsProgress(f) && !Dropped(drop, f) && (bound.Some? ==> TurnIdsMatch(bound, f.turnId))
  }

  predicate CountsAt(drop: EarlyDrop, inputs: seq<Input>, j: nat)
    requires j < |inputs|
  {
    inputs[j].Got? && CountsFor(drop, GateAfter(inputs[..j]).expectedTurnId, inputs[j].frame)
  }

  /** Progress at j that no later change of the bound turn has invalidated. */
  ghost predicate CountedSince(drop: EarlyDrop, inputs: seq<Input>, j: int) {
    && 0 <= j < |inputs|
    && CountsAt(drop, inputs, j)
    && forall k :: j < k < |inputs| ==> !SwitchesTurn(Trace(inputs), k)
  }

  ghost predicate SawProgress(drop: EarlyDrop, inputs: seq<Input>) {
    exists j :: CountedSince(drop, inputs, j)
  }

  lemma SameOnPrefix(drop: EarlyDrop, inputs: seq<Input>, n: nat, j: nat)
    requires j < n <= |inputs|
    ensures CountsAt(drop, inputs, j) == CountsAt(drop, inputs[..n], j)
    ensures SwitchesTurn(Trace(inputs), j) == SwitchesTurn(Trace(inputs[..n]), j)
  {
    assert inputs[..n][..j] == inputs[..j];
    TracePrefix(inputs, n);
    assert Trace(inputs)[..n][..j] == Trace(inputs)[..j] && Trace(inputs)[..n][..j + 1] == Trace(inputs)[..j + 1];
  }

  lemma CountedStays(drop: EarlyDrop, inputs: seq<Input>, j: int)
    requires inputs != [] && CountedSince(drop, inputs[..|inputs| - 1], j)
    ensures !SwitchesTurn(Trace(inputs), |inputs| - 1) ==> CountedSince(drop, inputs, j)
  {
    var n := |inputs| - 1;
    SameOnPrefix(drop, inputs, n, j);
    forall k | j < k < n ensures !SwitchesTurn(Trace(inputs), k) {
      SameOnPrefix(drop, inputs, n, k);
      assert !SwitchesTurn(Trace(inputs[..n]), k);
    }
  }

  lemma CountedBefore(drop: EarlyDrop, inputs: seq<Input>, j: int)
    requires CountedSince(drop, inputs, j) && j < |inputs| - 1
    ensures CountedSince(drop, inputs[..|inputs| - 1], j)
  {
    var n := |inputs| - 1;
    SameOnPrefix(drop, inputs, n, j);
    forall k | j < k < n ensures !SwitchesTurn(Trace(inputs[..n]), k) {
      SameOnPrefix(drop, inputs, n, k);
      assert !SwitchesTurn(Trace(inputs), k);
    }
  }

  /** One more input: it counts itself, or what counted before is still valid. */
  lemma SawProgressNext(drop: EarlyDrop, inputs: seq<Input>)
    requires inputs != []
    ensures var n := |inputs| - 1;
            SawProgress(drop, inputs) <==>
              CountsAt(drop, inputs, n) || (SawProgress(drop, inputs[..n]) && !SwitchesTurn(Trace(inputs), n))
  {
    var n := |inputs| - 1;
    if CountsAt(drop, inputs, n) {
      assert CountedSince(drop, inputs, n);
    } else if SawProgress(drop, inputs) {
      var j :| CountedSince(drop, inputs, j);
      CountedBefore(drop, inputs, j);
    } else if SawProgress(drop, inputs[..n]) {
      var j :| CountedSince(drop, inputs[..n], j);
      CountedStays(drop, inputs, j);
    }
  }

  /** Whether the gate moves from one turn id to another on this signal. */
  predicate Switches(g: Gate, s: Signal) {
    g.expectedTurnId.Some? && Observe(g, s).expectedTurnId != g.expectedTurnId
  }

  lemma SwitchesAtLast(inputs: seq<Input>)
    requires inputs != []
    ensures var n := |inputs| - 1;
            SwitchesTurn(Trace(inputs), n) == Switches(GateAfter(inputs[..n]), SignalAt(inputs[n]))
  {
    var n := |inputs| - 1;
    TracePrefix(inputs, n);
    assert Trace(inputs)[..n + 1] == Trace(inputs);
    GateRunStep(Trace(inputs), n);
  }

  /** The session's progress flag over one frame that leaves it reading. */
  lemma ProgressStep(drop: EarlyDrop, t: Turn, g: Gate, loopId: string, f: Frame)
    requires t.phase == Reading && Agrees(t, g) && (t.expectedLoop == "" || t.expectedLoop == loopId)
    requires Ordinary(loopId, Got(f)) && FrameStep(drop, t, f).phase == Reading
    ensures FrameStep(drop, t, f).progress
        <==> CountsFor(drop, g.expectedTurnId, f) || (t.progress && !Switches(g, SignalOf(f)))
  {
    if f.body.Event? {
      EventProgress(drop, t, f);
    }
  }

  lemma EventProgress(drop: EarlyDrop, t: Turn, f: Frame)
    requires f.body.Event?
    ensures EventStep(drop, t, f).progress <==> t.progress || (IsProgress(f) && !Dropped(drop, f))
  {
  }

  /** A reading session gives up on exactly these inputs, as long as the boundary stays open. */
  lemma ReadingStep(drop: EarlyDrop, t: Turn, b: Boundary, loopId: string, inputs: seq<Input>)
    requires inputs != [] && Simulates(t, b, loopId) && t.phase == Reading
    requires Ordinary(loopId, inputs[|inputs| - 1])
    requires !b.ended && b.gate == GateAfter(inputs[..|inputs| - 1])
    requires !Feed(b, SignalAt(inputs[|inputs| - 1])).ended
    ensures Step(drop, t, inputs[|inputs| - 1]).phase == Reading <==> !FailsAt(inputs, |inputs| - 1)
  {
    var input := inputs[|inputs| - 1];
    StepSimulates(drop, t, b, loopId, input);
    if input.Got? {
      PhaseAfterFrame(drop, t, input.frame);
    }
  }

  lemma PhaseAfterFrame(drop: EarlyDrop, t: Turn, f: Frame)
    requires t.phase == Reading
    ensures var phase := FrameStep(drop, t, f).phase;
            phase == Reading || phase == Draining || (phase == Finished(false) && f.body.Failure?)
  {
    if f.body.Event? {
      PhaseAfterEvent(drop, t, f);
    }
  }

  lemma PhaseAfterEvent(drop: EarlyDrop, t: Turn, f: Frame)
    requires t.phase == Reading && f.body.Event?
    ensures EventStep(drop, t, f).phase == Reading || EventStep(drop, t, f).phase == Draining
  {
  }

  /** While the boundary is open, the session still reads exactly when nothing has made it give up, and its
      progress flag has this closed form. */
  lemma {:induction false} OpenSession(drop: EarlyDrop, first: string, loopId: string, inputs: seq<Input>)
    requires first == "" || first == loopId
    requires forall i :: 0 <= i < |inputs| ==> Ordinary(loopId, inputs[i])
    requires !BoundaryRun(Trace(inputs)).ended
    ensures BoundaryRun(Trace(inputs)).gate == GateAfter(inputs)
    ensures var t := Run(drop, Begin(first), inputs);
            && (t.phase == Reading <==> forall k :: 0 <= k < |inputs| ==> !FailsAt(inputs, k))
            && (t.phase == Reading ==> Agrees(t, GateAfter(inputs)) && (t.progress <==> SawProgress(drop, inputs)))
  {
    if inputs == [] {
      assert Trace(inputs) == [];
    } else {
      var n := |inputs| - 1;
      var prefix := inputs[..n];
      BoundaryNext(inputs);
      OpenSession(drop, first, loopId, prefix);
      BoundaryEndsNoLater(drop, first, loopId, prefix);
      BoundaryEndsNoLater(drop, first, loopId, inputs);
      TracePrefix(inputs, n);
      forall k | 0 <= k < n ensures FailsAt(prefix, k) == FailsAt(inputs, k) {
        assert prefix[..k] == inputs[..k];
      }
      OpenStep(drop, Run(drop, Begin(first), prefix), BoundaryRun(Trace(prefix)), loopId, inputs);
    }
  }

  lemma OpenStep(drop: EarlyDrop, t: Turn, b: Boundary, loopId: string, inputs: seq<Input>)
    requires inputs != [] && Simulates(t, b, loopId) && Ordinary(loopId, inputs[|inputs| - 1])
    requires !b.ended && b.gate == GateAfter(inputs[..|inputs| - 1])
    requires !Feed(b, SignalAt(inputs[|inputs| - 1])).ended
    requires t.phase == Reading ==> (t.progress <==> SawProgress(drop, inputs[..|inputs| - 1]))
    ensures var u := Step(drop, t, inputs[|inputs| - 1]);
            && (u.phase == Reading <==> t.phase == Reading && !FailsAt(inputs, |inputs| - 1))
            && (u.phase == Reading ==> (u.progress <==> SawProgress(drop, inputs)))
    ensures Feed(b, SignalAt(inputs[|inputs| - 1])).gate == GateAfter(inputs)
  {
    var n := |inputs| - 1;
    TracePrefix(inputs, n);
    LeavingReading(drop, t, inputs[n]);
    if t.phase == Reading {
      ReadingStep(drop, t, b, loopId, inputs);
      SawProgressNext(drop, inputs);
      SwitchesAtLast(inputs);
      if inputs[n].Got? && !FailsAt(inputs, n) {
        ProgressStep(drop, t, b.gate, loopId, inputs[n].frame);
      }
    }
  }

  /** The session's end state and the boundary's end reason name the same cause. */
  predicate SameCause(endState: EndState, reason: string) {
    match endState
    case EndIdle => reason == TURN_END_IDLE
    case EndStopped => reason == TURN_END_STOPPED
    case EndStream => reason == TURN_END_STREAM_END
    case EndCompleted => reason == TURN_END_STREAM_END
    case _ => false
  }

  /** Frame `f`, which ends the boundary, ends a session that has seen `progress` for turn `bound` as well. */
  predicate EndsSessionToo(drop: EarlyDrop, bound: Option<string>, progress: bool, f: Frame) {
    match f.body
    case Status(state, _) => state == StoppedState || progress
    case Event(_, _, _, _, _) => !Dropped(drop, f) && progress && TurnIdsMatch(bound, f.turnId)
    case _ => false
  }

  lemma EndingFrame(drop: EarlyDrop, t: Turn, b: Boundary, loopId: string, f: Frame)
    requires Simulates(t, b, loopId) && Ordinary(loopId, Got(f)) && t.phase == Reading
    requires !b.ended && Feed(b, SignalOf(f)).ended
    ensures var u := FrameStep(drop, t, f);
            && (u.phase == Draining <==> EndsSessionToo(drop, t.turnId, t.progress, f))
            && (u.phase == Draining ==> SameCause(u.endState, Feed(b, SignalOf(f)).reason))
  {
    if f.body.Status? {
      EndingStatus(drop, t, b, loopId, f);
    } else {
      EndingEvent(drop, t, b, loopId, f);
    }
  }

  lemma EndingStatus(drop: EarlyDrop, t: Turn, b: Boundary, loopId: string, f: Frame)
    requires Simulates(t, b, loopId) && Ordinary(loopId, Got(f)) && t.phase == Reading && f.body.Status?
    requires !b.ended && Feed(b, SignalOf(f)).ended
    ensures var u := FrameStep(drop, t, f);
            && (u.phase == Draining <==> f.body.exact == StoppedState || t.progress)
            && (u.phase == Draining ==> SameCause(u.endState, Feed(b, SignalOf(f)).reason))
  {
    NonBlankTwice(t.turnId, f.turnId);
  }

  lemma EndingEvent(drop: EarlyDrop, t: Turn, b: Boundary, loopId: string, f: Frame)
    requires Simulates(t, b, loopId) && Ordinary(loopId, Got(f)) && t.phase == Reading && !f.body.Status?
    requires !b.ended && Feed(b, SignalOf(f)).ended
    ensures var u := FrameStep(drop, t, f);
            && IsTurnEnd(f)
            && (u.phase == Draining <==> !Dropped(drop, f) && t.progress && TurnIdsMatch(t.turnId, f.turnId))
            && (u.phase == Draining ==> SameCause(u.endState, Feed(b, SignalOf(f)).reason))
  {
  }

  lemma EndingInput(drop: EarlyDrop, t: Turn, b: Boundary, loopId: string, input: Input)
    requires Simulates(t, b, loopId) && Ordinary(loopId, input)
    requires !b.ended && Feed(b, SignalAt(input)).ended
    ensures var u := Step(drop, t, input);
            && (EndedWell(u) <==>
                  t.phase == Reading && input.Got? && EndsSessionToo(drop, t.turnId, t.progress, input.frame))
            && (EndedWell(u) ==> u.phase == Draining && SameCause(u.endState, Feed(b, SignalAt(input)).reason))
  {
    if t.phase == Reading && input.Got? {
      EndingFrame(drop, t, b, loopId, input.frame);
      PhaseAfterFrame(drop, t, input.frame);
    }
  }

  /** The exact condition under which the session ends at the very frame k that ends the boundary, stated on
      the inputs alone: nothing made the session give up before, and the frame reaches it with progress of
      the bound turn behind it (a `stopped` status needs none). */
  ghost predicate ReachesSession(drop: EarlyDrop, inputs: seq<Input>, k: nat)
    requires k < |inputs|
  {
    && (forall j :: 0 <= j < k ==> !FailsAt(inputs, j))
    && inputs[k].Got?
    && EndsSessionToo(drop, GateAfter(inputs[..k]).expectedTurnId, SawProgress(drop, inputs[..k]), inputs[k].frame)
  }

  lemma OpenBefore(inputs: seq<Input>, k: nat)
    requires FirstEndAt(Trace(inputs), k)
    ensures var b := BoundaryRun(Trace(inputs[..k])); !b.ended && Feed(b, SignalAt(inputs[k])).ended
  {
    TracePrefix(inputs, k);
    var trace := Trace(inputs);
    forall j | 0 <= j < k ensures !EndsAt(trace[..k], j) {
      assert trace[..k][..j + 1] == trace[..j + 1];
      assert !EndsAt(trace, j);
    }
    UnendedBoundaryIsTheGate(trace[..k]);
    GateRunStep(trace, k);
  }

  /** Session and boundary end at the same frame, and then for the same cause, if and only if that frame
      reaches the session in this sense. */
  lemma EndTogetherIff(drop: EarlyDrop, first: string, loopId: string, inputs: seq<Input>, k: nat)
    requires first == "" || first == loopId
    requires forall i :: 0 <= i < |inputs| ==> Ordinary(loopId, inputs[i])
    requires FirstEndAt(Trace(inputs), k)
    ensures var t := Run(drop, Begin(first), inputs[..k + 1]);
            && (EndedWell(t) <==> ReachesSession(drop, inputs, k))
            && (EndedWell(t) ==> t.phase == Draining && SameCause(t.endState, BoundaryRun(Trace(inputs)).reason))
  {
    var before := inputs[..k];
    var t, b := Run(drop, Begin(first), before), BoundaryRun(Trace(before));
    OpenBefore(inputs, k);
    OpenSession(drop, first, loopId, before);
    BoundaryEndsNoLater(drop, first, loopId, before);
    RunNext(drop, Begin(first), inputs, k);
    forall j | 0 <= j < k ensures FailsAt(before, j) == FailsAt(inputs, j) {
      assert before[..j] == inputs[..j];
    }
    ReasonAtEnd(inputs, k);
    EndingInput(drop, t, b, loopId, inputs[k]);
  }

  lemma ReasonAtEnd(inputs: seq<Input>, k: nat)
    requires FirstEndAt(Trace(inputs), k)
    ensures BoundaryRun(Trace(inputs)).reason == Feed(BoundaryRun(Trace(inputs[..k])), SignalAt(inputs[k])).reason
  {
    OpenBefore(inputs, k);
    TracePrefix(inputs, k);
    TracePrefix(inputs, k + 1);
    BoundaryNext(inputs[..k + 1]);
    assert inputs[..k + 1][..k] == inputs[..k];
    EndIsAbsorbing(Trace(inputs[..k + 1]), Trace(inputs)[k + 1..]);
    assert Trace(inputs)[..k + 1] + Trace(inputs)[k + 1..] == Trace(inputs);
  }

  // ----- A condition input by input -----

  /** The input reaches both sides alike: the read brings something or the connection is alive; no error
      frame; and an event that matters is neither dropped early nor lacks the bound turn's id. */
  predicate ReachesBoth(drop: EarlyDrop, t: Turn, input: Input) {
    match input
    case Quiet(alive) => alive
    case Got(f) =>
      && !f.body.Failure?
      && (f.body.Event? && f.body.kind != Plain ==>
            && !Dropped(drop, f)
            && (t.turnId.Some? ==> TurnIdsMatch(t.turnId, f.turnId)))
    case _ => false
  }

  predicate InStep(t: Turn, b: Boundary, loopId: string) {
    && (t.expectedLoop == "" || t.expectedLoop == loopId)
    && !t.cancelSeen
    && (t.phase == Reading ==> !b.ended && Agrees(t, b.gate) && t.progress == b.gate.sawTurnProgress)
    && (t.phase != Reading ==> EndedWell(t) && b.ended && SameCause(t.endState, b.reason))
  }

  lemma StatusInStep(t: Turn, b: Boundary, f: Frame, loopId: string)
    requires InStep(t, b, loopId) && t.phase == Reading && f.body.Status? && LowerCaseStates(f)
    ensures InStep(StatusStep(t, f.body.exact, f.turnId), Feed(b, SignalOf(f)), loopId)
  {
  }

  lemma OtherTurnInStep(drop: EarlyDrop, t: Turn, b: Boundary, f: Frame, loopId: string)
    requires InStep(t, b, loopId) && t.phase == Reading && LowerCaseStates(f)
    requires ReachesBoth(drop, t, Got(f)) && IsOtherTurn(t.turnId, f)
    ensures InStep(t, Feed(b, SignalOf(f)), loopId)
  {
    if f.body.Status? {
      NonBlankTwice(t.turnId, f.turnId);
    }
  }

  lemma EventInStep(drop: EarlyDrop, t: Turn, b: Boundary, f: Frame, loopId: string)
    requires InStep(t, b, loopId) && t.phase == Reading && f.body.Event? && ReachesBoth(drop, t, Got(f))
    ensures InStep(EventStep(drop, t, f), Feed(b, SignalOf(f)), loopId)
  {
  }

  lemma ReadingInStep(drop: EarlyDrop, t: Turn, b: Boundary, loopId: string, f: Frame)
    requires InStep(t, b, loopId) && t.phase == Reading
    requires Ordinary(loopId, Got(f)) && ReachesBoth(drop, t, Got(f))
    ensures InStep(FrameStep(drop, t, f), Feed(b, SignalOf(f)), loopId)
  {
    if IsForeign(t.expectedLoop, f) {
      assert false;
    } else if IsOtherTurn(t.turnId, f) {
      OtherTurnInStep(drop, t, b, f, loopId);
    } else if f.body.Status? {
      var at := if f.loopId != "" then t.(loopId := f.loopId, expectedLoop := f.loopId) else t;
      StatusInStep(at, b, f, loopId);
    } else if f.body.Event? {
      EventInStep(drop, t, b, f, loopId);
    }
  }

  lemma StepInStep(drop: EarlyDrop, t: Turn, b: Boundary, loopId: string, input: Input)
    requires InStep(t, b, loopId) && Ordinary(loopId, input)
    requires t.phase == Reading ==> ReachesBoth(drop, t, input)
    ensures InStep(Step(drop, t, input), Feed(b, SignalAt(input)), loopId)
  {
    if t.phase == Reading {
      if input.Got? {
        ReadingInStep(drop, t, b, loopId, input.frame);
      }
    } else {
      DrainKeepsLoop(drop, t, input);
      DrainStepAppends(drop, t, input);
    }
  }

  /** If every input of the turn reaches both sides alike, the session leaves its read loop at the very
      frame that ends the boundary, for the same cause, and up to there both gates are equal. */
  lemma {:induction false} BothEndTogether(drop: EarlyDrop, first: string, loopId: string, inputs: seq<Input>)
    requires first == "" || first == loopId
    requires forall i :: 0 <= i < |inputs| ==> Ordinary(loopId, inputs[i])
    requires forall k :: 0 <= k < |inputs| ==>
               var t := Run(drop, Begin(first), inputs[..k]);
               t.phase == Reading ==> ReachesBoth(drop, t, inputs[k])
    ensures InStep(Run(drop, Begin(first), inputs), BoundaryRun(Trace(inputs)), loopId)
  {
    if inputs != [] {
      var n := |inputs| - 1;
      forall k | 0 <= k < n
        ensures var t := Run(drop, Begin(first), inputs[..n][..k]);
                t.phase == Reading ==> ReachesBoth(drop, t, inputs[..n][k])
      {
        assert inputs[..n][..k] == inputs[..k];
      }
      BothEndTogether(drop, first, loopId, inputs[..n]);
      BoundaryNext(inputs);
      StepInStep(drop, Run(drop, Begin(first), inputs[..n]), BoundaryRun(Trace(inputs[..n])), loopId, inputs[n]);
    } else {
      assert Trace(inputs) == [];
    }
  }

  // ----- When they do not -----

  /** The inputs of a session that reads these messages one after the other. */
  function Reads(msgs: seq<Json>): seq<Input> {
    Mapped(ReadOf, msgs)
  }

  function ReadOf(msg: Json): Input {
    Got(Decode(msg))
  }

  /** A turn whose text carries no turn id. */
  const EXAMPLE_MESSAGES :=
    [StatusMessage("running", "L:1"), UntaggedText("AIMessageChunk", "work", ""), StreamEndMessage("L:1")]

  const EXAMPLE_ID := Some("L:1")
  const EXAMPLE_RUNNING := Got(Frame("", EXAMPLE_ID, Status(RunningState, RunningState)))
  const EXAMPLE_WORK := Got(TextFrame(None, JArr([ItemObject("AIMessageChunk", "work", "")])))
  const EXAMPLE_END := Got(Frame("", EXAMPLE_ID, Event(Custom, JArr([]), END_DATA, Terminal(None, true), NoTool)))
  const EXAMPLE := [EXAMPLE_RUNNING, EXAMPLE_WORK, EXAMPLE_END]

  lemma ExampleIsRead()
    ensures Reads(EXAMPLE_MESSAGES) == EXAMPLE
  {
    TrimFixed("L:1");
    DecodeRunning("L:1");
    DecodeUntagged("AIMessageChunk", "work", "");
    DecodeStreamEnd("L:1");
    ReadThree(StatusMessage("running", "L:1"), UntaggedText("AIMessageChunk", "work", ""), StreamEndMessage("L:1"),
              EXAMPLE_RUNNING, EXAMPLE_WORK, EXAMPLE_END);
  }

  lemma ReadThree(a: Json, b: Json, c: Json, first: Input, second: Input, third: Input)
    requires Got(Decode(a)) == first && Got(Decode(b)) == second && Got(Decode(c)) == third
    ensures Reads([a, b, c]) == [first, second, third]
  {
    MappedThree(ReadOf, a, b, c);
  }

  lemma ExampleIdMatches()
    ensures TurnIdsMatch(EXAMPLE_ID, EXAMPLE_ID) && !TurnIdsMatch(EXAMPLE_ID, None)
  {
    TrimFixed("L:1");
  }

  lemma ExamplePrefixes()
    ensures EXAMPLE[..2] == [EXAMPLE_RUNNING, EXAMPLE_WORK] && EXAMPLE[..2][..1] == [EXAMPLE_RUNNING]
    ensures [EXAMPLE_RUNNING][..0] == []
  {
  }

  lemma SessionStillReads(drop: EarlyDrop)
    ensures Run(drop, Begin("L"), EXAMPLE).phase == Reading
  {
    ExampleIdMatches();
    ExamplePrefixes();
    var t0 := Begin("L");
    var t1 := t0.(started := true, turnId := EXAMPLE_ID);
    assert Run(drop, t0, [EXAMPLE_RUNNING]) == Step(drop, Run(drop, t0, []), EXAMPLE_RUNNING) == t1;
    assert Run(drop, t0, EXAMPLE[..2]) == Step(drop, t1, EXAMPLE_WORK) == t1;
    assert Run(drop, t0, EXAMPLE) == Step(drop, t1, EXAMPLE_END);
  }

  lemma BoundaryHasEnded()
    ensures BoundaryRun(Trace(EXAMPLE)).ended
  {
    ExampleIdMatches();
    var trace := Trace(EXAMPLE);
    assert trace == [Running(EXAMPLE_ID), Signal.Progress, TurnEnd(EXAMPLE_ID)];
    GateRunStep(trace, 0);
    GateRunStep(trace, 1);
    GateRunStep(trace, 2);
    assert trace[..0] == [] && trace[..3] == trace;
    assert GateRun(trace[..1]) == Gate(true, false, EXAMPLE_ID, false);
    assert EndsAt(trace, 2);
    if !exists k :: FirstEndAt(trace, k) {
      NoEndBefore(trace);
    }
    BoundaryRunClosedForm(trace);
  }

  /** The boundary can end strictly earlier, so the two are not the same detector: an event without a
      turn id is progress for the boundary, but the session passes it over as another turn's. */
  lemma BoundaryCanEndEarlier(drop: EarlyDrop)
    ensures exists msgs: seq<Json> ::
      && (forall i :: 0 <= i < |msgs| ==> Ordinary("L", Reads(msgs)[i]))
      && BoundaryRun(Trace(Reads(msgs))).ended
      && Run(drop, Begin("L"), Reads(msgs)).phase == Reading
  {
    ExampleIsRead();
    var inputs := Reads(EXAMPLE_MESSAGES);
    assert forall i :: 0 <= i < |EXAMPLE| ==> Ordinary("L", EXAMPLE[i]);
    SessionStillReads(drop);
    BoundaryHasEnded();
  }
}
