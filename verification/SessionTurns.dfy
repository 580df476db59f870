/** A session turn by itself: what its read loop knows, and exactly which input ends it and how. */
module SessionTurns {
  import opened Options
  import opened Frames
  import opened TurnIds
  import opened TurnBoundary
  import opened TurnBoundaryRuns
  import opened DaemonSession
  import opened DaemonSessionRuns

  // ----- What the inputs say -----

  /** A frame of loop `loopId`, or of none. */
  predicate IsOwn(loopId: string, input: Input) {
    input.Got? ==> input.frame.loopId == "" || input.frame.loopId == loopId
  }

  /** The session takes a state literally: only `running` in lower case starts and binds a turn. */
  function RunSignal(input: Input): Signal {
    if input.Got? && input.frame.body.Status? && input.frame.body.exact == RunningState
    then Running(input.frame.turnId) else Neutral
  }

  function RunTrace(inputs: seq<Input>): seq<Signal> {
    seq(|inputs|, i requires 0 <= i < |inputs| => RunSignal(inputs[i]))
  }

  function BoundBy(inputs: seq<Input>): Option<string> {
    BindAll(RunningIds(RunTrace(inputs)))
  }

  ghost predicate SawRunning(inputs: seq<Input>) {
    exists i :: 0 <= i < |inputs| && RunSignal(inputs[i]).Running?
  }

  predicate IsCancelNotice(input: Input) {
    input.Got? && input.frame.body.CommandResponse? && input.frame.body.cancels
  }

  ghost predicate SawCancel(inputs: seq<Input>) {
    exists i :: 0 <= i < |inputs| && IsCancelNotice(inputs[i])
  }

  /** A progress event that is not dropped early and, once a turn is bound, names that turn. */
  predicate Works(drop: EarlyDrop, bound: Option<string>, input: Input) {
    input.Got? && input.frame.body.Event? && input.frame.body.kind.Progress? &&
    var Event(mode, namespace, data, _, _) := input.frame.body;
    !drop(AsArray(namespace), mode, data) && (bound.Some? ==> TurnIdsMatch(bound, input.frame.turnId))
  }

  function WorkMarks(drop: EarlyDrop, inputs: seq<Input>): seq<bool> {
    seq(|inputs|, i requires 0 <= i < |inputs| => Works(drop, BoundBy(inputs[..i]), inputs[i]))
  }

  /** Work that no later change of the bound turn has invalidated. */
  ghost predicate SawWork(drop: EarlyDrop, inputs: seq<Input>) {
    SomeMark(RunTrace(inputs), WorkMarks(drop, inputs))
  }

  // ----- What the loop knows -----

  /** One input that leaves the session reading. */
  lemma ReadingStepKnows(drop: EarlyDrop, t: Turn, loopId: string, input: Input)
    requires t.phase == Reading && (t.expectedLoop == "" || t.expectedLoop == loopId) && IsOwn(loopId, input)
    requires Step(drop, t, input).phase == Reading
    ensures var u, s := Step(drop, t, input), RunSignal(input);
            && (u.expectedLoop == "" || u.expectedLoop == loopId)
            && u.started == (t.started || s.Running?)
            && u.turnId == (if s.Running? && s.id.Some? then Bind(t.turnId, s.id.value) else t.turnId)
            && u.cancelSeen == (t.cancelSeen || IsCancelNotice(input))
            && (u.progress <==>
                  Works(drop, t.turnId, input) || (t.progress && !(t.turnId.Some? && u.turnId != t.turnId)))
  {
    if input.Got? && input.frame.body.Event? {
      EventKnows(drop, t, input.frame);
    }
  }

  lemma EventKnows(drop: EarlyDrop, t: Turn, f: Frame)
    requires f.body.Event?
    ensures var u := EventStep(drop, t, f);
            && u.started == t.started && u.turnId == t.turnId && u.cancelSeen == t.cancelSeen
            && u.expectedLoop == t.expectedLoop
            && (u.progress <==>
                  t.progress || (f.body.kind.Progress? && !drop(AsArray(f.body.namespace), f.body.mode, f.body.data)))
  {
  }

  /** The gate over the `running` statuses gives flag and id. */
  lemma TraceNext(inputs: seq<Input>)
    requires inputs != []
    ensures var n := |inputs| - 1;
            && RunTrace(inputs)[..n] == RunTrace(inputs[..n])
            && BoundBy(inputs) == (var s := RunSignal(inputs[n]);
                                   if s.Running? && s.id.Some? then Bind(BoundBy(inputs[..n]), s.id.value)
                                   else BoundBy(inputs[..n]))
  {
    var n := |inputs| - 1;
    var ids := RunningIds(RunTrace(inputs[..n]));
    assert RunTrace(inputs)[..n] == RunTrace(inputs[..n]);
    var s := RunSignal(inputs[n]);
    if s.Running? && s.id.Some? {
      assert (ids + [s.id.value])[..|ids|] == ids;
    } else {
      assert ids + [] == ids;
    }
  }

  lemma SawWorkNext(drop: EarlyDrop, inputs: seq<Input>)
    requires inputs != []
    ensures var n := |inputs| - 1;
            var before := BoundBy(inputs[..n]);
            SawWork(drop, inputs) <==>
              || Works(drop, before, inputs[n])
              || (SawWork(drop, inputs[..n]) && !(before.Some? && BoundBy(inputs) != before))
  {
    var n := |inputs| - 1;
    var trace, marks := RunTrace(inputs), WorkMarks(drop, inputs);
    SomeMarkNext(trace, marks);
    TraceNext(inputs);
    assert marks[..n] == WorkMarks(drop, inputs[..n]) by {
      assert forall i :: 0 <= i < n ==> inputs[..n][..i] == inputs[..i];
    }
    assert trace[..n + 1] == trace;
    GateBindsRunningIds(trace);
    GateBindsRunningIds(trace[..n]);
  }

  lemma SawNext(inputs: seq<Input>)
    requires inputs != []
    ensures var n := |inputs| - 1;
            && (SawRunning(inputs) <==> SawRunning(inputs[..n]) || RunSignal(inputs[n]).Running?)
            && (SawCancel(inputs) <==> SawCancel(inputs[..n]) || IsCancelNotice(inputs[n]))
  {
    var n := |inputs| - 1;
    assert forall i :: 0 <= i < n ==> inputs[..n][i] == inputs[i];
  }

  /** As long as it reads, the loop's variables say: a `running` status was read; the ids of those statuses bind
      this turn; a cancellation was noticed; work of the bound turn was seen since it was last bound. */
  lemma {:induction false} ReadingSessionKnows(drop: EarlyDrop, first: string, loopId: string, inputs: seq<Input>)
    requires first == "" || first == loopId
    requires forall i :: 0 <= i < |inputs| ==> IsOwn(loopId, inputs[i])
    requires Run(drop, Begin(first), inputs).phase == Reading
    ensures var t := Run(drop, Begin(first), inputs);
            && (t.expectedLoop == "" || t.expectedLoop == loopId)
            && (t.started <==> SawRunning(inputs))
            && t.turnId == BoundBy(inputs)
            && (t.cancelSeen <==> SawCancel(inputs))
            && (t.progress <==> SawWork(drop, inputs))
  {
    if inputs == [] {
      assert RunTrace(inputs) == [];
    } else {
      var n := |inputs| - 1;
      var t := Run(drop, Begin(first), inputs[..n]);
      LeavingReading(drop, t, inputs[n]);
      ReadingSessionKnows(drop, first, loopId, inputs[..n]);
      ReadingStepKnows(drop, t, loopId, inputs[n]);
      TraceNext(inputs);
      SawNext(inputs);
      SawWorkNext(drop, inputs);
    }
  }

  // ----- Which input ends the turn -----

  /** How frame `f` ends a turn of which this much is known, if it does. */
  function EndBy(drop: EarlyDrop, started: bool, bound: Option<string>, cancelled: bool, worked: bool, f: Frame)
    : Option<EndState>
  {
    match f.body
    case Status(StoppedState, _) =>
      if started && (bound.None? || TurnIdsMatch(bound, f.turnId)) then Some(EndStopped) else None
    case Status(IdleState, _) =>
      if !started || NonBlank(bound).None? then None
      else if f.turnId.None? then (if cancelled then Some(EndIdle) else None)
      else if TurnIdsMatch(bound, f.turnId) && (worked || cancelled) then Some(EndIdle)
      else None
    case Event(mode, namespace, data, Terminal(dataTurn, streamEnd), _) =>
      if TurnIdsMatch(bound, f.turnId) && TurnIdsMatch(bound, dataTurn.Or(f.turnId)) && started && worked
         && !drop(AsArray(namespace), mode, data)
      then Some(if streamEnd then EndStream else EndCompleted) else None
    case _ => None
  }

  lemma EndingFrameOfTurn(drop: EarlyDrop, t: Turn, loopId: string, f: Frame)
    requires t.phase == Reading && (t.expectedLoop == "" || t.expectedLoop == loopId) && IsOwn(loopId, Got(f))
    ensures var u := FrameStep(drop, t, f);
            var end := EndBy(drop, t.started, t.turnId, t.cancelSeen, t.progress, f);
            && (u.phase == Draining <==> end.Some?)
            && (u.phase == Draining ==> u.endState == end.value)
            && (u.phase.Finished? <==> f.body.Failure?)
            && (f.body.Failure? ==> u == t.(phase := Finished(false), errorMessage := f.body.message))
            && (u.phase == Reading ==> u.endState == t.endState && u.errorMessage == t.errorMessage)
  {
    if IsOtherTurn(t.turnId, f) {
      OtherTurnEndsNothing(drop, t, f);
    } else if f.body.Event? {
      EndingEventOfTurn(drop, t, f);
    } else if f.body.Status? {
      EndingStatusOfTurn(if f.loopId != "" then t.(loopId := f.loopId, expectedLoop := f.loopId) else t, f);
    }
  }

  lemma OtherTurnEndsNothing(drop: EarlyDrop, t: Turn, f: Frame)
    requires IsOtherTurn(t.turnId, f)
    ensures FrameStep(drop, t, f) == t && EndBy(drop, t.started, t.turnId, t.cancelSeen, t.progress, f).None?
    ensures !f.body.Failure?
  {
  }

  lemma EndingEventOfTurn(drop: EarlyDrop, t: Turn, f: Frame)
    requires t.phase == Reading && f.body.Event?
    ensures var u := EventStep(drop, t, f);
            && (u.phase == Draining <==>
                  && f.body.kind.Terminal? && !drop(AsArray(f.body.namespace), f.body.mode, f.body.data)
                  && t.started && t.progress && TurnIdsMatch(t.turnId, f.body.kind.dataTurn.Or(f.turnId)))
            && (u.phase == Draining || u.phase == Reading)
            && (u.phase == Draining ==> u.endState == if f.body.kind.streamEnd then EndStream else EndCompleted)
            && (u.phase == Reading ==> u.endState == t.endState)
            && u.errorMessage == t.errorMessage
  {
  }

  lemma EndingStatusOfTurn(t: Turn, f: Frame)
    requires t.phase == Reading && f.body.Status?
    requires t.turnId.Some? && f.turnId.Some? && f.body.exact != RunningState ==> TurnIdsMatch(t.turnId, f.turnId)
    ensures var u := StatusStep(t, f.body.exact, f.turnId);
            && (u.phase == Draining <==>
                  || (f.body.exact == StoppedState && t.started
                      && (t.turnId.None? || TurnIdsMatch(t.turnId, f.turnId)))
                  || (f.body.exact == IdleState && t.started && NonBlank(t.turnId).Some?
                      && (if f.turnId.None? then t.cancelSeen
                          else TurnIdsMatch(t.turnId, f.turnId) && (t.progress || t.cancelSeen))))
            && (u.phase == Draining || u.phase == Reading)
            && (u.phase == Draining ==> u.endState == if f.body.exact == StoppedState then EndStopped else EndIdle)
            && (u.phase == Reading ==> u.endState == t.endState)
            && u.errorMessage == t.errorMessage
  {
    NonBlankTwice(t.turnId, f.turnId);
  }

  /** Exactly which input ends a turn well, and how: stated on everything read so far, cancellation included. */
  lemma SessionEndsIff(drop: EarlyDrop, first: string, loopId: string, inputs: seq<Input>, input: Input)
    requires first == "" || first == loopId
    requires IsOwn(loopId, input) && forall i :: 0 <= i < |inputs| ==> IsOwn(loopId, inputs[i])
    requires Run(drop, Begin(first), inputs).phase == Reading
    ensures var u := Run(drop, Begin(first), inputs + [input]);
            var saw, bound, cancelled, worked :=
              SawRunning(inputs), BoundBy(inputs), SawCancel(inputs), SawWork(drop, inputs);
            && (u.phase == Draining <==> input.Got? && EndBy(drop, saw, bound, cancelled, worked, input.frame).Some?)
            && (u.phase == Draining ==> Some(u.endState) == EndBy(drop, saw, bound, cancelled, worked, input.frame))
  {
    var t := Run(drop, Begin(first), inputs);
    ReadingSessionKnows(drop, first, loopId, inputs);
    RunAppend(drop, Begin(first), inputs, input);
    if input.Got? {
      EndingFrameOfTurn(drop, t, loopId, input.frame);
    }
  }

  lemma RunAppend(drop: EarlyDrop, t: Turn, inputs: seq<Input>, input: Input)
    ensures Run(drop, t, inputs + [input]) == Step(drop, Run(drop, t, inputs), input)
  {
    assert (inputs + [input])[..|inputs|] == inputs && (inputs + [input])[..|inputs| + 1] == inputs + [input];
    RunNext(drop, t, inputs + [input], |inputs|);
  }

  /** Exactly which input makes a turn fail, and what the session reports then. */
  lemma SessionFailsIff(drop: EarlyDrop, first: string, loopId: string, inputs: seq<Input>, input: Input)
    requires first == "" || first == loopId
    requires IsOwn(loopId, input) && forall i :: 0 <= i < |inputs| ==> IsOwn(loopId, inputs[i])
    requires Run(drop, Begin(first), inputs).phase == Reading
    ensures var t, u := Run(drop, Begin(first), inputs), Run(drop, Begin(first), inputs + [input]);
            && (u.phase.Finished? <==>
                  match input
                  case DeadlinePassed(_) => true
                  case ReadFailed => true
                  case Quiet(alive) => !alive && SawRunning(inputs)
                  case Got(f) => f.body.Failure?)
            && (u.phase.Finished? ==> u.phase == Finished(false) && u.out == t.out)
            && (u.phase.Finished? ==>
                  match input
                  case DeadlinePassed(wait) =>
                    u.errorMessage == "turn timed out after " + wait + " (loop=" + t.expectedLoop + ")"
                  case Got(f) => u.errorMessage == f.body.message
                  case _ => u.errorMessage == t.errorMessage)
            && (u.phase.Finished? ==> u.endState == if input.Quiet? then EndConnectionLost else t.endState)
  {
    var t := Run(drop, Begin(first), inputs);
    ReadingSessionKnows(drop, first, loopId, inputs);
    RunAppend(drop, Begin(first), inputs, input);
    if input.Got? {
      EndingFrameOfTurn(drop, t, loopId, input.frame);
    }
  }

  /** Until then nothing is reported at all. */
  lemma {:induction false} ReadingReportsNothing(drop: EarlyDrop, first: string, inputs: seq<Input>)
    requires Run(drop, Begin(first), inputs).phase == Reading
    ensures Run(drop, Begin(first), inputs).endState == NoEnd && Run(drop, Begin(first), inputs).errorMessage == ""
  {
    if inputs != [] {
      var n := |inputs| - 1;
      var t := Run(drop, Begin(first), inputs[..n]);
      LeavingReading(drop, t, inputs[n]);
      ReadingReportsNothing(drop, first, inputs[..n]);
      StillReading(drop, t, inputs[n]);
    }
  }

  lemma StillReading(drop: EarlyDrop, t: Turn, input: Input)
    requires t.phase == Reading && Step(drop, t, input).phase == Reading
    ensures Step(drop, t, input).endState == t.endState && Step(drop, t, input).errorMessage == t.errorMessage
  {
    if input.Got? && input.frame.body.Event? {
      EndingEventOfTurn(drop, t, input.frame);
    } else if input.Got? && input.frame.body.Status? {
      StatusStillReading(t, input.frame.body.exact, input.frame.turnId);
    }
  }

  lemma StatusStillReading(t: Turn, state: StateName, turnId: Option<string>)
    requires t.phase == Reading
    ensures var u := StatusStep(t, state, turnId);
            u.phase == Reading ==> u.endState == t.endState && u.errorMessage == t.errorMessage
  {
  }

  // ----- The drain -----

  /** What keeps a drain going: a frame, unless it is an error of the session's own loop. */
  predicate DrainsOn(expectedLoop: string, input: Input) {
    input.Got? && (input.frame.body.Failure? ==>
      expectedLoop != "" && input.frame.loopId != "" && input.frame.loopId != expectedLoop)
  }

  /** The loop a drained input makes the session's: a status of the own loop may name one. */
  function LoopAfter(loopId: string, expectedLoop: string, input: Input): string {
    if input.Got? && input.frame.body.Status? && input.frame.loopId != ""
       && (expectedLoop == "" || input.frame.loopId == expectedLoop)
    then input.frame.loopId else loopId
  }

  lemma DrainStepRule(drop: EarlyDrop, t: Turn, input: Input)
    requires t.phase == Draining
    ensures var u := Step(drop, t, input);
            && u.phase == (if DrainsOn(t.expectedLoop, input) then Draining else Finished(true))
            && u.loopId == LoopAfter(t.loopId, t.expectedLoop, input)
            && u == t.(phase := u.phase, loopId := u.loopId, out := u.out, stats := u.stats)
  {
  }

  /** A drain goes on exactly as long as frames come and none of them is an error of the session's loop; whatever
      stops it, the turn has ended well. What the turn's end reported stays. */
  lemma {:induction false} DrainGoesOnIff(drop: EarlyDrop, t: Turn, inputs: seq<Input>)
    requires t.phase == Draining
    ensures var u := Run(drop, t, inputs);
            && (u.phase == Draining <==> forall i :: 0 <= i < |inputs| ==> DrainsOn(t.expectedLoop, inputs[i]))
            && (u.phase != Draining ==> u.phase == Finished(true))
            && u == t.(phase := u.phase, loopId := u.loopId, out := u.out, stats := u.stats)
  {
    if inputs != [] {
      var n := |inputs| - 1;
      DrainGoesOnIff(drop, t, inputs[..n]);
      var u := Run(drop, t, inputs[..n]);
      assert forall i :: 0 <= i < n ==> inputs[..n][i] == inputs[i];
      if u.phase == Draining {
        DrainStepRule(drop, u, inputs[n]);
      }
    }
  }

  // ----- The loop a session talks to -----

  /** A session that does not know its loop yet learns it from the first status that names one, and keeps it. */
  lemma LoopIsLearned(drop: EarlyDrop, t: Turn, f: Frame)
    requires t.phase == Reading && t.expectedLoop == "" && f.body.Status? && f.loopId != ""
    requires t.turnId.None? || f.body.exact == RunningState || TurnIdsMatch(t.turnId, f.turnId)
    ensures FrameStep(drop, t, f).expectedLoop == FrameStep(drop, t, f).loopId == f.loopId
  {
    StatusKeepsLoop(t.(loopId := f.loopId, expectedLoop := f.loopId), f.body.exact, f.turnId);
  }

  lemma StatusKeepsLoop(t: Turn, state: StateName, turnId: Option<string>)
    ensures var u := StatusStep(t, state, turnId); u.expectedLoop == t.expectedLoop && u.loopId == t.loopId
  {
  }
}
