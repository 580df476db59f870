/** What one session turn does over whole runs: isolation from other loops, and its accounts. */
module DaemonSessionRuns {
  import opened Options
  import opened Sequences
  import opened JsonValues
  import opened Frames
  import opened TurnIds
  import opened TurnBoundary
  import opened DaemonSession

  // ----- Other loops -----

  /** Everything but the frames that name another loop. */
  function IsLocal(loopId: string): Input -> bool {
    (i: Input) => i.Got? && i.frame.loopId != "" && loopId != "" ==> i.frame.loopId == loopId
  }

  lemma StepKeepsLoop(drop: EarlyDrop, t: Turn, input: Input)
    requires t.expectedLoop != ""
    ensures Step(drop, t, input).expectedLoop == t.expectedLoop
    ensures t.loopId == t.expectedLoop ==> Step(drop, t, input).loopId == t.loopId
  {
    if input.Got? && input.frame.body.Event? {
      EventKeepsLoop(drop, t, input.frame);
    }
  }

  lemma EventKeepsLoop(drop: EarlyDrop, t: Turn, f: Frame)
    requires f.body.Event?
    ensures EventStep(drop, t, f).expectedLoop == t.expectedLoop && EventStep(drop, t, f).loopId == t.loopId
  {
  }

  /** A session that knows its loop never changes it during a turn, whatever arrives. */
  lemma {:induction false} LoopIsFixed(drop: EarlyDrop, loopId: string, inputs: seq<Input>)
    requires loopId != ""
    ensures var t := Run(drop, Begin(loopId), inputs); t.expectedLoop == t.loopId == loopId
  {
    if inputs != [] {
      LoopIsFixed(drop, loopId, inputs[..|inputs| - 1]);
      StepKeepsLoop(drop, Run(drop, Begin(loopId), inputs[..|inputs| - 1]), inputs[|inputs| - 1]);
    }
  }

  lemma ForeignIsSkipped(drop: EarlyDrop, t: Turn, input: Input)
    requires !IsLocal(t.expectedLoop)(input)
    ensures Step(drop, t, input) == t
  {
  }

  /** Frames of other loops have no effect at all: chunks, end state, error message, ids and every
      counter are what they would have been without them. */
  lemma {:induction false} ForeignFramesDoNotInterfere(drop: EarlyDrop, loopId: string, inputs: seq<Input>)
    requires loopId != ""
    ensures Run(drop, Begin(loopId), inputs) == Run(drop, Begin(loopId), Keep(IsLocal(loopId), inputs))
  {
    if inputs != [] {
      var init, last := inputs[..|inputs| - 1], inputs[|inputs| - 1];
      ForeignFramesDoNotInterfere(drop, loopId, init);
      LoopIsFixed(drop, loopId, init);
      if IsLocal(loopId)(last) {
        var kept := Keep(IsLocal(loopId), init);
        assert (kept + [last])[..|kept|] == kept;
      } else {
        ForeignIsSkipped(drop, Run(drop, Begin(loopId), init), last);
      }
    }
  }

  // ----- Accounts -----

  /** Every counted event was filtered, skipped or handed out; and modes never outnumber events. */
  predicate Balanced(t: Turn) {
    AddsUp(t.stats, |t.out|) && (t.phase.Reading? ==> t.stats.postIdleDrained == 0)
  }

  predicate AddsUp(st: Stats, handedOut: nat) {
    && st.total == st.filteredEarly + st.skipped + handedOut
    && st.messages + st.updates + st.custom <= st.total
    && st.textChunks <= st.messages
    && st.toolCalls + st.toolResults <= handedOut
  }

  lemma StepKeepsBalance(drop: EarlyDrop, t: Turn, input: Input)
    requires Balanced(t)
    ensures Balanced(Step(drop, t, input))
  {
    if input.Got? && input.frame.body.Event? {
      if t.phase == Reading {
        EventKeepsBalance(drop, t, input.frame);
      } else {
        DrainKeepsBalance(drop, t, input.frame);
      }
    }
  }

  lemma EventKeepsBalance(drop: EarlyDrop, t: Turn, f: Frame)
    requires f.body.Event? && t.phase == Reading && Balanced(t)
    ensures Balanced(EventStep(drop, t, f))
  {
    UncollectedAddsUp(t.stats, f.body.mode, |t.out|);
    CollectKeepsBalance(t, f);
  }

  lemma CollectKeepsBalance(t: Turn, f: Frame)
    requires f.body.Event? && t.phase == Reading && Balanced(t)
    ensures Balanced(Collect(t, f))
  {
    CollectedAddsUp(t.stats, f.body.mode, f.body.tool, |t.out|);
  }

  lemma DrainKeepsBalance(drop: EarlyDrop, t: Turn, f: Frame)
    requires f.body.Event? && t.phase != Reading && Balanced(t)
    ensures Balanced(DrainFrameStep(drop, t, f))
  {
    UncollectedAddsUp(t.stats, f.body.mode, |t.out|);
    CollectedAddsUp(t.stats, f.body.mode, NoTool, |t.out|);
  }

  lemma UncollectedAddsUp(st: Stats, mode: Mode, handedOut: nat)
    requires AddsUp(st, handedOut)
    ensures var c := CountEvent(st, mode);
            && AddsUp(c.(filteredEarly := c.filteredEarly + 1), handedOut)
            && AddsUp(c.(skipped := c.skipped + 1), handedOut)
            && c.postIdleDrained == st.postIdleDrained
  {
    CountingModes(st, mode);
  }

  lemma CollectedAddsUp(st: Stats, mode: Mode, tool: ToolUse, handedOut: nat)
    requires AddsUp(st, handedOut)
    ensures var c := CountEvent(st, mode);
            && AddsUp(CountTool(c, tool), handedOut + 1)
            && AddsUp(CountTool(CountText(c, mode), tool), handedOut + 1)
            && AddsUp(c.(postIdleDrained := c.postIdleDrained + 1), handedOut + 1)
            && CountTool(c, tool).postIdleDrained == st.postIdleDrained
            && CountTool(CountText(c, mode), tool).postIdleDrained == st.postIdleDrained
  {
    CountingModes(st, mode);
    CountingTools(CountEvent(st, mode), tool);
    CountingTools(CountText(CountEvent(st, mode), mode), tool);
  }

  lemma CountingModes(st: Stats, mode: Mode)
    ensures var c := CountEvent(st, mode);
            && c.total == st.total + 1
            && c.messages == st.messages + (if mode == Messages then 1 else 0)
            && c.messages + c.updates + c.custom <= st.messages + st.updates + st.custom + 1
            && c == st.(total := c.total, messages := c.messages, updates := c.updates, custom := c.custom)
  {
  }

  lemma CountingTools(st: Stats, tool: ToolUse)
    ensures var c := CountTool(st, tool);
            && c.toolCalls + c.toolResults <= st.toolCalls + st.toolResults + 1
            && c == st.(toolCalls := c.toolCalls, toolResults := c.toolResults)
  {
  }

  /** The turn's counters always add up. */
  lemma {:induction false} CountersBalance(drop: EarlyDrop, loopId: string, inputs: seq<Input>)
    ensures Balanced(Run(drop, Begin(loopId), inputs))
  {
    if inputs != [] {
      CountersBalance(drop, loopId, inputs[..|inputs| - 1]);
      StepKeepsBalance(drop, Run(drop, Begin(loopId), inputs[..|inputs| - 1]), inputs[|inputs| - 1]);
    }
  }

  // ----- Silence -----

  /** Reads that bring nothing end a turn exactly when it has started and one of them finds the connection dead;
      otherwise they leave it as it was, however many there are. */
  lemma {:induction false} QuietReadsEndIff(drop: EarlyDrop, t: Turn, inputs: seq<Input>)
    requires t.phase == Reading && forall i :: 0 <= i < |inputs| ==> inputs[i].Quiet?
    ensures var u := Run(drop, t, inputs);
            && (u.phase != Reading <==> t.started && exists i :: 0 <= i < |inputs| && !inputs[i].alive)
            && (u.phase != Reading ==> u == t.(phase := Finished(false), endState := EndConnectionLost))
            && (u.phase == Reading ==> u == t)
  {
    if inputs != [] {
      var n := |inputs| - 1;
      QuietReadsEndIff(drop, t, inputs[..n]);
      QuietStep(drop, Run(drop, t, inputs[..n]), inputs[n]);
      assert forall i :: 0 <= i < n ==> inputs[..n][i] == inputs[i];
    }
  }

  lemma QuietStep(drop: EarlyDrop, t: Turn, input: Input)
    requires input.Quiet? && (t.phase == Reading || t.phase == Finished(false))
    ensures Step(drop, t, input) == if t.phase == Reading && t.started && !input.alive
                                    then t.(phase := Finished(false), endState := EndConnectionLost) else t
  {
  }

  /** So a connection that dies before `running` was read is never noticed: without a time budget the call
      reads on for ever. */
  lemma DeadBeforeRunningReadsOn(drop: EarlyDrop, loopId: string, n: nat)
    ensures Run(drop, Begin(loopId), seq(n, i => Quiet(false))) == Begin(loopId)
  {
    QuietReadsEndIff(drop, Begin(loopId), seq(n, i => Quiet(false)));
  }

  // ----- Shape -----

  predicate IsRunningStatus(input: Input) {
    input.Got? && input.frame.body.Status? && input.frame.body.exact == RunningState
  }

  predicate EndedWell(t: Turn) {
    t.phase == Draining || t.phase == Finished(true)
  }

  lemma StepNeedsRunning(drop: EarlyDrop, t: Turn, input: Input)
    requires EndedWell(t) ==> t.started
    ensures var u := Step(drop, t, input);
            && (EndedWell(u) ==> u.started)
            && (u.started ==> t.started || IsRunningStatus(input))
  {
    if input.Got? && input.frame.body.Event? {
      EventNeedsRunning(drop, t, input.frame);
    }
  }

  lemma EventNeedsRunning(drop: EarlyDrop, t: Turn, f: Frame)
    requires f.body.Event?
    ensures var u := EventStep(drop, t, f); u.started == t.started && (u.phase == t.phase || u.started)
    ensures DrainFrameStep(drop, t, f).started == t.started
  {
  }

  /** No turn ends well before this very call has read a `running` status. */
  lemma {:induction false} NoEndBeforeRunning(drop: EarlyDrop, loopId: string, inputs: seq<Input>)
    ensures var t := Run(drop, Begin(loopId), inputs);
            && (EndedWell(t) ==> t.started)
            && (t.started ==> exists i :: 0 <= i < |inputs| && IsRunningStatus(inputs[i]))
  {
    if inputs != [] {
      var n := |inputs| - 1;
      NoEndBeforeRunning(drop, loopId, inputs[..n]);
      var t := Run(drop, Begin(loopId), inputs[..n]);
      StepNeedsRunning(drop, t, inputs[n]);
      if t.started {
        var i :| 0 <= i < n && IsRunningStatus(inputs[..n][i]);
        assert IsRunningStatus(inputs[i]);
      }
    }
  }

  /** Input k hands out a chunk before the turn has ended. */
  predicate YieldsAt(drop: EarlyDrop, loopId: string, inputs: seq<Input>, k: nat)
    requires k < |inputs|
  {
    var t := Run(drop, Begin(loopId), inputs[..k]);
    t.phase == Reading && Step(drop, t, inputs[k]).out != t.out
  }

  lemma YieldingStep(drop: EarlyDrop, t: Turn, input: Input)
    requires t.phase == Reading && Step(drop, t, input).out != t.out
    ensures input.Got? && input.frame.body.Event?
    ensures var u := Step(drop, t, input);
            && u.out == t.out + [ChunkOf(input.frame)]
            && (t.turnId.Some? ==> TurnIdsMatch(t.turnId, input.frame.turnId))
            && (IsTurnEnd(input.frame) <==> u.phase == Draining)
  {
    assert input.Got?;
    var f := input.frame;
    if f.body.Status? {
      StatusYieldsNothing(t, f.body.exact, f.turnId);
    }
    if f.body.Event? {
      assert !IsOtherTurn(t.turnId, f);
      EventYields(drop, t, f);
    }
  }

  lemma StatusYieldsNothing(t: Turn, state: StateName, turnId: Option<string>)
    ensures StatusStep(t, state, turnId).out == t.out
  {
  }

  lemma EventYields(drop: EarlyDrop, t: Turn, f: Frame)
    requires f.body.Event? && t.phase == Reading
    ensures var u := EventStep(drop, t, f);
            && (u.out == t.out || u.out == t.out + [ChunkOf(f)])
            && (u.out != t.out ==> (IsTurnEnd(f) <==> u.phase == Draining))
  {
  }

  /** A chunk handed out while a turn is bound comes from a frame of that turn; and a turn-end chunk is
      the last one before the drain, so there is at most one of them. */
  lemma ChunksBelongToTheTurn(drop: EarlyDrop, loopId: string, inputs: seq<Input>, k: nat)
    requires k < |inputs| && YieldsAt(drop, loopId, inputs, k)
    ensures var t := Run(drop, Begin(loopId), inputs[..k]);
            && inputs[k].Got?
            && (t.turnId.Some? ==> TurnIdsMatch(t.turnId, inputs[k].frame.turnId))
            && forall j :: 0 <= j < k && YieldsAt(drop, loopId, inputs, j) ==> !IsTurnEnd(inputs[j].frame)
  {
    YieldingStep(drop, Run(drop, Begin(loopId), inputs[..k]), inputs[k]);
    forall j | 0 <= j < k && YieldsAt(drop, loopId, inputs, j) ensures !IsTurnEnd(inputs[j].frame) {
      EarlierChunkDidNotEnd(drop, loopId, inputs, j, k);
    }
  }

  lemma EarlierChunkDidNotEnd(drop: EarlyDrop, loopId: string, inputs: seq<Input>, j: nat, k: nat)
    requires j < k < |inputs| && YieldsAt(drop, loopId, inputs, j)
    requires Run(drop, Begin(loopId), inputs[..k]).phase == Reading
    ensures inputs[j].Got? && !IsTurnEnd(inputs[j].frame)
  {
    YieldingStep(drop, Run(drop, Begin(loopId), inputs[..j]), inputs[j]);
    RunNext(drop, Begin(loopId), inputs, j);
    ReadingIsOver(drop, Begin(loopId), inputs, j + 1, k);
  }

  /** Once the read loop is left it is never entered again. */
  lemma {:induction false} ReadingIsOver(drop: EarlyDrop, t: Turn, inputs: seq<Input>, j: nat, k: nat)
    requires j <= k <= |inputs|
    ensures Run(drop, t, inputs[..k]).phase == Reading ==> Run(drop, t, inputs[..j]).phase == Reading
    decreases k - j
  {
    if j < k {
      RunNext(drop, t, inputs, j);
      LeavingReading(drop, Run(drop, t, inputs[..j]), inputs[j]);
      ReadingIsOver(drop, t, inputs, j + 1, k);
    }
  }

  lemma LeavingReading(drop: EarlyDrop, t: Turn, input: Input)
    ensures Step(drop, t, input).phase == Reading ==> t.phase == Reading
    ensures Step(drop, t, input).phase == Draining ==> t.phase == Reading || t.phase == Draining
  {
  }

  /** What follows the end of the turn is appended after it, chunk by chunk counted as drained. */
  lemma {:induction false} DrainedChunksAreTheSuffix(drop: EarlyDrop, t: Turn, inputs: seq<Input>)
    requires t.phase == Draining
    ensures var u := Run(drop, t, inputs);
            && t.out <= u.out
            && |u.out| - |t.out| == u.stats.postIdleDrained - t.stats.postIdleDrained
            && u.endState == t.endState && u.turnId == t.turnId && EndedWell(u)
  {
    if inputs != [] {
      DrainedChunksAreTheSuffix(drop, t, inputs[..|inputs| - 1]);
      DrainStepAppends(drop, Run(drop, t, inputs[..|inputs| - 1]), inputs[|inputs| - 1]);
    }
  }

  lemma DrainStepAppends(drop: EarlyDrop, t: Turn, input: Input)
    requires EndedWell(t)
    ensures var u := Step(drop, t, input);
            && t.out <= u.out
            && |u.out| - |t.out| == u.stats.postIdleDrained - t.stats.postIdleDrained
            && u.endState == t.endState && u.turnId == t.turnId && EndedWell(u)
  {
  }

  lemma RunConcat(drop: EarlyDrop, t: Turn, a: seq<Input>, b: seq<Input>)
    ensures Run(drop, t, a + b) == Run(drop, Run(drop, t, a), b)
  {
    FoldConcat(StepOf(drop), t, a, b);
  }

  /** Input k ends the turn: the read loop is left for the drain. */
  ghost predicate EndsTurnAt(drop: EarlyDrop, t: Turn, inputs: seq<Input>, k: int) {
    && 0 <= k < |inputs|
    && Run(drop, t, inputs[..k]).phase == Reading
    && Run(drop, t, inputs[..k + 1]).phase == Draining
  }

  lemma {:induction false} SomeInputEndsTheTurn(drop: EarlyDrop, t: Turn, inputs: seq<Input>)
    requires t.phase == Reading && EndedWell(Run(drop, t, inputs))
    ensures exists k :: EndsTurnAt(drop, t, inputs, k)
  {
    var n := |inputs| - 1;
    var before := Run(drop, t, inputs[..n]);
    assert inputs[..n + 1] == inputs;
    EndingStep(drop, before, inputs[n]);
    if before.phase == Reading {
      assert EndsTurnAt(drop, t, inputs, n);
    } else {
      SomeInputEndsTheTurn(drop, t, inputs[..n]);
      var k :| EndsTurnAt(drop, t, inputs[..n], k);
      assert inputs[..n][..k] == inputs[..k] && inputs[..n][..k + 1] == inputs[..k + 1];
      assert EndsTurnAt(drop, t, inputs, k);
    }
  }

  lemma EndingStep(drop: EarlyDrop, t: Turn, input: Input)
    requires EndedWell(Step(drop, t, input))
    ensures EndedWell(t) || (t.phase == Reading && Step(drop, t, input).phase == Draining)
  {
    if t.phase == Reading && input.Got? && input.frame.body.Event? {
      EventEndsOrReads(drop, t, input.frame);
    }
  }

  lemma EventEndsOrReads(drop: EarlyDrop, t: Turn, f: Frame)
    requires f.body.Event? && t.phase == Reading
    ensures var u := EventStep(drop, t, f); u.phase == Reading || u.phase == Draining
  {
  }

  /** The shape of a turn that ended well: one input ends it, everything handed out before that stays in
      front, and exactly the drained chunks follow. */
  lemma TurnHasOneEnd(drop: EarlyDrop, loopId: string, inputs: seq<Input>)
    requires EndedWell(Run(drop, Begin(loopId), inputs))
    ensures exists k :: EndsTurnAt(drop, Begin(loopId), inputs, k)
    ensures forall k :: EndsTurnAt(drop, Begin(loopId), inputs, k) ==>
              var ended, u := Run(drop, Begin(loopId), inputs[..k + 1]), Run(drop, Begin(loopId), inputs);
              && ended.out <= u.out
              && |u.out| == |ended.out| + u.stats.postIdleDrained
              && u.endState == ended.endState
  {
    SomeInputEndsTheTurn(drop, Begin(loopId), inputs);
    forall k | EndsTurnAt(drop, Begin(loopId), inputs, k)
      ensures var ended, u := Run(drop, Begin(loopId), inputs[..k + 1]), Run(drop, Begin(loopId), inputs);
              && ended.out <= u.out
              && |u.out| == |ended.out| + u.stats.postIdleDrained
              && u.endState == ended.endState
    {
      NothingDrainedAtEnd(drop, loopId, inputs, k);
      RestIsDrained(drop, Begin(loopId), inputs, k + 1);
    }
  }

  lemma NothingDrainedAtEnd(drop: EarlyDrop, loopId: string, inputs: seq<Input>, k: nat)
    requires EndsTurnAt(drop, Begin(loopId), inputs, k)
    ensures Run(drop, Begin(loopId), inputs[..k + 1]).stats.postIdleDrained == 0
  {
    RunNext(drop, Begin(loopId), inputs, k);
    CountersBalance(drop, loopId, inputs[..k]);
    NothingDrainedYet(drop, Run(drop, Begin(loopId), inputs[..k]), inputs[k]);
  }

  lemma RestIsDrained(drop: EarlyDrop, t: Turn, inputs: seq<Input>, k: nat)
    requires k <= |inputs| && Run(drop, t, inputs[..k]).phase == Draining
    ensures var ended, u := Run(drop, t, inputs[..k]), Run(drop, t, inputs);
            && ended.out <= u.out
            && |u.out| - |ended.out| == u.stats.postIdleDrained - ended.stats.postIdleDrained
            && u.endState == ended.endState
  {
    var ended := Run(drop, t, inputs[..k]);
    RunConcat(drop, t, inputs[..k], inputs[k..]);
    assert inputs == inputs[..k] + inputs[k..];
    DrainedChunksAreTheSuffix(drop, ended, inputs[k..]);
  }

  lemma NothingDrainedYet(drop: EarlyDrop, t: Turn, input: Input)
    requires t.phase == Reading && t.stats.postIdleDrained == 0
    ensures Step(drop, t, input).stats.postIdleDrained == 0
  {
    if input.Got? && input.frame.body.Event? {
      EventDrainsNothing(drop, t, input.frame);
    }
  }

  lemma EventDrainsNothing(drop: EarlyDrop, t: Turn, f: Frame)
    requires f.body.Event?
    ensures EventStep(drop, t, f).stats.postIdleDrained == t.stats.postIdleDrained
  {
    CountingModes(t.stats, f.body.mode);
    var texted := if IsProgress(f) then CountText(CountEvent(t.stats, f.body.mode), f.body.mode)
                  else CountEvent(t.stats, f.body.mode);
    CountingTools(texted, f.body.tool);
  }
}
