/** What one session turn hands out and what it counts, frame by frame. */
module SessionChunks {
  import opened Options
  import opened Sequences
  import opened JsonValues
  import opened StreamTerminal
  import opened InboundPriority
  import opened Frames
  import opened TurnIds
  import opened DaemonSession
  import opened Samples
  import opened MessagePayloads

  /** What becomes of one input: not an event of this turn, dropped early, refused as a terminal, handed out
      before the drain, or handed out by it. */
  datatype Fate = Ignored | Filtered | Refused | Yielded | Drained

  function FateOf(drop: EarlyDrop, t: Turn, input: Input): Fate {
    if !input.Got? || !input.frame.body.Event? || t.phase.Finished? then Ignored
    else
      var f := input.frame;
      var Event(mode, namespace, data, kind, _) := f.body;
      if t.expectedLoop != "" && f.loopId != "" && f.loopId != t.expectedLoop then Ignored
      else if t.phase == Reading && t.turnId.Some? && !TurnIdsMatch(t.turnId, f.turnId) then Ignored
      else if drop(AsArray(namespace), mode, data) then Filtered
      else if t.phase == Draining then Drained
      else if kind.Terminal? && !IsTurnTerminalAllowed(t.turnId, kind.dataTurn.Or(f.turnId), t.started, t.progress)
      then Refused
      else Yielded
  }

  predicate IsHandedOut(fate: Fate) {
    fate == Yielded || fate == Drained
  }

  /** `out` grows by one chunk that carries the frame's own fields, each in its place. */
  predicate AppendsFieldsOf(before: seq<Chunk>, after: seq<Chunk>, f: Frame) {
    && |after| == |before| + 1
    && after[..|before|] == before
    && f.body.Event?
    && after[|before|].namespace == f.body.namespace
    && after[|before|].mode == f.body.mode
    && after[|before|].data == f.body.data
  }

  lemma StepHandsOut(drop: EarlyDrop, t: Turn, input: Input)
    ensures var u := Step(drop, t, input);
            if IsHandedOut(FateOf(drop, t, input)) then AppendsFieldsOf(t.out, u.out, input.frame) else u.out == t.out
  {
    if input.Got? && input.frame.body.Event? {
      EventHandsOut(drop, t, input.frame);
      DrainHandsOut(drop, t, input.frame);
    } else if input.Got? && input.frame.body.Status? {
      StatusHandsOutNothing(t, input.frame.body.exact, input.frame.turnId);
    }
  }

  lemma StatusHandsOutNothing(t: Turn, state: StateName, turnId: Option<string>)
    ensures StatusStep(t, state, turnId).out == t.out
  {
  }

  lemma EventHandsOut(drop: EarlyDrop, t: Turn, f: Frame)
    requires f.body.Event?
    ensures var u := EventStep(drop, t, f);
            if drop(AsArray(f.body.namespace), f.body.mode, f.body.data) then u.out == t.out
            else if f.body.kind.Terminal?
                    && !IsTurnTerminalAllowed(t.turnId, f.body.kind.dataTurn.Or(f.turnId), t.started, t.progress)
            then u.out == t.out
            else AppendsFieldsOf(t.out, u.out, f)
  {
  }

  lemma DrainHandsOut(drop: EarlyDrop, t: Turn, f: Frame)
    requires f.body.Event?
    ensures var u := DrainFrameStep(drop, t, f);
            if (t.expectedLoop != "" && f.loopId != "" && f.loopId != t.expectedLoop)
               || drop(AsArray(f.body.namespace), f.body.mode, f.body.data)
            then u.out == t.out
            else AppendsFieldsOf(t.out, u.out, f)
  {
  }

  /** The frames handed out, in the order they came. */
  function Handed(drop: EarlyDrop, t0: Turn, inputs: seq<Input>): seq<Frame> {
    if inputs == [] then []
    else
      var init, last := inputs[..|inputs| - 1], inputs[|inputs| - 1];
      Handed(drop, t0, init) + if IsHandedOut(FateOf(drop, Run(drop, t0, init), last)) then [last.frame] else []
  }

  /** The chunks are these frames, one for one. */
  predicate ShowsFrames(out: seq<Chunk>, frames: seq<Frame>) {
    && |out| == |frames|
    && forall i :: 0 <= i < |frames| ==>
         && frames[i].body.Event?
         && out[i].namespace == frames[i].body.namespace
         && out[i].mode == frames[i].body.mode
         && out[i].data == frames[i].body.data
  }

  /** What a call returns, whatever arrives: namespace, mode and data of the accepted event frames, in order;
      that is of the events that are of the session's loop and, until the drain, of the bound turn, that the
      early filter passes, and that are not a terminal the turn has not earned. */
  lemma {:induction false} TurnReturnsItsFrames(drop: EarlyDrop, loopId: string, inputs: seq<Input>)
    ensures ShowsFrames(Run(drop, Begin(loopId), inputs).out, Handed(drop, Begin(loopId), inputs))
  {
    if inputs != [] {
      var init, last := inputs[..|inputs| - 1], inputs[|inputs| - 1];
      var t := Run(drop, Begin(loopId), init);
      TurnReturnsItsFrames(drop, loopId, init);
      StepHandsOut(drop, t, last);
      ShowsOneMore(t.out, Step(drop, t, last).out, Handed(drop, Begin(loopId), init), last,
                   IsHandedOut(FateOf(drop, t, last)));
    }
  }

  lemma ShowsOneMore(before: seq<Chunk>, after: seq<Chunk>, frames: seq<Frame>, input: Input, more: bool)
    requires ShowsFrames(before, frames) && (more ==> input.Got?)
    requires if more then AppendsFieldsOf(before, after, input.frame) else after == before
    ensures ShowsFrames(after, frames + if more then [input.frame] else [])
  {
    if more {
      assert forall i :: 0 <= i < |before| ==> after[..|before|][i] == after[i];
    }
  }

  // ----- Counters -----

  function One(b: bool): nat {
    if b then 1 else 0
  }

  /** What one frame of this fate does to the counters. */
  predicate Counts(st: Stats, fate: Fate, f: Frame, after: Stats)
    requires f.body.Event?
  {
    var Event(mode, _, _, _, tool) := f.body;
    && after.total == st.total + 1
    && after.messages == st.messages + One(mode == Messages)
    && after.updates == st.updates + One(mode == Updates)
    && after.custom == st.custom + One(mode == Custom)
    && after.filteredEarly == st.filteredEarly + One(fate == Filtered)
    && after.skipped == st.skipped + One(fate == Refused)
    && after.toolCalls == st.toolCalls + One(fate == Yielded && tool == ToolCall)
    && after.toolResults == st.toolResults + One(fate == Yielded && tool == ToolResult)
    && after.textChunks == st.textChunks + One(fate == Yielded && f.body.kind.Progress? && mode == Messages)
    && after.postIdleDrained == st.postIdleDrained + One(fate == Drained)
    && after.inboundDropped == st.inboundDropped
  }

  lemma StepCounts(drop: EarlyDrop, t: Turn, input: Input)
    ensures var fate, u := FateOf(drop, t, input), Step(drop, t, input);
            if fate == Ignored then u.stats == t.stats else Counts(t.stats, fate, input.frame, u.stats)
  {
    if input.Got? && input.frame.body.Event? {
      if t.phase == Reading {
        EventCounts(drop, t, input.frame);
      } else if FateOf(drop, t, input) != Ignored {
        DrainCounts(drop, t, input.frame);
      }
    } else if input.Got? && input.frame.body.Status? {
      StatusCountsNothing(t, input.frame.body.exact, input.frame.turnId);
    }
  }

  lemma StatusCountsNothing(t: Turn, state: StateName, turnId: Option<string>)
    ensures StatusStep(t, state, turnId).stats == t.stats
  {
  }

  lemma EventCounts(drop: EarlyDrop, t: Turn, f: Frame)
    requires f.body.Event?
    ensures var fate := if drop(AsArray(f.body.namespace), f.body.mode, f.body.data) then Filtered
                        else if f.body.kind.Terminal?
                                && !IsTurnTerminalAllowed(t.turnId, f.body.kind.dataTurn.Or(f.turnId), t.started,
                                                          t.progress)
                        then Refused else Yielded;
            Counts(t.stats, fate, f, EventStep(drop, t, f).stats)
  {
    CountedEvent(t.stats, f);
    CollectCounts(t, f);
  }

  lemma CountedEvent(st: Stats, f: Frame)
    requires f.body.Event?
    ensures var c := CountEvent(st, f.body.mode);
            && Counts(st, Filtered, f, c.(filteredEarly := c.filteredEarly + 1))
            && Counts(st, Refused, f, c.(skipped := c.skipped + 1))
  {
  }

  lemma CollectCounts(t: Turn, f: Frame)
    requires f.body.Event?
    ensures Counts(t.stats, Yielded, f, Collect(t, f).stats)
  {
  }

  lemma DrainCounts(drop: EarlyDrop, t: Turn, f: Frame)
    requires f.body.Event? && !(t.expectedLoop != "" && f.loopId != "" && f.loopId != t.expectedLoop)
    ensures var fate := if drop(AsArray(f.body.namespace), f.body.mode, f.body.data) then Filtered else Drained;
            Counts(t.stats, fate, f, DrainFrameStep(drop, t, f).stats)
  {
  }

  /** How many event frames of the session's turn have property `p`, by their fate. */
  function Tally(drop: EarlyDrop, t0: Turn, inputs: seq<Input>, p: (Fate, Frame) -> bool): nat {
    if inputs == [] then 0
    else
      var init, last := inputs[..|inputs| - 1], inputs[|inputs| - 1];
      var fate := FateOf(drop, Run(drop, t0, init), last);
      Tally(drop, t0, init, p) + if fate != Ignored && p(fate, last.frame) then 1 else 0
  }

  function InMode(mode: Mode): (Fate, Frame) -> bool {
    (fate: Fate, f: Frame) => f.body.Event? && f.body.mode == mode
  }

  function WithFate(which: Fate): (Fate, Frame) -> bool {
    (fate: Fate, f: Frame) => fate == which
  }

  function UsingTool(tool: ToolUse): (Fate, Frame) -> bool {
    (fate: Fate, f: Frame) => fate == Yielded && f.body.Event? && f.body.tool == tool
  }

  function IsText(): (Fate, Frame) -> bool {
    (fate: Fate, f: Frame) => fate == Yielded && f.body.Event? && f.body.kind.Progress? && f.body.mode == Messages
  }

  /** Every counter of a call is the number of frames it stands for. */
  predicate CountersExact(drop: EarlyDrop, t0: Turn, inputs: seq<Input>) {
    var st := Run(drop, t0, inputs).stats;
    && st.total == Tally(drop, t0, inputs, (fate: Fate, f: Frame) => true)
    && st.messages == Tally(drop, t0, inputs, InMode(Messages))
    && st.updates == Tally(drop, t0, inputs, InMode(Updates))
    && st.custom == Tally(drop, t0, inputs, InMode(Custom))
    && st.filteredEarly == Tally(drop, t0, inputs, WithFate(Filtered))
    && st.skipped == Tally(drop, t0, inputs, WithFate(Refused))
    && st.postIdleDrained == Tally(drop, t0, inputs, WithFate(Drained))
    && st.toolCalls == Tally(drop, t0, inputs, UsingTool(ToolCall))
    && st.toolResults == Tally(drop, t0, inputs, UsingTool(ToolResult))
    && st.textChunks == Tally(drop, t0, inputs, IsText())
  }

  lemma {:induction false} CountersAreExact(drop: EarlyDrop, loopId: string, inputs: seq<Input>)
    ensures CountersExact(drop, Begin(loopId), inputs)
  {
    if inputs != [] {
      var init, last := inputs[..|inputs| - 1], inputs[|inputs| - 1];
      CountersAreExact(drop, loopId, init);
      StepCounts(drop, Run(drop, Begin(loopId), init), last);
    }
  }
}
