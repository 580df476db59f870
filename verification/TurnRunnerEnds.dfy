/** Which passes end a pooled turn, and what leftovers of an earlier turn can do. */
module TurnRunnerEnds {
  import opened Options
  import opened Text
  import opened JsonValues
  import opened StreamTerminal
  import opened Frames
  import opened TurnIds
  import opened TurnBoundary
  import opened TurnBoundaryRuns
  import opened Classifier
  import opened TurnRunner
  import opened TurnRunnerRuns
  import opened TurnRunnerText
  import opened Samples

  // ----- One event -----

  /** The turn's text once the event's content is in. */
  function TextAfter(collected: string, r: EventResult): string {
    if r.content == "" then collected else Accumulate(collected, r.content)
  }

  /** The event alone ends a turn with this text: it reports a failure, or a deliverable reply that is not
      named like one of the boundary's own reasons. */
  predicate EndsByItself(cfg: Config, collected: string, r: EventResult) {
    || r.terminal.FailedComplete?
    || (ResolveFinal(cfg, r, TextAfter(collected, r)).Some? && !IsDaemonTurnEndEvent(r.completionEvent))
  }

  lemma EventEndsIff(setup: Setup, s: State, r: EventResult, ended: Option<string>, at: nat)
    requires s.outcome.None?
    ensures TakeEvent(setup, s, r, ended, at).outcome.Some?
        <==> EndsByItself(setup.classifier, s.collected, r) || ended.Some?
  {
  }

  /** The turn was completed for one of the boundary's own reasons. */
  predicate EndedByBoundary(s: State) {
    |s.records| == 1 && s.records[0].Completed? && IsDaemonTurnEndEvent(s.records[0].completionEvent)
  }

  lemma OwnReasonsAreNotTheBoundarys()
    ensures !IsDaemonTurnEndEvent(QUERY_TIMEOUT)
    ensures !IsDaemonTurnEndEvent(IDLE_TIMEOUT)
    ensures !IsDaemonTurnEndEvent(STREAM_CLOSED)
  {
    TrimFixed(QUERY_TIMEOUT);
    TrimFixed(IDLE_TIMEOUT);
    TrimFixed(STREAM_CLOSED);
    assert QUERY_TIMEOUT[0] == 'q' && IDLE_TIMEOUT[0] == 'i';
    assert STREAM_CLOSED[1] == 't' && TURN_END_IDLE[6] == '.' && STREAM_CLOSED[6] == '_';
    assert TURN_END_STOPPED[6] == '.' && TURN_END_STREAM_END[1] == 'o';
  }

  lemma OwnEndIsNotTheBoundarys(setup: Setup, s: State, tick: Tick)
    requires s.outcome.None? && s.records == []
    requires !(Continues(setup, s, tick) && tick.recv.Message?)
    ensures !EndedByBoundary(Step(setup, s, tick))
  {
    OwnReasonsAreNotTheBoundarys();
  }

  lemma PublishedReasons(reason: string)
    requires StaticReason(reason).Some?
    ensures IsDaemonTurnEndEvent(reason)
  {
    TrimFixed(reason);
  }

  lemma EventEndedByBoundaryIff(setup: Setup, s: State, r: EventResult, ended: Option<string>, at: nat)
    requires s.outcome.None? && s.records == []
    requires ended.Some? ==> StaticReason(ended.value).Some?
    ensures EndedByBoundary(TakeEvent(setup, s, r, ended, at))
        <==> ended.Some? && !EndsByItself(setup.classifier, s.collected, r) && Trim(TextAfter(s.collected, r)) != ""
  {
    if ended.Some? {
      PublishedReasons(ended.value);
    }
    if !r.terminal.FailedComplete? {
      var taken := TakeContent(TakeThought(TakeClock(s, r, at), r), r.content);
      assert taken.records == [] && taken.collected == TextAfter(s.collected, r);
      ConcludedByBoundaryIff(setup, taken, r, ended);
    }
  }

  lemma ConcludedByBoundaryIff(setup: Setup, s: State, r: EventResult, ended: Option<string>)
    requires s.outcome.None? && s.records == []
    requires ended.Some? ==> IsDaemonTurnEndEvent(ended.value)
    ensures var final := ResolveFinal(setup.classifier, r, s.collected);
            var resolved := final.Some? && !IsDaemonTurnEndEvent(r.completionEvent);
            EndedByBoundary(Conclude(setup, s, r, ended)) <==> ended.Some? && !resolved && Trim(s.collected) != ""
  {
  }

  // ----- One pass of a live turn -----

  /** The pass ends the turn before it reads anything, or because there is nothing to read from. */
  predicate Interrupted(setup: Setup, s: State, tick: Tick) {
    !Continues(setup, s, tick) || tick.recv.StreamMissing? || (tick.recv.Closed? && !tick.recv.live)
  }

  /** The pass brings a message that is looked at. */
  predicate Looks(setup: Setup, s: State, tick: Tick) {
    Continues(setup, s, tick) && tick.recv.Message? && LooksAt(s, tick.recv.frame)
  }

  lemma BoundaryEndsIff(setup: Setup, start: nat, ticks: seq<Tick>, s: Signal)
    requires Run(setup, Start(start), ticks).outcome.None?
    ensures Feed(Run(setup, Start(start), ticks).boundary, s).ended <==> Earns(Received(ticks), s)
    ensures EndOf(Feed(Run(setup, Start(start), ticks).boundary, s)).Some? <==> Earns(Received(ticks), s)
  {
    BoundaryIsTheFold(setup, start, ticks);
    LiveTurnIsOpen(setup, start, ticks);
    NextEndsIff(Received(ticks), s);
    EndingFeedConcludes(BoundaryRun(Received(ticks)), s);
  }

  /** Only terminals are earned, and those of an unarmed runner are not. */
  lemma EarnedIsLookedAt(setup: Setup, start: nat, ticks: seq<Tick>, f: Frame)
    requires Run(setup, Start(start), ticks).outcome.None? && Earns(Received(ticks), SignalOf(f))
    ensures Run(setup, Start(start), ticks).armed
  {
    BoundaryIsTheFold(setup, start, ticks);
    BoundaryEndsIff(setup, start, ticks, SignalOf(f));
    EndedGateRan(Run(setup, Start(start), ticks).boundary, SignalOf(f));
  }

  lemma EndedGateRan(b: Boundary, s: Signal)
    ensures !b.ended && Feed(b, s).ended ==> b.gate.sawRunning
  {
  }

  lemma StepEndsIff(setup: Setup, s: State, tick: Tick)
    requires s.outcome.None?
    ensures Step(setup, s, tick).outcome.Some? <==>
              || Interrupted(setup, s, tick)
              || (Looks(setup, s, tick)
                  && (EndsByItself(setup.classifier, s.collected, setup.classify(tick.recv.wire, s.collected))
                      || EndOf(Feed(s.boundary, SignalOf(tick.recv.frame))).Some?))
  {
    if Looks(setup, s, tick) {
      var live := Arm(s, tick.recv.frame, tick.at);
      EventEndsIff(setup, live, setup.classify(tick.recv.wire, s.collected), EndOf(live.boundary), tick.at);
    }
  }

  /** Exactly which passes end a live turn: one that is interrupted, or one that looks at a message which ends
      the turn by itself or is a terminal that everything received since the send has earned. */
  lemma TurnEndsIff(setup: Setup, start: nat, ticks: seq<Tick>, tick: Tick)
    requires Run(setup, Start(start), ticks).outcome.None?
    ensures var s := Run(setup, Start(start), ticks);
            Run(setup, Start(start), ticks + [tick]).outcome.Some? <==>
              || Interrupted(setup, s, tick)
              || (Looks(setup, s, tick)
                  && (EndsByItself(setup.classifier, s.collected, setup.classify(tick.recv.wire, s.collected))
                      || Earns(Received(ticks), SignalOf(tick.recv.frame))))
  {
    assert (ticks + [tick])[..|ticks|] == ticks;
    StepEndsIff(setup, Run(setup, Start(start), ticks), tick);
    if tick.recv.Message? {
      BoundaryEndsIff(setup, start, ticks, SignalOf(tick.recv.frame));
    }
  }

  lemma StepEndedByBoundaryIff(setup: Setup, s: State, tick: Tick)
    requires s.outcome.None? && s.records == []
    ensures EndedByBoundary(Step(setup, s, tick)) <==>
              && Looks(setup, s, tick)
              && EndOf(Feed(s.boundary, SignalOf(tick.recv.frame))).Some?
              && var r := setup.classify(tick.recv.wire, s.collected);
                 !EndsByItself(setup.classifier, s.collected, r) && Trim(TextAfter(s.collected, r)) != ""
  {
    if Looks(setup, s, tick) {
      var live := Arm(s, tick.recv.frame, tick.at);
      EventEndedByBoundaryIff(setup, live, setup.classify(tick.recv.wire, s.collected), EndOf(live.boundary), tick.at);
    } else if !(Continues(setup, s, tick) && tick.recv.Message?) {
      OwnEndIsNotTheBoundarys(setup, s, tick);
    }
  }

  /** A turn is completed by stream end, idle or stopped exactly when the pass brings a terminal which the
      frames since the send have earned (for stream end and idle: a `running` status bound its turn id and a
      separate frame made progress for it), the message does not end the turn by itself, and there is text. */
  lemma CompletedByBoundaryIff(setup: Setup, start: nat, ticks: seq<Tick>, tick: Tick)
    requires Run(setup, Start(start), ticks).outcome.None?
    ensures var s := Run(setup, Start(start), ticks);
            EndedByBoundary(Run(setup, Start(start), ticks + [tick])) <==>
              && Continues(setup, s, tick) && tick.recv.Message?
              && Earns(Received(ticks), SignalOf(tick.recv.frame))
              && var r := setup.classify(tick.recv.wire, s.collected);
                 !EndsByItself(setup.classifier, s.collected, r) && Trim(TextAfter(s.collected, r)) != ""
  {
    assert (ticks + [tick])[..|ticks|] == ticks;
    EveryTurnHasOneOutcome(setup, start, Ready, ticks);
    StepEndedByBoundaryIff(setup, Run(setup, Start(start), ticks), tick);
    if tick.recv.Message? {
      BoundaryEndsIff(setup, start, ticks, SignalOf(tick.recv.frame));
      if Earns(Received(ticks), SignalOf(tick.recv.frame)) {
        EarnedIsLookedAt(setup, start, ticks, tick.recv.frame);
      }
    }
  }

  // ----- Leftovers of an earlier turn -----

  lemma UnarmedStep(setup: Setup, s: State, tick: Tick)
    requires !Step(setup, s, tick).armed && Step(setup, s, tick).outcome.None?
    ensures !s.armed && Step(setup, s, tick) == s
  {
    StepClock(setup, s, tick);
  }

  /** Until it is armed, nothing has touched the runner. */
  lemma {:induction false} UnarmedIsFresh(setup: Setup, start: nat, ticks: seq<Tick>)
    requires var s := Run(setup, Start(start), ticks); !s.armed && s.outcome.None?
    ensures Run(setup, Start(start), ticks) == Start(start)
  {
    if ticks != [] {
      UnarmedStep(setup, Run(setup, Start(start), ticks[..|ticks| - 1]), ticks[|ticks| - 1]);
      UnarmedIsFresh(setup, start, ticks[..|ticks| - 1]);
    }
  }

  /** Exactly what a leftover can do as the first message of a new turn: it ends the turn on the spot if and
      only if it is neither a terminal nor a `running` status and ends a turn by itself, that is, it is an
      error or a deliverable reply. Skipping terminals does not stop those. */
  lemma FirstMessageEndsIff(setup: Setup, start: nat, ticks: seq<Tick>, tick: Tick)
    requires var s := Run(setup, Start(start), ticks); !s.armed && Continues(setup, s, tick)
    requires tick.recv.Message?
    ensures Run(setup, Start(start), ticks + [tick]).outcome.Some? <==>
              && !IsStaleTurnEndEvent(tick.recv.frame) && !IsStatusRunningEvent(tick.recv.frame)
              && EndsByItself(setup.classifier, "", setup.classify(tick.recv.wire, ""))
  {
    UnarmedIsFresh(setup, start, ticks);
    TurnEndsIff(setup, start, ticks, tick);
    if Earns(Received(ticks), SignalOf(tick.recv.frame)) {
      EarnedIsLookedAt(setup, start, ticks, tick.recv.frame);
    }
  }

  const REPLY_CONFIG := Config({"goal_completion"}, 8)

  /** The final answer of turn `id`. */
  function ReplyMessage(id: string): Json {
    TextMessage("ai", "old reply", "goal_completion", id)
  }

  lemma OldReplyIsDeliverable(id: string)
    ensures ClassifyWire(REPLY_CONFIG, ReplyMessage(id)) == DeliverAs("old reply", "goal_completion")
    ensures ResolveFinal(REPLY_CONFIG, DeliverAs("old reply", "goal_completion"), "old reply") == Some("old reply")
    ensures !IsDaemonTurnEndEvent(MESSAGE_PREFIX + "goal_completion")
  {
    TrimFixed("old reply");
    ClassifyReply(REPLY_CONFIG, "old reply", id);
    assert TrimEnd("goal_completion") == "goal_completion";
    PhaseEventIsDeliverable(REPLY_CONFIG, "goal_completion");
  }

  /** A deliverable first message delivers its own text. */
  lemma FirstReplySucceeds(setup: Setup, wire: Json, f: Frame, text: string)
    requires SignalOf(f).Progress?
    requires var r := setup.classify(wire, "");
             && !r.terminal.FailedComplete? && r.content == text != ""
             && ResolveFinal(setup.classifier, r, text) == Some(text) && !IsDaemonTurnEndEvent(r.completionEvent)
    ensures TakeMessage(setup, Start(0), wire, f, 0).outcome == Some(Succeeded(text))
  {
    var r, live := setup.classify(wire, ""), Arm(Start(0), f, 0);
    var heard := TakeThought(TakeClock(live, r, 0), r);
    assert heard.collected == "";
    assert TakeContent(heard, text).collected == text;
  }

  lemma OneStep(setup: Setup, s0: State, ticks: seq<Tick>)
    requires |ticks| == 1
    ensures Run(setup, s0, ticks) == Step(setup, s0, ticks[0])
  {
    assert ticks[..0] == [];
  }

  /** Leftovers do end turns: the final answer of an earlier turn, whatever turn id it carries, completes the
      new turn with the old text before the daemon has said `running`. */
  lemma LeftoverReplyEndsTheTurn(id: string)
    requires IsPlainId(id)
    ensures Run(SampleSetup(REPLY_CONFIG), Start(0), [Hear(ReplyMessage(id))]).outcome == Some(Succeeded("old reply"))
  {
    var setup, wire := SampleSetup(REPLY_CONFIG), ReplyMessage(id);
    OldReplyIsDeliverable(id);
    DecodeText("ai", "old reply", "goal_completion", id);
    FirstReplySucceeds(setup, wire, Decode(wire), "old reply");
    OneStep(setup, Start(0), [Hear(wire)]);
    MessageStep(setup, Start(0), wire, Decode(wire));
  }

  lemma MessageStep(setup: Setup, s: State, wire: Json, f: Frame)
    requires Continues(setup, s, Tick(false, 0, Message(wire, f), 0))
    ensures Step(setup, s, Tick(false, 0, Message(wire, f), 0)) == TakeMessage(setup, s, wire, f, 0)
  {
  }

  /** So does an error of an earlier turn. */
  lemma LeftoverErrorEndsTheTurn(id: string)
    requires IsPlainId(id)
    ensures Run(SampleSetup(REPLY_CONFIG), Start(0), [Hear(ErrorFrame("old failure", id))]).outcome
         == Some(FailedWith(EnvelopeError("old failure")))
  {
    var setup, wire := SampleSetup(REPLY_CONFIG), ErrorFrame("old failure", id);
    DecodeError("old failure", id);
    ClassifyError(REPLY_CONFIG, "old failure", id);
    OneStep(setup, Start(0), [Hear(wire)]);
    MessageStep(setup, Start(0), wire, Decode(wire));
    FirstErrorFails(setup, wire, Decode(wire), EnvelopeError("old failure"));
  }

  lemma FirstErrorFails(setup: Setup, wire: Json, f: Frame, error: string)
    requires f.body.Failure? && setup.classify(wire, "") == FailedResult(error)
    ensures TakeMessage(setup, Start(0), wire, f, 0).outcome == Some(FailedWith(error))
  {
  }

  /** What is left of an earlier turn: its `running` status, a chunk of text and its stream end. */
  function LeftoverTurn(id: string): seq<Json> {
    [StatusMessage("running", id), ChunkMessage("old text", id), StreamEndMessage(id)]
  }

  /** The runner once the leftover `running` has armed it. */
  function ArmedBy(id: string): State {
    Start(0).(armed := true, boundary := Boundary(Gate(true, false, Some(id), false), false, ""))
  }

  lemma OldRunningArms(setup: Setup, wire: Json, f: Frame, id: string)
    requires SignalOf(f) == Running(Some(id))
    ensures TakeMessage(setup, Start(0), wire, f, 0) == ArmedBy(id)
  {
    StaleIsTerminal(f);
  }

  /** A stream end of the bound turn completes an armed runner that has heard text. */
  lemma OldTurnEnds(setup: Setup, s: State, wire: Json, f: Frame, id: string)
    requires IsPlainId(id) && SignalOf(f) == TurnEnd(Some(id)) && setup.classify(wire, s.collected) == NOTHING
    requires s.outcome.None? && s.armed && Trim(s.collected) != ""
    requires s.boundary == Boundary(Gate(true, true, Some(id), false), false, "")
    ensures TakeMessage(setup, s, wire, f, 0).outcome == Some(Succeeded(s.collected))
  {
  }

  /** And so does a whole earlier turn: the runner does not know which turn id its own query got, so a leftover
      `running`, text and stream end complete the new turn. */
  lemma LeftoverTurnEndsTheTurn(id: string)
    requires IsPlainId(id)
    ensures var ticks := seq(3, i requires 0 <= i < 3 => Hear(LeftoverTurn(id)[i]));
            Run(SampleSetup(REPLY_CONFIG), Start(0), ticks).outcome == Some(Succeeded("old text"))
  {
    var setup, msgs := SampleSetup(REPLY_CONFIG), LeftoverTurn(id);
    var ticks := seq(3, i requires 0 <= i < 3 => Hear(LeftoverTurn(id)[i]));
    ThreeSteps(setup, Start(0), ticks);
    OldRunningStep(id);
    ChunkStep(REPLY_CONFIG, ArmedBy(id), "old text", id);
    OldEndStep(Step(setup, ArmedBy(id), Hear(msgs[1])), id);
  }

  lemma OldRunningStep(id: string)
    requires IsPlainId(id)
    ensures Step(SampleSetup(REPLY_CONFIG), Start(0), Hear(StatusMessage("running", id))) == ArmedBy(id)
  {
    var setup, wire := SampleSetup(REPLY_CONFIG), StatusMessage("running", id);
    DecodeRunning(id);
    OldRunningArms(setup, wire, Decode(wire), id);
    MessageStep(setup, Start(0), wire, Decode(wire));
  }

  lemma OldEndStep(s: State, id: string)
    requires IsPlainId(id) && s.outcome.None? && s.armed && s.collected == "old text"
    requires s.boundary == Boundary(Gate(true, true, Some(id), false), false, "")
    ensures Step(SampleSetup(REPLY_CONFIG), s, Hear(StreamEndMessage(id))).outcome == Some(Succeeded("old text"))
  {
    var setup, wire := SampleSetup(REPLY_CONFIG), StreamEndMessage(id);
    TrimFixed("old text");
    DecodeStreamEnd(id);
    ClassifyStreamEnd(REPLY_CONFIG, id);
    OldTurnEnds(setup, s, wire, Decode(wire), id);
    MessageStep(setup, s, wire, Decode(wire));
  }

  lemma ThreeSteps(setup: Setup, s0: State, ticks: seq<Tick>)
    requires |ticks| == 3
    ensures Run(setup, s0, ticks) == Step(setup, Step(setup, Step(setup, s0, ticks[0]), ticks[1]), ticks[2])
  {
    assert ticks[..3] == ticks && ticks[..0] == [];
    RunNext(setup, s0, ticks, 0);
    RunNext(setup, s0, ticks, 1);
    RunNext(setup, s0, ticks, 2);
  }
}
