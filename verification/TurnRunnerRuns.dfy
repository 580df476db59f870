/** What the runner's loop does over whole runs. */
module TurnRunnerRuns {
  import opened Options
  import opened Text
  import opened JsonValues
  import opened Frames
  import opened TurnIds
  import opened TurnBoundary
  import opened TurnBoundaryRuns
  import opened Classifier
  import opened TurnRunner

  lemma RunNext(setup: Setup, s0: State, ticks: seq<Tick>, k: nat)
    requires k < |ticks|
    ensures Run(setup, s0, ticks[..k + 1]) == Step(setup, Run(setup, s0, ticks[..k]), ticks[k])
  {
    assert ticks[..k + 1][..k] == ticks[..k];
  }

  // ----- One outcome -----

  predicate MayBeBlank(completionEvent: string) {
    completionEvent == QUERY_TIMEOUT || completionEvent == IDLE_TIMEOUT
  }

  /** The caller's result and the one stored record say the same. */
  predicate OutcomeMatches(o: Outcome, r: Record) {
    match r
    case Completed(content, completionEvent) =>
      o == Succeeded(content) && (Trim(content) != "" || MayBeBlank(completionEvent))
    case Failed(error) => o == FailedWith(error)
  }

  predicate OneOutcome(s: State) {
    match s.outcome
    case None => s.records == []
    case Some(o) => (s.records == [] && o == STREAM_IS_MISSING) || (|s.records| == 1 && OutcomeMatches(o, s.records[0]))
  }

  lemma ConcludeHasOneOutcome(setup: Setup, s: State, r: EventResult, ended: Option<string>)
    requires s.outcome.None? && s.records == []
    ensures OneOutcome(Conclude(setup, s, r, ended))
    ensures Conclude(setup, s, r, ended).outcome.Some? ==> Conclude(setup, s, r, ended).records != []
  {
    ResolvedIsNotBlank(setup.classifier, r, s.collected);
  }

  lemma EventHasOneOutcome(setup: Setup, s: State, r: EventResult, ended: Option<string>, at: nat)
    requires s.outcome.None? && s.records == []
    ensures OneOutcome(TakeEvent(setup, s, r, ended, at))
    ensures TakeEvent(setup, s, r, ended, at).outcome.Some? ==> TakeEvent(setup, s, r, ended, at).records != []
  {
    if !r.terminal.FailedComplete? {
      ConcludeHasOneOutcome(setup, TakeContent(TakeThought(TakeClock(s, r, at), r), r.content), r, ended);
    }
  }

  lemma StepHasOneOutcome(setup: Setup, s: State, tick: Tick)
    requires OneOutcome(s)
    ensures var u := Step(setup, s, tick);
            && OneOutcome(u)
            && (s.outcome.None? && u.outcome.Some? && u.records == [] ==> tick.recv.StreamMissing?)
  {
    if Continues(setup, s, tick) && tick.recv.Message? {
      var live := Arm(s, tick.recv.frame, tick.at);
      EventHasOneOutcome(setup, live, setup.classify(tick.recv.wire, s.collected), EndOf(live.boundary), tick.at);
    } else if s.outcome.None? {
      OwnEndHasOneOutcome(setup, s, tick);
    }
  }

  lemma OwnEndHasOneOutcome(setup: Setup, s: State, tick: Tick)
    requires s.outcome.None? && s.records == []
    requires !(Continues(setup, s, tick) && tick.recv.Message?)
    ensures var u := Step(setup, s, tick);
            && OneOutcome(u)
            && (u.outcome.Some? && u.records == [] ==> tick.recv.StreamMissing?)
  {
  }

  /** Every run records at most one result, and the caller sees that result; a run that ends without a
      record is one whose event stream was found missing in mid-loop. A reply is blank only after a
      timeout that was told to complete softly. */
  lemma {:induction false} EveryTurnHasOneOutcome(setup: Setup, start: nat, opening: Opening, ticks: seq<Tick>)
    ensures var s := Run(setup, Open(start, opening), ticks);
            && OneOutcome(s)
            && (s.outcome.Some? && s.records == [] ==> exists i :: 0 <= i < |ticks| && ticks[i].recv.StreamMissing?)
  {
    if ticks != [] {
      var n := |ticks| - 1;
      EveryTurnHasOneOutcome(setup, start, opening, ticks[..n]);
      var s := Run(setup, Open(start, opening), ticks[..n]);
      StepHasOneOutcome(setup, s, ticks[n]);
      if s.outcome.Some? && s.records == [] {
        var i :| 0 <= i < n && ticks[..n][i].recv.StreamMissing?;
        assert ticks[i].recv.StreamMissing?;
      }
    }
  }

  // ----- Deltas -----

  function Concat(parts: seq<string>): string {
    if parts == [] then "" else Concat(parts[..|parts| - 1]) + parts[|parts| - 1]
  }

  lemma ConcatAppend(parts: seq<string>, p: string)
    ensures Concat(parts + [p]) == Concat(parts) + p
  {
    assert (parts + [p])[..|parts|] == parts;
  }

  /** The broadcast deltas spell the collected text; a completed turn delivers just that text, unless a
      deliverable event supplied the final wording. */
  predicate Spelled(setup: Setup, s: State) {
    match s.outcome
    case None => Concat(s.deltas) == s.collected
    case Some(Succeeded(content)) =>
      && |s.records| == 1 && s.records[0].Completed?
      && (content == Concat(s.deltas)
          || (IsDeliverableCompletionEvent(setup.classifier, s.records[0].completionEvent)
              && !IsDaemonTurnEndEvent(s.records[0].completionEvent)))
    case _ => true
  }

  lemma ContentIsSpelled(s: State, content: string)
    requires Concat(s.deltas) == s.collected
    ensures var u := TakeContent(s, content); Concat(u.deltas) == u.collected
  {
    if content != "" {
      var delta := DeltaOf(s.collected, content);
      ConcatAppend(s.deltas, delta);
      assert s.collected + delta == Accumulate(s.collected, content);
      assert s.deltas + [] == s.deltas;
    }
  }

  lemma CompleteIsSpelled(setup: Setup, s: State, content: string, completionEvent: string)
    requires s.records == [] && content == Concat(s.deltas)
    ensures Spelled(setup, CompleteTurn(s, content, completionEvent))
  {
  }

  lemma ConcludeIsSpelled(setup: Setup, s: State, r: EventResult, ended: Option<string>)
    requires s.outcome.None? && s.records == [] && Concat(s.deltas) == s.collected
    ensures Spelled(setup, Conclude(setup, s, r, ended))
  {
    if ended.Some? {
      CompleteIsSpelled(setup, s, s.collected, ended.value);
    }
  }

  lemma EventIsSpelled(setup: Setup, s: State, r: EventResult, ended: Option<string>, at: nat)
    requires s.outcome.None? && s.records == [] && Concat(s.deltas) == s.collected
    ensures Spelled(setup, TakeEvent(setup, s, r, ended, at))
  {
    if !r.terminal.FailedComplete? {
      var thought := TakeThought(TakeClock(s, r, at), r);
      ContentIsSpelled(thought, r.content);
      ConcludeIsSpelled(setup, TakeContent(thought, r.content), r, ended);
    }
  }

  lemma StepIsSpelled(setup: Setup, s: State, tick: Tick)
    requires OneOutcome(s) && Spelled(setup, s)
    ensures Spelled(setup, Step(setup, s, tick))
  {
    if s.outcome.None? {
      TimeoutIsSpelled(setup, s, QUERY_TIMEOUT, setup.cfg.onQueryTimeout);
      TimeoutIsSpelled(setup, s, IDLE_TIMEOUT, setup.cfg.onIdleTimeout);
      CompleteIsSpelled(setup, s, s.collected, STREAM_CLOSED);
    }
    if s.outcome.None? && tick.recv.Message? {
      MessageIsSpelled(setup, s, tick.recv.wire, tick.recv.frame, tick.at);
    }
  }

  lemma TimeoutIsSpelled(setup: Setup, s: State, completionEvent: string, policy: TimeoutPolicy)
    requires s.outcome.None? && s.records == [] && Concat(s.deltas) == s.collected
    ensures Spelled(setup, FinishTimeout(s, completionEvent, policy))
  {
    CompleteIsSpelled(setup, s, s.collected, completionEvent);
  }

  lemma MessageIsSpelled(setup: Setup, s: State, wire: Json, f: Frame, at: nat)
    requires s.outcome.None? && s.records == [] && Concat(s.deltas) == s.collected
    ensures Spelled(setup, TakeMessage(setup, s, wire, f, at))
  {
    if s.armed || !(IsStaleTurnEndEvent(f) || IsStatusRunningEvent(f)) {
      var live := Arm(s, f, at);
      EventIsSpelled(setup, live, setup.classify(wire, s.collected), EndOf(live.boundary), at);
    }
  }

  lemma {:induction false} DeltasSpellTheReply(setup: Setup, start: nat, opening: Opening, ticks: seq<Tick>)
    ensures Spelled(setup, Run(setup, Open(start, opening), ticks))
  {
    if ticks != [] {
      var n := |ticks| - 1;
      DeltasSpellTheReply(setup, start, opening, ticks[..n]);
      EveryTurnHasOneOutcome(setup, start, opening, ticks[..n]);
      StepIsSpelled(setup, Run(setup, Open(start, opening), ticks[..n]), ticks[n]);
    }
  }

  // ----- The idle clock -----

  /** Pass k restarts the idle clock: it arms the runner, or its event advances the clock. */
  predicate Marks(setup: Setup, s0: State, ticks: seq<Tick>, k: nat)
    requires k < |ticks|
  {
    var s := Run(setup, s0, ticks[..k]);
    Continues(setup, s, ticks[k]) && ticks[k].recv.Message? && RestartsClock(setup, s, ticks[k])
  }

  predicate RestartsClock(setup: Setup, s: State, tick: Tick)
    requires tick.recv.Message?
  {
    if s.armed then AdvancesIdleClock(setup.classify(tick.recv.wire, s.collected))
    else !IsStaleTurnEndEvent(tick.recv.frame)
  }

  lemma ConcludeKeepsRest(setup: Setup, s: State, r: EventResult, ended: Option<string>)
    ensures var u := Conclude(setup, s, r, ended);
            u.lastEvent == s.lastEvent && u.armed == s.armed && u.boundary == s.boundary
  {
  }

  lemma EventClock(setup: Setup, s: State, r: EventResult, ended: Option<string>, at: nat)
    ensures var u := TakeEvent(setup, s, r, ended, at);
            u.lastEvent == (if AdvancesIdleClock(r) then at else s.lastEvent) && u.armed == s.armed
  {
    if !r.terminal.FailedComplete? {
      var heard := TakeThought(TakeClock(s, r, at), r);
      ConcludeKeepsRest(setup, TakeContent(heard, r.content), r, ended);
    }
  }

  lemma StepClock(setup: Setup, s: State, tick: Tick)
    requires s.outcome.None?
    ensures var u := Step(setup, s, tick);
            if Continues(setup, s, tick) && tick.recv.Message? && RestartsClock(setup, s, tick)
            then u.armed && u.lastEvent == tick.at
            else u.armed == s.armed && u.lastEvent == s.lastEvent
  {
    if Continues(setup, s, tick) && tick.recv.Message? {
      var live := Arm(s, tick.recv.frame, tick.at);
      EventClock(setup, live, setup.classify(tick.recv.wire, s.collected), EndOf(live.boundary), tick.at);
    }
  }

  /** The last pass that restarted the clock. */
  ghost predicate LastMark(setup: Setup, s0: State, ticks: seq<Tick>, k: int) {
    && 0 <= k < |ticks|
    && Marks(setup, s0, ticks, k)
    && forall j :: k < j < |ticks| ==> !Marks(setup, s0, ticks, j)
  }

  /** The idle clock of an armed runner reads the last arming or advancing event, and nothing else ever
      moves it. */
  lemma {:induction false} ClockReadsLastMark(setup: Setup, start: nat, ticks: seq<Tick>)
    requires Run(setup, Start(start), ticks).outcome.None?
    ensures var s := Run(setup, Start(start), ticks);
            if s.armed then exists k :: LastMark(setup, Start(start), ticks, k) && s.lastEvent == ticks[k].at
            else s.lastEvent == start && forall j :: 0 <= j < |ticks| ==> !Marks(setup, Start(start), ticks, j)
  {
    if ticks != [] {
      var n := |ticks| - 1;
      var s0, prefix := Start(start), ticks[..n];
      var s := Run(setup, s0, prefix);
      ClockReadsLastMark(setup, start, prefix);
      StepClock(setup, s, ticks[n]);
      if Marks(setup, s0, ticks, n) {
        assert LastMark(setup, s0, ticks, n);
      } else if s.armed {
        var k :| LastMark(setup, s0, prefix, k) && s.lastEvent == prefix[k].at;
        LastMarkExtends(setup, s0, ticks, k);
      } else {
        forall j | 0 <= j < n ensures !Marks(setup, s0, ticks, j) {
          MarkOfPrefix(setup, s0, ticks, j);
        }
      }
    }
  }

  lemma MarkOfPrefix(setup: Setup, s0: State, ticks: seq<Tick>, k: nat)
    requires k < |ticks| - 1
    ensures Marks(setup, s0, ticks[..|ticks| - 1], k) == Marks(setup, s0, ticks, k)
  {
    assert ticks[..|ticks| - 1][..k] == ticks[..k];
  }

  lemma LastMarkExtends(setup: Setup, s0: State, ticks: seq<Tick>, k: int)
    requires ticks != [] && !Marks(setup, s0, ticks, |ticks| - 1)
    requires LastMark(setup, s0, ticks[..|ticks| - 1], k)
    ensures LastMark(setup, s0, ticks, k)
  {
    var n := |ticks| - 1;
    forall j | k <= j < n ensures Marks(setup, s0, ticks[..n], j) == Marks(setup, s0, ticks, j) {
      MarkOfPrefix(setup, s0, ticks, j);
    }
  }

  /** Noise cannot keep a turn alive: whenever an armed runner gets through another pass, some arming or
      advancing event lies at most the idle timeout behind, however many other events came since. */
  lemma SilenceIsBounded(setup: Setup, start: nat, ticks: seq<Tick>, tick: Tick)
    requires setup.Idle() != 0
    requires Run(setup, Start(start), ticks).armed
    requires Run(setup, Start(start), ticks + [tick]).outcome.None?
    ensures exists k :: LastMark(setup, Start(start), ticks, k) && tick.now - ticks[k].at <= setup.Idle()
  {
    var s := Run(setup, Start(start), ticks);
    assert (ticks + [tick])[..|ticks|] == ticks;
    assert s.outcome.None?;
    ClockReadsLastMark(setup, start, ticks);
  }

  /** A read never waits past the moment the silence budget is used up, give or take its last millisecond. */
  lemma WaitEndsWithTheBudget(setup: Setup, s: State, now: nat)
    requires s.armed && setup.Idle() != 0 && now >= s.lastEvent
    ensures 1 <= Wait(setup, s, now) <= 500
    ensures now + Wait(setup, s, now) <= s.lastEvent + setup.Idle() || Wait(setup, s, now) == 1
  {
  }

  // ----- Arming and leftovers -----

  function SignalAt(tick: Tick): Signal {
    if tick.recv.Message? then SignalOf(tick.recv.frame) else Neutral
  }

  function Received(ticks: seq<Tick>): seq<Signal> {
    seq(|ticks|, i requires 0 <= i < |ticks| => SignalAt(ticks[i]))
  }

  lemma StaleIsTerminal(f: Frame)
    ensures IsStaleTurnEndEvent(f) <==> IsTerminalSignal(SignalOf(f))
    ensures IsStatusRunningEvent(f) <==> SignalOf(f).Running?
  {
  }

  lemma EventKeepsBoundary(setup: Setup, s: State, r: EventResult, ended: Option<string>, at: nat)
    ensures TakeEvent(setup, s, r, ended, at).boundary == s.boundary
  {
    if !r.terminal.FailedComplete? {
      var heard := TakeThought(TakeClock(s, r, at), r);
      ConcludeKeepsRest(setup, TakeContent(heard, r.content), r, ended);
    }
  }

  lemma NeutralIsInert(b: Boundary)
    ensures Feed(b, Neutral) == b
  {
  }

  lemma TerminalIsInertBeforeRunning(b: Boundary, s: Signal)
    requires !b.ended && !b.gate.sawRunning && IsTerminalSignal(s)
    ensures Feed(b, s) == b
  {
  }

  lemma StepBoundary(setup: Setup, s: State, tick: Tick)
    requires Step(setup, s, tick).outcome.None?
    requires s.armed || (!s.boundary.ended && !s.boundary.gate.sawRunning)
    ensures var u := Step(setup, s, tick);
            && u.boundary == Feed(s.boundary, SignalAt(tick))
            && (u.armed || (!u.boundary.ended && !u.boundary.gate.sawRunning))
  {
    NeutralIsInert(s.boundary);
    if tick.recv.Message? {
      MessageBoundary(setup, s, tick.recv.wire, tick.recv.frame, tick.at);
    }
  }

  lemma MessageBoundary(setup: Setup, s: State, wire: Json, f: Frame, at: nat)
    requires s.armed || (!s.boundary.ended && !s.boundary.gate.sawRunning)
    ensures var u := TakeMessage(setup, s, wire, f, at);
            && u.boundary == Feed(s.boundary, SignalOf(f))
            && (u.armed || (!u.boundary.ended && !u.boundary.gate.sawRunning))
  {
    StaleIsTerminal(f);
    if !s.armed && IsStaleTurnEndEvent(f) {
      TerminalIsInertBeforeRunning(s.boundary, SignalOf(f));
    } else if s.armed || !IsStatusRunningEvent(f) {
      var live := Arm(s, f, at);
      var r, ended := setup.classify(wire, s.collected), EndOf(live.boundary);
      EventKeepsBoundary(setup, live, r, ended, at);
      EventClock(setup, live, r, ended, at);
    }
  }

  /** While a turn runs, its boundary is exactly the fold of everything received since the send: the
      leading terminals the runner skips before it is armed make no difference. */
  lemma {:induction false} BoundaryIsTheFold(setup: Setup, start: nat, ticks: seq<Tick>)
    requires Run(setup, Start(start), ticks).outcome.None?
    ensures var s := Run(setup, Start(start), ticks);
            && s.boundary == BoundaryRun(Received(ticks))
            && (s.armed || (!s.boundary.ended && !s.boundary.gate.sawRunning))
  {
    if ticks != [] {
      var n := |ticks| - 1;
      var s := Run(setup, Start(start), ticks[..n]);
      assert s.outcome.None?;
      BoundaryIsTheFold(setup, start, ticks[..n]);
      StepBoundary(setup, s, ticks[n]);
      assert Received(ticks)[..n] == Received(ticks[..n]);
    } else {
      assert Received(ticks) == [];
    }
  }

  // ----- An open boundary -----

  /** A live turn's boundary is always still open. */
  lemma {:induction false} LiveTurnIsOpen(setup: Setup, start: nat, ticks: seq<Tick>)
    requires Run(setup, Start(start), ticks).outcome.None?
    ensures !Run(setup, Start(start), ticks).boundary.ended
  {
    if ticks != [] {
      var n := |ticks| - 1;
      var s := Run(setup, Start(start), ticks[..n]);
      assert s.outcome.None?;
      LiveTurnIsOpen(setup, start, ticks[..n]);
      StepStaysOpen(setup, s, ticks[n]);
    }
  }

  lemma StepStaysOpen(setup: Setup, s: State, tick: Tick)
    requires s.outcome.None? && !s.boundary.ended && Step(setup, s, tick).outcome.None?
    ensures !Step(setup, s, tick).boundary.ended
  {
    if tick.recv.Message? {
      var f := tick.recv.frame;
      StaleIsTerminal(f);
      EndingFeedConcludes(s.boundary, SignalOf(f));
      if s.armed || !(IsStaleTurnEndEvent(f) || IsStatusRunningEvent(f)) {
        var live := Arm(s, f, tick.at);
        var r := setup.classify(tick.recv.wire, s.collected);
        EventKeepsBoundary(setup, live, r, EndOf(live.boundary), tick.at);
        EventClosesWithBoundary(setup, live, r, EndOf(live.boundary), tick.at);
      }
    }
  }
}
