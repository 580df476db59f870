/** What each kind of pass makes of a pooled turn: the caller's result, the stored record, the text. */
module TurnRunnerResults {
  import opened Options
  import opened Text
  import opened JsonValues
  import opened Frames
  import opened TurnBoundary
  import opened TurnBoundaryRuns
  import opened Classifier
  import opened TurnRunner
  import opened TurnRunnerRuns
  import opened TurnRunnerEnds

  /** The silence budget: the configured one, raised to the floor when there are attachments; zero means none. */
  lemma IdleBudget(cfg: TurnConfig, hasAttachments: bool)
    ensures IdleTimeoutForTurn(cfg, hasAttachments)
         == if cfg.idleTimeout == 0 || !hasAttachments || cfg.minIdleTimeoutWithAttachments <= cfg.idleTimeout
            then cfg.idleTimeout else cfg.minIdleTimeoutWithAttachments
  {
  }

  /** A read waits half a second, or for what is left of the silence budget, or for a millisecond. */
  lemma WaitIsTheRest(setup: Setup, s: State, now: nat)
    requires now >= s.lastEvent
    ensures var w := Wait(setup, s, now);
            if !s.armed || setup.Idle() == 0 || now + 500 <= s.lastEvent + setup.Idle() then w == 500
            else if now < s.lastEvent + setup.Idle() then now + w == s.lastEvent + setup.Idle()
            else w == 1
  {
  }

  /** The turn ends with this result and this one record. */
  predicate Gives(u: State, outcome: Outcome, record: Record) {
    u.outcome == Some(outcome) && u.records == [record]
  }

  /** A timeout: completed with the text so far, blank or not, or failed, as the configuration says. */
  predicate GivesByPolicy(u: State, policy: TimeoutPolicy, collected: string, why: string) {
    match policy
    case SoftComplete => Gives(u, Succeeded(collected), Completed(collected, why))
    case Fail => Gives(u, FailedWith(why), Failed(why))
  }

  /** The budget of silence of an armed turn is used up. */
  predicate IsSilent(setup: Setup, s: State, tick: Tick) {
    var budget := IdleTimeoutForTurn(setup.cfg, setup.hasAttachments);
    s.armed && budget != 0 && tick.now - s.lastEvent > budget
  }

  /** What ends a live turn without a message, in the order of the checks: a cancel, the query deadline, the
      silence budget, a stream that is missing, a channel closed for good. */
  lemma InterruptedResult(setup: Setup, start: nat, ticks: seq<Tick>, tick: Tick)
    requires Run(setup, Start(start), ticks).outcome.None?
    ensures var s, u := Run(setup, Start(start), ticks), Run(setup, Start(start), ticks + [tick]);
            if tick.cancelled then Gives(u, FailedWith("query cancelled"), Failed("query cancelled"))
            else if tick.now > setup.startedAt + setup.cfg.queryTimeout then
              GivesByPolicy(u, setup.cfg.onQueryTimeout, s.collected, "query_timeout")
            else if IsSilent(setup, s, tick) then
              GivesByPolicy(u, setup.cfg.onIdleTimeout, s.collected, "idle_timeout")
            else
              match tick.recv
              case StreamMissing => u == s.(outcome := Some(FailedWith("event stream missing")))
              case TimedOut => u == s
              case Closed(live) =>
                if live then u == s
                else if setup.cfg.onStreamClose == SoftComplete && Trim(s.collected) != "" then
                  Gives(u, Succeeded(s.collected), Completed(s.collected, "stream_closed"))
                else Gives(u, FailedWith("event stream closed"), Failed("event stream closed"))
              case Message(_, _) => true
  {
    assert (ticks + [tick])[..|ticks|] == ticks;
    EveryTurnHasOneOutcome(setup, start, Ready, ticks);
  }

  /** The reason a terminal signal gives. */
  function ReasonOf(s: Signal): string {
    match s
    case Stopped(_) => "status.stopped"
    case Idle(_) => "status.idle"
    case _ => "soothe.stream.end"
  }

  lemma EarnedReason(b: Boundary, s: Signal)
    requires !b.ended && Feed(b, s).ended
    ensures EndOf(Feed(b, s)) == Some(ReasonOf(s))
  {
  }

  /** What a message that is looked at makes of a live turn. An error, a deliverable reply, an earned terminal,
      in this order; anything else only adds its text and its thinking step. */
  lemma MessageResult(setup: Setup, start: nat, ticks: seq<Tick>, tick: Tick)
    requires Run(setup, Start(start), ticks).outcome.None?
    requires Looks(setup, Run(setup, Start(start), ticks), tick)
    ensures var s, u := Run(setup, Start(start), ticks), Run(setup, Start(start), ticks + [tick]);
            var r := setup.classify(tick.recv.wire, s.collected);
            var text, signal := TextAfter(s.collected, r), SignalOf(tick.recv.frame);
            var earned := if Earns(Received(ticks), signal) then Some(ReasonOf(signal)) else None;
            ResultOf(u, setup.classifier, s, r, text, earned)
  {
    var s := Run(setup, Start(start), ticks);
    assert (ticks + [tick])[..|ticks|] == ticks;
    EveryTurnHasOneOutcome(setup, start, Ready, ticks);
    LiveTurnIsOpen(setup, start, ticks);
    BoundaryEndsIff(setup, start, ticks, SignalOf(tick.recv.frame));
    if Earns(Received(ticks), SignalOf(tick.recv.frame)) {
      EarnedReason(s.boundary, SignalOf(tick.recv.frame));
    }
    var live := Arm(s, tick.recv.frame, tick.at);
    var r := setup.classify(tick.recv.wire, s.collected);
    EventResultOf(setup, live, r, EndOf(live.boundary), tick.at);
  }

  /** `earned` is the reason of an earned terminal. */
  predicate ResultOf(u: State, cfg: Config, s: State, r: EventResult, text: string, earned: Option<string>) {
    var final := ResolveFinal(cfg, r, text);
    if r.terminal.FailedComplete? then
      var error := if r.error.Some? then r.error.value else "process event failed";
      Gives(u, FailedWith(error), Failed(error))
    else if final.Some? && !IsDaemonTurnEndEvent(r.completionEvent) then
      Gives(u, Succeeded(final.value), Completed(final.value, r.completionEvent))
    else if earned.Some? && Trim(text) == "" then
      var error := "turn ended (" + earned.value + ") with no assistant content";
      Gives(u, FailedWith(error), Failed(error))
    else if earned.Some? then Gives(u, Succeeded(text), Completed(text, earned.value))
    else
      && u.outcome.None? && u.records == [] && u.armed
      && u.collected == text
      && u.thinking == s.thinking + if Trim(r.thinkingStep) != "" then [r.thinkingStep] else []
  }

  lemma EventResultOf(setup: Setup, s: State, r: EventResult, ended: Option<string>, at: nat)
    requires s.outcome.None? && s.records == [] && s.armed
    ensures ResultOf(TakeEvent(setup, s, r, ended, at), setup.classifier, s, r, TextAfter(s.collected, r), ended)
  {
    if !r.terminal.FailedComplete? {
      var taken := TakeContent(TakeThought(TakeClock(s, r, at), r), r.content);
      assert taken.records == [] && taken.collected == TextAfter(s.collected, r) && taken.armed && taken.outcome.None?;
      assert taken.thinking == s.thinking + if Trim(r.thinkingStep) != "" then [r.thinkingStep] else [];
      ConcludedResult(setup, taken, r, ended);
    }
  }

  lemma ConcludedResult(setup: Setup, s: State, r: EventResult, ended: Option<string>)
    requires s.outcome.None? && s.records == []
    ensures var u := Conclude(setup, s, r, ended);
            var final := ResolveFinal(setup.classifier, r, s.collected);
            if final.Some? && !IsDaemonTurnEndEvent(r.completionEvent) then
              Gives(u, Succeeded(final.value), Completed(final.value, r.completionEvent))
            else if ended.Some? && Trim(s.collected) == "" then
              var error := "turn ended (" + ended.value + ") with no assistant content";
              Gives(u, FailedWith(error), Failed(error))
            else if ended.Some? then Gives(u, Succeeded(s.collected), Completed(s.collected, ended.value))
            else u == s
  {
  }

  /** A message that is not looked at leaves the turn live: a leading terminal changes nothing, `running` arms. */
  lemma SkippedResult(setup: Setup, start: nat, ticks: seq<Tick>, tick: Tick)
    requires Run(setup, Start(start), ticks).outcome.None?
    requires Continues(setup, Run(setup, Start(start), ticks), tick) && tick.recv.Message?
    requires !LooksAt(Run(setup, Start(start), ticks), tick.recv.frame)
    ensures var s, u, f := Run(setup, Start(start), ticks), Run(setup, Start(start), ticks + [tick]), tick.recv.frame;
            if f.body.Status? && f.body.loose == RunningState then
              u == s.(armed := true, lastEvent := tick.at, boundary := Feed(s.boundary, Running(f.turnId)))
            else u == s
  {
    assert (ticks + [tick])[..|ticks|] == ticks;
  }

  /** What restarts the silence budget: a message that brings text, a thinking step, or an end of the query. */
  lemma WhatAdvancesTheClock(setup: Setup, start: nat, ticks: seq<Tick>, tick: Tick)
    requires Run(setup, Start(start), ticks).outcome.None? && Run(setup, Start(start), ticks).armed
    requires Looks(setup, Run(setup, Start(start), ticks), tick)
    ensures var s, u := Run(setup, Start(start), ticks), Run(setup, Start(start), ticks + [tick]);
            var r := setup.classify(tick.recv.wire, s.collected);
            u.lastEvent == if Trim(r.content) != "" || Trim(r.thinkingStep) != ""
                              || r.terminal == DeliverableComplete || r.terminal == FailedComplete
                           then tick.at else s.lastEvent
  {
    assert (ticks + [tick])[..|ticks|] == ticks;
    StepClock(setup, Run(setup, Start(start), ticks), tick);
  }

  /** A turn whose stream could not be opened or whose send was refused fails with that error, unread. */
  lemma {:induction false} OpeningFailureResult(setup: Setup, start: nat, opening: Opening, ticks: seq<Tick>)
    requires !opening.Ready?
    ensures Gives(Run(setup, Open(start, opening), ticks), FailedWith(opening.error), Failed(opening.error))
  {
    if ticks != [] {
      OpeningFailureResult(setup, start, opening, ticks[..|ticks| - 1]);
    }
  }
}
