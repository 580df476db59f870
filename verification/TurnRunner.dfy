/** The pooled runner's event loop (src/appkit/turn_runner.rs). Durations and instants are in
    milliseconds. */
module TurnRunner {
  import opened Options
  import opened Text
  import opened JsonValues
  import opened Frames
  import opened TurnBoundary
  import opened Classifier

  datatype TimeoutPolicy = Fail | SoftComplete

  datatype TurnConfig = TurnConfig(
    queryTimeout: nat,
    idleTimeout: nat,
    minIdleTimeoutWithAttachments: nat,
    onIdleTimeout: TimeoutPolicy,
    onQueryTimeout: TimeoutPolicy,
    onStreamClose: TimeoutPolicy)

  function IdleTimeoutForTurn(cfg: TurnConfig, hasAttachments: bool): nat {
    if cfg.idleTimeout == 0 then 0
    else if hasAttachments && cfg.minIdleTimeoutWithAttachments != 0
            && cfg.idleTimeout < cfg.minIdleTimeoutWithAttachments then cfg.minIdleTimeoutWithAttachments
    else cfg.idleTimeout
  }

  /** Attachments can only lengthen the silence budget, never turn it on or off. */
  lemma AttachmentsRaiseTheFloor(cfg: TurnConfig)
    ensures var with, without := IdleTimeoutForTurn(cfg, true), IdleTimeoutForTurn(cfg, false);
            && without <= with
            && (with == 0 <==> without == 0)
            && (with != 0 ==> with >= cfg.minIdleTimeoutWithAttachments && with >= cfg.idleTimeout)
  {
  }

  /** What a bounded read of the event channel brings. `live` tells whether a closed channel still has a
      live forwarder and connection behind it. */
  datatype Recv = Message(wire: Json, frame: Frame) | TimedOut | Closed(live: bool) | StreamMissing

  /** One pass of the loop: the cancel flag and the clock at its top, then the read and the clock after. */
  datatype Tick = Tick(cancelled: bool, now: nat, recv: Recv, at: nat)

  datatype Record = Completed(content: string, completionEvent: string) | Failed(error: string)

  datatype Outcome = Succeeded(content: string) | FailedWith(error: string)

  /** What the surroundings of the loop fix: configuration, whether the message has attachments, when the
      turn was sent. `classify` stands for the event classifier. */
  datatype Setup = Setup(
    cfg: TurnConfig,
    hasAttachments: bool,
    startedAt: nat,
    classifier: Config,
    classify: (Json, string) -> EventResult)
  {
    function Idle(): nat {
      IdleTimeoutForTurn(cfg, hasAttachments)
    }

    function Deadline(): nat {
      startedAt + cfg.queryTimeout
    }
  }

  datatype State = State(
    armed: bool,
    lastEvent: nat,
    collected: string,
    boundary: Boundary,
    deltas: seq<string>,
    thinking: seq<string>,
    records: seq<Record>,
    outcome: Option<Outcome>)

  function Start(now: nat): State {
    State(false, now, "", FRESH, [], [], [], None)
  }

  /** How the preparations before the loop went: the channel may be gone, the send may be refused. */
  datatype Opening = Ready | NoStream(error: string) | SendRejected(error: string)

  function Open(now: nat, opening: Opening): State {
    match opening
    case Ready => Start(now)
    case NoStream(error) => FailTurn(Start(now), error)
    case SendRejected(error) => FailTurn(Start(now), error)
  }

  const STREAM_IS_MISSING := FailedWith("event stream missing")

  // ----- The loop as transitions -----

  predicate IsStatusRunningEvent(f: Frame) {
    f.body.Status? && f.body.loose == RunningState
  }

  predicate IsStaleTurnEndEvent(f: Frame) {
    (f.body.Status? && (f.body.loose == IdleState || f.body.loose == StoppedState)) || IsTurnEnd(f)
  }

  /** Events that postpone the idle timeout: assistant text, a thinking step, or the end of the query. */
  predicate AdvancesIdleClock(r: EventResult) {
    Trim(r.content) != "" || Trim(r.thinkingStep) != "" || r.terminal.DeliverableComplete? || r.terminal.FailedComplete?
  }

  function CompleteTurn(s: State, content: string, completionEvent: string): State {
    s.(records := s.records + [Completed(content, completionEvent)], outcome := Some(Succeeded(content)))
  }

  function FailTurn(s: State, error: string): State {
    s.(records := s.records + [Failed(error)], outcome := Some(FailedWith(error)))
  }

  function FinishTimeout(s: State, completionEvent: string, policy: TimeoutPolicy): State {
    if policy.SoftComplete? then CompleteTurn(s, s.collected, completionEvent) else FailTurn(s, completionEvent)
  }

  /** Accumulation: a chunk that starts with the text so far replaces it, any other is appended. */
  function Accumulate(collected: string, content: string): string {
    if collected <= content then content else collected + content
  }

  function DeltaOf(collected: string, content: string): string {
    if collected <= content then content[|collected|..] else content
  }

  function TakeContent(s: State, content: string): State {
    if content == "" then s
    else
      var delta := DeltaOf(s.collected, content);
      s.(collected := Accumulate(s.collected, content), deltas := s.deltas + if delta != "" then [delta] else [])
  }

  /** How the loop closes on a classified event, once its text is in. */
  function Conclude(setup: Setup, s: State, r: EventResult, ended: Option<string>): State {
    var final := ResolveFinal(setup.classifier, r, s.collected);
    if final.Some? && !IsDaemonTurnEndEvent(r.completionEvent) then
      CompleteTurn(s.(collected := final.value), final.value, r.completionEvent)
    else if ended.Some? then
      if Trim(s.collected) == "" then FailTurn(s, "turn ended (" + ended.value + ") with no assistant content")
      else CompleteTurn(s, s.collected, ended.value)
    else s
  }

  function TakeClock(s: State, r: EventResult, at: nat): State {
    if AdvancesIdleClock(r) then s.(lastEvent := at) else s
  }

  function TakeThought(s: State, r: EventResult): State {
    if Trim(r.thinkingStep) != "" then s.(thinking := s.thinking + [r.thinkingStep]) else s
  }

  function TakeEvent(setup: Setup, s: State, r: EventResult, ended: Option<string>, at: nat): State {
    var ticked := TakeClock(s, r, at);
    if r.terminal.FailedComplete? then FailTurn(ticked, if r.error.Some? then r.error.value else "process event failed")
    else Conclude(setup, TakeContent(TakeThought(ticked, r), r.content), r, ended)
  }

  function TakeMessage(setup: Setup, s: State, wire: Json, f: Frame, at: nat): State {
    if !s.armed && IsStaleTurnEndEvent(f) then s
    else if !s.armed && IsStatusRunningEvent(f) then
      s.(boundary := Feed(s.boundary, SignalOf(f)), armed := true, lastEvent := at)
    else
      var live := Arm(s, f, at);
      TakeEvent(setup, live, setup.classify(wire, s.collected), EndOf(live.boundary), at)
  }

  /** A message that is looked at: not a leftover skipped before arming, nor the status that arms. */
  predicate LooksAt(s: State, f: Frame) {
    s.armed || !(IsStaleTurnEndEvent(f) || IsStatusRunningEvent(f))
  }

  /** The state in which an event of the turn is looked at: armed, and the boundary fed. */
  function Arm(s: State, f: Frame, at: nat): State {
    s.(armed := true,
       lastEvent := if s.armed then s.lastEvent else at,
       boundary := Feed(s.boundary, SignalOf(f)))
  }

  /** The checks at the top of a pass all let it through. */
  predicate Continues(setup: Setup, s: State, tick: Tick) {
    && s.outcome.None?
    && !tick.cancelled
    && tick.now <= setup.Deadline()
    && !(s.armed && setup.Idle() != 0 && tick.now - s.lastEvent > setup.Idle())
  }

  function Step(setup: Setup, s: State, tick: Tick): State {
    if s.outcome.Some? then s
    else if tick.cancelled then FailTurn(s, "query cancelled")
    else if tick.now > setup.Deadline() then FinishTimeout(s, QUERY_TIMEOUT, setup.cfg.onQueryTimeout)
    else if s.armed && setup.Idle() != 0 && tick.now - s.lastEvent > setup.Idle() then
      FinishTimeout(s, IDLE_TIMEOUT, setup.cfg.onIdleTimeout)
    else
      match tick.recv
      case StreamMissing => s.(outcome := Some(STREAM_IS_MISSING))
      case TimedOut => s
      case Closed(live) =>
        if live then s
        else if setup.cfg.onStreamClose.SoftComplete? && Trim(s.collected) != "" then
          CompleteTurn(s, s.collected, STREAM_CLOSED)
        else FailTurn(s, "event stream closed")
      case Message(wire, f) => TakeMessage(setup, s, wire, f, tick.at)
  }

  function Run(setup: Setup, s0: State, ticks: seq<Tick>): State {
    if ticks == [] then s0
    else Step(setup, Run(setup, s0, ticks[..|ticks| - 1]), ticks[|ticks| - 1])
  }

  /** How long the loop is willing to wait in one read. */
  function Wait(setup: Setup, s: State, now: nat): (w: nat)
    ensures 1 <= w <= 500
  {
    if !s.armed || setup.Idle() == 0 then 500
    else
      var elapsed := if now >= s.lastEvent then now - s.lastEvent else 0;
      var left := if setup.Idle() >= elapsed then setup.Idle() - elapsed else 0;
      var capped := if left < 500 then left else 500;
      if capped > 1 then capped else 1
  }

  // ----- The loop -----

  function Prefix(env: nat -> Tick, n: nat): seq<Tick> {
    seq(n, i requires 0 <= i < n => env(i))
  }

  lemma PrefixNext(setup: Setup, s0: State, env: nat -> Tick, n: nat)
    ensures Run(setup, s0, Prefix(env, n + 1)) == Step(setup, Run(setup, s0, Prefix(env, n)), env(n))
  {
    assert Prefix(env, n + 1)[..n] == Prefix(env, n);
  }

  /** Messages are decoded as they come. */
  ghost predicate Decoded(env: nat -> Tick) {
    forall i: nat :: env(i).recv.Message? ==> env(i).recv.frame == Decode(env(i).recv.wire)
  }

  /** The clock never runs back, and a read that times out has taken as long as the loop was willing to wait. */
  ghost predicate WellTimed(setup: Setup, s0: State, env: nat -> Tick) {
    forall i: nat ::
      env(i).now <= env(i).at <= env(i + 1).now && Waited(setup, Run(setup, s0, Prefix(env, i)), env(i))
  }

  predicate Waited(setup: Setup, s: State, tick: Tick) {
    tick.recv.TimedOut? ==> tick.now + Wait(setup, s, tick.now) <= tick.at
  }

  /** From `horizon` on nothing arrives any more. */
  ghost predicate QuietAfter(env: nat -> Tick, horizon: nat) {
    forall i: nat :: horizon <= i ==> env(i).recv.TimedOut?
  }

  /** The runner's own variables beside the boundary object. */
  datatype Locals = Locals(
    armed: bool,
    lastEvent: nat,
    collected: string,
    deltas: seq<string>,
    thinking: seq<string>,
    records: seq<Record>,
    outcome: Option<Outcome>)

  ghost function View(v: Locals, b: Boundary): State {
    State(v.armed, v.lastEvent, v.collected, b, v.deltas, v.thinking, v.records, v.outcome)
  }

  method Complete(v: Locals, content: string, completionEvent: string, ghost b: Boundary) returns (w: Locals)
    ensures View(w, b) == CompleteTurn(View(v, b), content, completionEvent)
  {
    w := v.(records := v.records + [Completed(content, completionEvent)], outcome := Some(Succeeded(content)));
  }

  method FailWith(v: Locals, error: string, ghost b: Boundary) returns (w: Locals)
    ensures View(w, b) == FailTurn(View(v, b), error)
  {
    w := v.(records := v.records + [Failed(error)], outcome := Some(FailedWith(error)));
  }

  method Timeout(v: Locals, completionEvent: string, policy: TimeoutPolicy, ghost b: Boundary) returns (w: Locals)
    ensures View(w, b) == FinishTimeout(View(v, b), completionEvent, policy)
  {
    match policy
    case SoftComplete => w := Complete(v, v.collected, completionEvent, b);
    case Fail => w := FailWith(v, completionEvent, b);
  }

  method HandleContent(v: Locals, content: string, ghost b: Boundary) returns (w: Locals)
    ensures View(w, b) == TakeContent(View(v, b), content)
  {
    w := v;
    if content != "" {
      var delta;
      if w.collected <= content {
        delta := content[|w.collected|..];
        w := w.(collected := content);
      } else {
        delta := content;
        w := w.(collected := w.collected + content);
      }
      if delta != "" {
        w := w.(deltas := w.deltas + [delta]);
      }
    }
  }

  method HandleEnd(setup: Setup, v: Locals, r: EventResult, ended: Option<string>, ghost b: Boundary)
    returns (w: Locals)
    ensures View(w, b) == Conclude(setup, View(v, b), r, ended)
  {
    w := v;
    var final := ResolveFinal(setup.classifier, r, w.collected);
    if final.Some? && !IsDaemonTurnEndEvent(r.completionEvent) {
      w := w.(collected := final.value);
      w := Complete(w, w.collected, r.completionEvent, b);
    } else if ended.Some? {
      if Trim(w.collected) == "" {
        w := FailWith(w, "turn ended (" + ended.value + ") with no assistant content", b);
      } else {
        w := Complete(w, w.collected, ended.value, b);
      }
    }
  }

  method HandleEvent(setup: Setup, v: Locals, r: EventResult, ended: Option<string>, at: nat, ghost b: Boundary)
    returns (w: Locals)
    ensures View(w, b) == TakeEvent(setup, View(v, b), r, ended, at)
  {
    w := v;
    if AdvancesIdleClock(r) {
      w := w.(lastEvent := at);
    }
    if r.terminal.FailedComplete? {
      w := FailWith(w, if r.error.Some? then r.error.value else "process event failed", b);
      return;
    }
    if Trim(r.thinkingStep) != "" {
      w := w.(thinking := w.thinking + [r.thinkingStep]);
    }
    w := HandleContent(w, r.content, b);
    w := HandleEnd(setup, w, r, ended, b);
  }

  /** When the boundary has ended, the pass concludes the turn one way or another. */
  lemma EventClosesWithBoundary(setup: Setup, s: State, r: EventResult, ended: Option<string>, at: nat)
    requires s.outcome.None?
    ensures ended.Some? ==> TakeEvent(setup, s, r, ended, at).outcome.Some?
  {
  }

  /** An armed runner's event: feed the boundary, classify, act. */
  method HandleArmed(setup: Setup, v: Locals, boundary: TurnBoundary, wire: Json, f: Frame, at: nat)
    returns (w: Locals)
    requires f == Decode(wire) && !boundary.ended && v.armed && v.outcome.None?
    modifies boundary, boundary.gate
    ensures var live := View(v, Feed(old(boundary.View()), SignalOf(f)));
            View(w, boundary.View())
            == TakeEvent(setup, live, setup.classify(wire, v.collected), EndOf(live.boundary), at)
    ensures w.outcome.None? ==> !boundary.ended
  {
    EndingFeedConcludes(boundary.View(), SignalOf(f));
    var ended := boundary.FeedMessage(wire);
    var r := setup.classify(wire, v.collected);
    w := HandleEvent(setup, v, r, ended, at, boundary.View());
    EventClosesWithBoundary(setup, View(v, boundary.View()), r, ended, at);
  }

  method HandleMessage(setup: Setup, v: Locals, boundary: TurnBoundary, wire: Json, f: Frame, at: nat)
    returns (w: Locals)
    requires f == Decode(wire) && !boundary.ended && v.outcome.None?
    modifies boundary, boundary.gate
    ensures View(w, boundary.View()) == TakeMessage(setup, View(v, old(boundary.View())), wire, f, at)
    ensures w.outcome.None? ==> !boundary.ended
  {
    w := v;
    if !w.armed {
      if IsStaleTurnEndEvent(f) {
        return;
      }
      if IsStatusRunningEvent(f) {
        EndingFeedConcludes(boundary.View(), SignalOf(f));
        var _ := boundary.FeedMessage(wire);
        w := w.(armed := true, lastEvent := at);
        return;
      }
      w := w.(armed := true, lastEvent := at);
    }
    w := HandleArmed(setup, w, boundary, wire, f, at);
  }

  /** Feeding an open boundary either leaves it open or gives a published reason; `running` leaves it open. */
  lemma EndingFeedConcludes(b: Boundary, s: Signal)
    requires !b.ended
    ensures Feed(b, s).ended ==> EndOf(Feed(b, s)).Some?
    ensures s.Running? ==> !Feed(b, s).ended
  {
  }

  method HandleTick(setup: Setup, v: Locals, boundary: TurnBoundary, tick: Tick) returns (w: Locals)
    requires tick.recv.Message? ==> tick.recv.frame == Decode(tick.recv.wire)
    requires !boundary.ended && v.outcome.None?
    modifies boundary, boundary.gate
    ensures View(w, boundary.View()) == Step(setup, View(v, old(boundary.View())), tick)
    ensures w.outcome.None? ==> !boundary.ended
  {
    w := v;
    ghost var b := boundary.View();
    if tick.cancelled {
      w := FailWith(w, "query cancelled", b);
      return;
    }
    if tick.now > setup.Deadline() {
      w := Timeout(w, QUERY_TIMEOUT, setup.cfg.onQueryTimeout, b);
      return;
    }
    if w.armed && setup.Idle() != 0 && tick.now - w.lastEvent > setup.Idle() {
      w := Timeout(w, IDLE_TIMEOUT, setup.cfg.onIdleTimeout, b);
      return;
    }
    match tick.recv
    case StreamMissing =>
      w := w.(outcome := Some(STREAM_IS_MISSING));
    case TimedOut =>
    case Closed(live) =>
      if !live {
        if setup.cfg.onStreamClose.SoftComplete? && Trim(w.collected) != "" {
          w := Complete(w, w.collected, STREAM_CLOSED, b);
        } else {
          w := FailWith(w, "event stream closed", b);
        }
      }
    case Message(wire, f) =>
      w := HandleMessage(setup, w, boundary, wire, f, tick.at);
  }

  /** The first pass after which there is an outcome is the n-th. */
  ghost predicate StopsAt(setup: Setup, s0: State, env: nat -> Tick, n: nat) {
    && Run(setup, s0, Prefix(env, n)).outcome.Some?
    && forall m: nat :: m < n ==> Run(setup, s0, Prefix(env, m)).outcome.None?
  }

  /** Runs one turn to its end. Whatever arrives, and however much of it, the loop terminates: no pass comes
      after the first one (pass `late` at the latest) that finds the clock beyond the query deadline. */
  method RunTurn(setup: Setup, start: nat, opening: Opening, env: nat -> Tick, ghost late: nat)
    returns (outcome: Outcome, records: seq<Record>, deltas: seq<string>)
    requires Decoded(env) && env(late).now > setup.Deadline()
    ensures exists n: nat :: n <= late + 1 && StopsAt(setup, Open(start, opening), env, n) &&
              var s := Run(setup, Open(start, opening), Prefix(env, n));
              s.outcome == Some(outcome) && s.records == records && s.deltas == deltas
  {
    var v := Locals(false, start, "", [], [], [], None);
    if !opening.Ready? {
      v := FailWith(v, opening.error, FRESH);
    }
    var boundary := new TurnBoundary();
    ghost var s0 := Open(start, opening);
    var n: nat := 0;
    while v.outcome.None?
      invariant View(v, boundary.View()) == Run(setup, s0, Prefix(env, n))
      invariant fresh(boundary) && fresh(boundary.gate)
      invariant v.outcome.None? ==> !boundary.ended && n <= late
      invariant n <= late + 1
      invariant forall m: nat :: m < n ==> Run(setup, s0, Prefix(env, m)).outcome.None?
      decreases late + 1 - n
    {
      PrefixNext(setup, s0, env, n);
      LateDeadlineStops(setup, View(v, boundary.View()), env(n));
      v := HandleTick(setup, v, boundary, env(n));
      n := n + 1;
    }
    outcome, records, deltas := v.outcome.value, v.records, v.deltas;
    assert StopsAt(setup, s0, env, n);
  }

  /** A pass that starts after the deadline is the last one. */
  lemma LateDeadlineStops(setup: Setup, s: State, tick: Tick)
    requires s.outcome.None?
    ensures tick.now > setup.Deadline() ==> Step(setup, s, tick).outcome.Some?
  {
  }

  lemma WaitedMoves(setup: Setup, s: State, tick: Tick)
    requires Waited(setup, s, tick) && tick.recv.TimedOut?
    ensures tick.now + 1 <= tick.at
  {
  }

  lemma {:induction false} QuietClockAdvances(setup: Setup, s0: State, env: nat -> Tick, horizon: nat, m: nat)
    requires WellTimed(setup, s0, env) && QuietAfter(env, horizon)
    ensures env(horizon + m).now >= m
  {
    if m > 0 {
      QuietClockAdvances(setup, s0, env, horizon, m - 1);
      var i := horizon + m - 1;
      WaitedMoves(setup, Run(setup, s0, Prefix(env, i)), env(i));
    }
  }

  /** In particular a turn whose arrivals cease ends on its own, however the daemon leaves it: every read that
      brings nothing moves the clock towards the deadline. */
  lemma SilentTurnEnds(setup: Setup, start: nat, opening: Opening, env: nat -> Tick, horizon: nat)
    requires WellTimed(setup, Open(start, opening), env) && QuietAfter(env, horizon)
    ensures Run(setup, Open(start, opening), Prefix(env, horizon + setup.Deadline() + 2)).outcome.Some?
  {
    var s0, late := Open(start, opening), horizon + setup.Deadline() + 1;
    QuietClockAdvances(setup, s0, env, horizon, setup.Deadline() + 1);
    PrefixNext(setup, s0, env, late);
    if Run(setup, s0, Prefix(env, late)).outcome.None? {
      LateDeadlineStops(setup, Run(setup, s0, Prefix(env, late)), env(late));
    }
  }
}
