/** Queue and boundary together: losing frames under pressure does not change which turn is bound. */
module Backpressure {
  import opened Options
  import opened Text
  import opened JsonValues
  import opened StreamTerminal
  import opened InboundPriority
  import opened Sequences
  import opened BoundedQueue
  import opened InboundQueue
  import opened Frames
  import opened TurnIds
  import opened TurnBoundary
  import opened TurnBoundaryRuns

  function SignalOfWire(msg: Json): Signal {
    SignalOf(Decode(msg))
  }

  function Signals(frames: seq<Json>): seq<Signal> {
    Mapped(SignalOfWire, frames)
  }

  /** Whether a turn is running, and under which id, after these frames. */
  function Binding(frames: seq<Json>): (bool, Option<string>) {
    var g := GateRun(Signals(frames));
    (g.sawRunning, g.expectedTurnId)
  }

  function BindStep(b: (bool, Option<string>), s: Signal): (bool, Option<string>) {
    if s.Running? then (true, if s.id.Some? then Bind(b.1, s.id.value) else b.1) else b
  }

  lemma BindingAppend(frames: seq<Json>, f: Json)
    ensures Binding(frames + [f]) == BindStep(Binding(frames), SignalOfWire(f))
  {
    var sigs := Signals(frames + [f]);
    assert sigs[..|sigs| - 1] == Signals(frames);
  }

  // ----- Frames a turn turns on -----

  /** Frames that can start, bind, end or fail a turn. */
  predicate IsTurnFrame(f: Json) {
    || Decode(f).body.Failure?
    || SignalOfWire(f).Running? || SignalOfWire(f).Stopped? || SignalOfWire(f).Idle? || SignalOfWire(f).TurnEnd?
  }

  lemma TurnEventIsCritical(f: Json)
    requires IsTurnEnd(Decode(f)) || Decode(f).body.Failure?
    ensures DropPriority(f) == CRITICAL
  {
    var inner := UnwrapNext(f);
    WrappingNeverDemotes(f);
    PriorityRange(f);
    if IsTurnEnd(Decode(f)) {
      KindIsExact(StrField(inner, "mode"), DataOf(inner));
      assert DropPriority(inner) == PriorityByType(inner, "event") == CRITICAL;
    } else {
      assert DropPriority(inner) == PriorityByType(inner, "error") == CRITICAL;
    }
  }

  /** All of them are critical to the queue, bare or wrapped, as long as states are in lower case. */
  lemma TurnFramesAreCritical(f: Json)
    requires LowerCaseStates(Decode(f)) && IsTurnFrame(f)
    ensures DropPriority(f) == CRITICAL
  {
    if Decode(f).body.Status? {
      assert Decode(f).body.exact != OtherState;
      assert IsKnownState(StrField(UnwrapNext(f), "state"));
      StatusIsCritical(f);
    } else {
      TurnEventIsCritical(f);
    }
  }

  lemma {:induction false} KeepNarrower<T>(narrow: T -> bool, wide: T -> bool, s: seq<T>)
    requires forall i :: 0 <= i < |s| && narrow(s[i]) ==> wide(s[i])
    ensures Keep(narrow, Keep(wide, s)) == Keep(narrow, s)
  {
    if s != [] {
      var init, last := s[..|s| - 1], s[|s| - 1];
      KeepNarrower(narrow, wide, init);
      if wide(last) {
        KeepAppend(narrow, Keep(wide, init), last);
      }
    }
  }

  lemma AllTurnFramesAreCritical(s: seq<Json>)
    requires forall i :: 0 <= i < |s| ==> LowerCaseStates(Decode(s[i]))
    ensures forall i :: 0 <= i < |s| && IsTurnFrame(s[i]) ==> IsCritical(s[i])
  {
    forall i | 0 <= i < |s| && IsTurnFrame(s[i]) ensures IsCritical(s[i]) {
      TurnFramesAreCritical(s[i]);
    }
  }

  /** As long as no critical frame is displaced, every frame that can start, bind, end or fail a turn comes
      through the queue, in order: backpressure costs text and progress only. Lost progress can still keep a
      terminal from ending its turn. */
  lemma TurnFramesSurvive(cap: nat, ops: seq<Op<Json>>)
    requires forall i :: 0 <= i < |ops| ==> KeepsFrames(ops[i])
    requires CriticalLosses(cap, ops) == 0
    requires var q := Run(FRAMES, Init(cap), ops);
             forall f :: f in q.arrivals ==> LowerCaseStates(Decode(f))
    ensures var q := Run(FRAMES, Init(cap), ops);
            Keep(IsTurnFrame, q.Kept()) == Keep(IsTurnFrame, q.arrivals)
  {
    var q := Run(FRAMES, Init(cap), ops);
    CriticalFramesSurviveIff(cap, ops);
    KeptIsSubsequence(FRAMES, cap, ops);
    SameCriticalFramesSameTurnFrames(q.Kept(), q.arrivals);
  }

  lemma SameCriticalFramesSameTurnFrames(kept: seq<Json>, arrivals: seq<Json>)
    requires IsSubsequence(kept, arrivals) && Keep(IsCritical, kept) == Keep(IsCritical, arrivals)
    requires forall f :: f in arrivals ==> LowerCaseStates(Decode(f))
    ensures Keep(IsTurnFrame, kept) == Keep(IsTurnFrame, arrivals)
  {
    SubsequenceMembers(kept, arrivals);
    AllTurnFramesAreCritical(kept);
    AllTurnFramesAreCritical(arrivals);
    KeepNarrower(IsTurnFrame, IsCritical, kept);
    KeepNarrower(IsTurnFrame, IsCritical, arrivals);
  }

  // ----- Peeling at turn start -----

  lemma TurnEndIsStale(f: Json)
    requires IsTurnEnd(Decode(f))
    ensures IsStale(f)
  {
    var inner := UnwrapNext(f);
    KindIsExact(StrField(inner, "mode"), DataOf(inner));
    TerminalEventIsStale(inner);
    WrappingKeepsStale(f);
  }

  lemma TerminalEventIsStale(event: Json)
    requires StrField(event, "type") == "event" && StrField(event, "mode") == "custom"
    requires IsTurnEndCustomData(DataOf(event))
    ensures IsStale(event)
  {
  }

  lemma WrappingKeepsStale(f: Json)
    requires IsStale(UnwrapNext(f))
    ensures IsStale(f)
  {
  }

  /** After the peel at turn start no leftover frame in the queue can pass for the end of the new turn's
      stream. */
  lemma PeelTakesLeftoverTerminals(q: Queue<Json>)
    ensures forall f :: f in Step(FRAMES, q, Peel).pending ==> !IsTurnEnd(Decode(f))
  {
    PeelIsIdempotent(FRAMES, q);
    forall f | f in Step(FRAMES, q, Peel).pending ensures !IsTurnEnd(Decode(f)) {
      if IsTurnEnd(Decode(f)) {
        TurnEndIsStale(f);
      }
    }
  }

  // ----- Binding under pressure -----

  /** Only critical frames can say that a turn runs. */
  lemma RunningIsCritical(f: Json)
    requires LowerCaseStates(Decode(f)) && SignalOfWire(f).Running?
    ensures IsCritical(f)
  {
    TurnFramesAreCritical(f);
  }

  lemma {:induction false} CriticalFramesDecideBinding(frames: seq<Json>)
    requires forall i :: 0 <= i < |frames| ==> LowerCaseStates(Decode(frames[i]))
    ensures Binding(Keep(IsCritical, frames)) == Binding(frames)
  {
    if frames != [] {
      var init, last := frames[..|frames| - 1], frames[|frames| - 1];
      assert frames == init + [last];
      CriticalFramesDecideBinding(init);
      KeepAppend(IsCritical, init, last);
      BindingAppend(init, last);
      BindingAppend(Keep(IsCritical, init), last);
      if SignalOfWire(last).Running? {
        RunningIsCritical(last);
      }
    }
  }

  /** With room for every important arrival, what the client hands out and still holds binds the same
      turn as everything that ever arrived, whatever was evicted in between. */
  lemma BackpressureKeepsBinding(cap: nat, ops: seq<Op<Json>>)
    requires forall i :: 0 <= i < |ops| ==> KeepsFrames(ops[i])
    requires HasRoom(FRAMES, Init(cap), ops)
    requires var q := Run(FRAMES, Init(cap), ops);
             forall f :: f in q.arrivals ==> LowerCaseStates(Decode(f))
    ensures var q := Run(FRAMES, Init(cap), ops); Binding(q.Kept()) == Binding(q.arrivals)
  {
    RoomPreventsOverruns(FRAMES, Init(cap), ops);
    HitsAreOverruns(FRAMES, IsCritical, Init(cap), ops);
    NoCriticalLossKeepsBinding(cap, ops);
  }

  /** The same from the queue's exact condition: no newcomer displaced a critical frame. */
  lemma NoCriticalLossKeepsBinding(cap: nat, ops: seq<Op<Json>>)
    requires forall i :: 0 <= i < |ops| ==> KeepsFrames(ops[i])
    requires CriticalLosses(cap, ops) == 0
    requires var q := Run(FRAMES, Init(cap), ops);
             forall f :: f in q.arrivals ==> LowerCaseStates(Decode(f))
    ensures var q := Run(FRAMES, Init(cap), ops); Binding(q.Kept()) == Binding(q.arrivals)
  {
    var q := Run(FRAMES, Init(cap), ops);
    CriticalFramesSurviveIff(cap, ops);
    KeptIsSubsequence(FRAMES, cap, ops);
    SameCriticalFramesBindAlike(q.Kept(), q.arrivals);
  }

  lemma SameCriticalFramesBindAlike(kept: seq<Json>, arrivals: seq<Json>)
    requires IsSubsequence(kept, arrivals) && Keep(IsCritical, kept) == Keep(IsCritical, arrivals)
    requires forall f :: f in arrivals ==> LowerCaseStates(Decode(f))
    ensures Binding(kept) == Binding(arrivals)
  {
    SubsequenceMembers(kept, arrivals);
    CriticalFramesDecideBinding(kept);
    CriticalFramesDecideBinding(arrivals);
  }

  lemma SubsequenceMembers(a: seq<Json>, b: seq<Json>)
    requires IsSubsequence(a, b)
    ensures forall i :: 0 <= i < |a| ==> a[i] in b
  {
    var idx :| Embeds(a, b, idx);
  }

  /** One overrun is enough to lose the turn: a queue of one that gives up `running` for `idle` leaves
      its reader with no running turn at all. */
  lemma OverrunCanUnbind()
    ensures exists running, idle ::
      var q := Run(FRAMES, Init(1), [Enqueue(running), Enqueue(idle)]);
      Binding(q.arrivals).0 && !Binding(q.Kept()).0
  {
    var running, idle := StatusFrame("running"), StatusFrame("idle");
    KnownStatusIsCritical("running");
    KnownStatusIsCritical("idle");
    LastImportantWins(FRAMES, running, idle);
    StatusFrameSignal("running");
    StatusFrameSignal("idle");
    BindingAppend([], running);
    BindingAppend([running], idle);
    BindingAppend([], idle);
    var q := Run(FRAMES, Init(1), [Enqueue(running), Enqueue(idle)]);
    assert q.arrivals == [] + [running] + [idle] && q.Kept() == [] + [idle];
    assert [] + [running] == [running];
    assert Signals([]) == [];
  }

  lemma StatusFrameSignal(state: string)
    requires state == "running" || state == "idle"
    ensures SignalOfWire(StatusFrame(state)).Running? <==> state == "running"
  {
    var f := StatusFrame(state);
    assert StrField(f, "type") == "status";
    assert UnwrapNext(f) == f;
    OneStateAtMost(state);
    assert Decode(f).body == Status(ExactState(state), ExactState(state));
  }
}
