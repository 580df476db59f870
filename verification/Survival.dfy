/** What is left of a turn when the queue loses frames: exactly when its binding and its end survive. */
module Survival {
  import opened Options
  import opened JsonValues
  import opened Sequences
  import opened BoundedQueue
  import opened InboundPriority
  import opened InboundQueue
  import opened Frames
  import opened TurnIds
  import opened TurnBoundary
  import opened TurnBoundaryRuns
  import opened Backpressure
  import opened MessagePayloads
  import opened Samples
  import opened Text

  // ----- Which frames are kept -----

  /** The elements at the marked places, in order. */
  function Masked<T>(s: seq<T>, mask: seq<bool>): (r: seq<T>)
    requires |mask| == |s|
    ensures |r| <= |s|
  {
    var n := |s| - 1;
    if s == [] then [] else Masked(s[..n], mask[..n]) + if mask[n] then [s[n]] else []
  }

  /** A subsequence is what some marking keeps. */
  lemma {:induction false} MarkSubsequence<T>(a: seq<T>, b: seq<T>) returns (mask: seq<bool>)
    requires IsSubsequence(a, b)
    ensures |mask| == |b| && Masked(b, mask) == a
    decreases |b|
  {
    if b == [] {
      SubsequenceIsShorter(a, b);
      return [];
    }
    var taken := LastTaken(a, b);
    if taken {
      mask := MarkSubsequence(a[..|a| - 1], b[..|b| - 1]);
    } else {
      mask := MarkSubsequence(a, b[..|b| - 1]);
    }
    MaskExtends(a, b, mask, taken);
    mask := mask + [taken];
  }

  lemma MaskExtends<T>(a: seq<T>, b: seq<T>, mask: seq<bool>, taken: bool)
    requires b != [] && |mask| == |b| - 1 && (taken ==> a != [] && a[|a| - 1] == b[|b| - 1])
    requires Masked(b[..|b| - 1], mask) == if taken then a[..|a| - 1] else a
    ensures Masked(b, mask + [taken]) == a
  {
    assert (mask + [taken])[..|b| - 1] == mask;
    if taken {
      assert a == a[..|a| - 1] + [b[|b| - 1]];
    } else {
      assert a + [] == a;
    }
  }

  lemma {:induction false} MaskedCounts<T>(p: T -> bool, s: seq<T>, mask: seq<bool>)
    requires |mask| == |s|
    ensures |Keep(p, Masked(s, mask))| <= |Keep(p, s)|
    ensures |Keep(p, Masked(s, mask))| == |Keep(p, s)| ==> forall i :: 0 <= i < |s| && p(s[i]) ==> mask[i]
  {
    if s != [] {
      var n := |s| - 1;
      MaskedCounts(p, s[..n], mask[..n]);
      var kept := Masked(s[..n], mask[..n]);
      if mask[n] {
        KeepAppend(p, kept, s[n]);
      } else {
        assert kept + [] == kept;
      }
      assert forall i :: 0 <= i < n ==> s[..n][i] == s[i] && mask[..n][i] == mask[i];
    }
  }

  lemma {:induction false} SignalsOfMasked(frames: seq<Json>, mask: seq<bool>)
    requires |mask| == |frames|
    ensures Signals(Masked(frames, mask)) == Masked(Signals(frames), mask)
  {
    if frames != [] {
      var n := |frames| - 1;
      SignalsOfMasked(frames[..n], mask[..n]);
      assert Signals(frames)[..n] == Signals(frames[..n]);
      SignalsAppend(Masked(frames[..n], mask[..n]), frames[n]);
    }
  }

  lemma SignalsAppend(frames: seq<Json>, f: Json)
    ensures Signals(frames + [f]) == Signals(frames) + [SignalOfWire(f)] && Signals(frames + []) == Signals(frames)
  {
    assert frames + [] == frames;
  }

  // ----- The end of the turn -----

  /** Signals that can start, bind or end a turn: all but progress. */
  predicate IsTurnSignal(s: Signal) {
    s.Running? || s.Stopped? || s.Idle? || s.TurnEnd?
  }

  predicate KeepsTurnSignals(trace: seq<Signal>, mask: seq<bool>) {
    |mask| == |trace| && forall i :: 0 <= i < |trace| && IsTurnSignal(trace[i]) ==> mask[i]
  }

  /** A kept progress frame that no later change of the bound turn has invalidated. */
  ghost predicate KeptProgress(trace: seq<Signal>, mask: seq<bool>, j: int) {
    ProgressSince(trace, j) && j < |mask| && mask[j]
  }

  /** One more signal: it is kept progress itself, or what was is still valid. */
  lemma KeptProgressNext(trace: seq<Signal>, mask: seq<bool>)
    requires trace != [] && |mask| == |trace|
    ensures var n := |trace| - 1;
            (exists j :: KeptProgress(trace, mask, j)) <==>
              || (trace[n].Progress? && mask[n])
              || (!SwitchesTurn(trace, n) && exists j :: KeptProgress(trace[..n], mask[..n], j))
  {
    var n := |trace| - 1;
    forall k | 0 <= k < n ensures SwitchesTurn(trace[..n], k) == SwitchesTurn(trace, k) {
      assert trace[..n][..k] == trace[..k] && trace[..n][..k + 1] == trace[..k + 1];
    }
    if trace[n].Progress? && mask[n] {
      assert KeptProgress(trace, mask, n);
    }
    if j :| KeptProgress(trace, mask, j) && j < n {
      assert !SwitchesTurn(trace, n);
      assert KeptProgress(trace[..n], mask[..n], j);
    }
    if j :| KeptProgress(trace[..n], mask[..n], j) && !SwitchesTurn(trace, n) {
      assert KeptProgress(trace, mask, j);
    }
  }

  /** Two gates that differ in progress alone stay so, whether or not the second gets the signal. */
  lemma ObserveAlike(all: Gate, kept: Gate, s: Signal, marked: bool)
    requires kept == all.(sawTurnProgress := kept.sawTurnProgress) && (IsTurnSignal(s) ==> marked)
    ensures var all', kept' := Observe(all, s), if marked then Observe(kept, s) else kept;
            && kept' == all'.(sawTurnProgress := kept'.sawTurnProgress)
            && (kept'.sawTurnProgress <==>
                  || (s.Progress? && marked)
                  || (kept.sawTurnProgress
                      && !(all.expectedTurnId.Some? && all'.expectedTurnId != all.expectedTurnId)))
  {
  }

  lemma MaskedLast(trace: seq<Signal>, mask: seq<bool>)
    requires trace != [] && |mask| == |trace|
    ensures var n := |trace| - 1;
            var kept := GateRun(Masked(trace[..n], mask[..n]));
            GateRun(Masked(trace, mask)) == if mask[n] then Observe(kept, trace[n]) else kept
  {
    var n := |trace| - 1;
    var kept := Masked(trace[..n], mask[..n]);
    if mask[n] {
      assert (kept + [trace[n]])[..|kept|] == kept;
    } else {
      assert kept + [] == kept;
    }
  }

  lemma SwitchesAtEnd(trace: seq<Signal>)
    requires trace != []
    ensures var n := |trace| - 1;
            SwitchesTurn(trace, n) <==> GateRun(trace[..n]).expectedTurnId.Some?
                                        && GateRun(trace).expectedTurnId != GateRun(trace[..n]).expectedTurnId
  {
    assert trace[..|trace| - 1 + 1] == trace;
  }

  /** The gate over the kept signals: running and bound as over all of them, with progress if some of it was
      kept. */
  lemma {:induction false} KeptGate(trace: seq<Signal>, mask: seq<bool>)
    requires KeepsTurnSignals(trace, mask)
    ensures var all, kept := GateRun(trace), GateRun(Masked(trace, mask));
            && kept == all.(sawTurnProgress := kept.sawTurnProgress)
            && (kept.sawTurnProgress <==> exists j :: KeptProgress(trace, mask, j))
  {
    if trace != [] {
      var n := |trace| - 1;
      KeptGate(trace[..n], mask[..n]);
      KeptProgressNext(trace, mask);
      MaskedLast(trace, mask);
      SwitchesAtEnd(trace);
      ObserveAlike(GateRun(trace[..n]), GateRun(Masked(trace[..n], mask[..n])), trace[n], mask[n]);
    }
  }

  /** What it takes for signal `s` to end the turn when of the signals before it only the marked ones got
      through: as `Earns`, but with kept progress. */
  ghost predicate EarnedByKept(before: seq<Signal>, mask: seq<bool>, s: Signal) {
    match s
    case Stopped(_) => Earns(before, s)
    case Idle(id) => RunsAs(before, id) && exists j :: KeptProgress(before, mask, j)
    case TurnEnd(id) => RunsAs(before, id) && exists j :: KeptProgress(before, mask, j)
    case _ => false
  }

  /** A `running` status was seen and the bound id is `id`. */
  ghost predicate RunsAs(before: seq<Signal>, id: Option<string>) {
    (exists i :: 0 <= i < |before| && before[i].Running?) && TurnIdsMatch(BindAll(RunningIds(before)), id)
  }

  lemma KeptEarns(before: seq<Signal>, mask: seq<bool>, s: Signal)
    requires KeepsTurnSignals(before, mask)
    ensures Earns(Masked(before, mask), s) <==> EarnedByKept(before, mask, s)
  {
    var kept := Masked(before, mask);
    KeptGate(before, mask);
    GateBindsRunningIds(before);
    GateSeesRunning(before);
    GateBindsRunningIds(kept);
    GateSeesRunning(kept);
    match s
    case TurnEnd(id) => ProgressClosedForm(kept);
    case Idle(id) => ProgressClosedForm(kept);
    case Stopped(_) =>
      BoundIdClosedForm(RunningIds(before));
      BoundIdClosedForm(RunningIds(kept));
    case _ =>
  }

  ghost predicate EndsByKept(trace: seq<Signal>, mask: seq<bool>, k: int) {
    0 <= k < |trace| && k < |mask| && EarnedByKept(trace[..k], mask[..k], trace[k])
  }

  /** Some terminal is earned with progress that was kept. */
  ghost predicate SomeEnds(trace: seq<Signal>, mask: seq<bool>) {
    exists k :: EndsByKept(trace, mask, k)
  }

  lemma SomeEndsNext(trace: seq<Signal>, mask: seq<bool>)
    requires trace != [] && |mask| == |trace|
    ensures var n := |trace| - 1;
            SomeEnds(trace, mask) <==> SomeEnds(trace[..n], mask[..n]) || EndsByKept(trace, mask, n)
  {
    var n := |trace| - 1;
    if SomeEnds(trace[..n], mask[..n]) {
      var k :| EndsByKept(trace[..n], mask[..n], k);
      StillEnds(trace, mask, n, k);
    } else if SomeEnds(trace, mask) {
      var k :| EndsByKept(trace, mask, k);
      if k < n {
        EndedBefore(trace, mask, n, k);
      }
    }
  }

  lemma StillEnds(trace: seq<Signal>, mask: seq<bool>, n: nat, k: int)
    requires n <= |trace| && |mask| == |trace| && EndsByKept(trace[..n], mask[..n], k)
    ensures SomeEnds(trace, mask)
  {
    EndsOnPrefix(trace, mask, n, k);
  }

  lemma EndedBefore(trace: seq<Signal>, mask: seq<bool>, n: nat, k: int)
    requires k < n <= |trace| && |mask| == |trace| && EndsByKept(trace, mask, k)
    ensures SomeEnds(trace[..n], mask[..n])
  {
    EndsOnPrefix(trace, mask, n, k);
  }

  /** As long as only progress is lost, the turn still ends exactly when some terminal has been earned with a
      kept progress frame since the bound id last changed (a `stopped` status needs none). */
  lemma {:induction false} EndSurvivesIff(trace: seq<Signal>, mask: seq<bool>)
    requires KeepsTurnSignals(trace, mask)
    ensures BoundaryRun(Masked(trace, mask)).ended <==> SomeEnds(trace, mask)
  {
    if trace != [] {
      var n := |trace| - 1;
      EndSurvivesIff(trace[..n], mask[..n]);
      LastEnds(trace, mask);
      SomeEndsNext(trace, mask);
    }
  }

  lemma EndsOnPrefix(trace: seq<Signal>, mask: seq<bool>, n: nat, k: int)
    requires k < n <= |trace| && |mask| == |trace|
    ensures EndsByKept(trace[..n], mask[..n], k) == EndsByKept(trace, mask, k)
  {
    if 0 <= k {
      assert trace[..n][..k] == trace[..k] && mask[..n][..k] == mask[..k];
    }
  }

  lemma LastEnds(trace: seq<Signal>, mask: seq<bool>)
    requires trace != [] && KeepsTurnSignals(trace, mask)
    ensures var n := |trace| - 1;
            BoundaryRun(Masked(trace, mask)).ended <==>
              BoundaryRun(Masked(trace[..n], mask[..n])).ended || EndsByKept(trace, mask, n)
  {
    var n := |trace| - 1;
    var kept := Masked(trace[..n], mask[..n]);
    if mask[n] {
      assert (kept + [trace[n]])[..|kept|] == kept;
      if BoundaryRun(kept).ended {
        assert Feed(BoundaryRun(kept), trace[n]).ended;
      } else {
        NextEndsIff(kept, trace[n]);
        KeptEarns(trace[..n], mask[..n], trace[n]);
      }
    } else {
      assert kept + [] == kept;
    }
  }

  // ----- Through the queue -----

  /** When no critical frame is displaced: whichever of the arrivals came through, what is handed out or still
      waiting ends the turn exactly when a terminal among the arrivals was earned with progress that came
      through. */
  lemma EndSurvivesTheQueueIff(cap: nat, ops: seq<Op<Json>>, mask: seq<bool>)
    requires forall i :: 0 <= i < |ops| ==> KeepsFrames(ops[i])
    requires CriticalLosses(cap, ops) == 0
    requires var q := Run(FRAMES, Init(cap), ops);
             && (forall f :: f in q.arrivals ==> LowerCaseStates(Decode(f)))
             && |mask| == |q.arrivals| && Masked(q.arrivals, mask) == q.Kept()
    ensures var q := Run(FRAMES, Init(cap), ops);
            BoundaryRun(Signals(q.Kept())).ended <==> SomeEnds(Signals(q.arrivals), mask)
  {
    var q := Run(FRAMES, Init(cap), ops);
    CriticalFramesSurviveIff(cap, ops);
    MaskedCounts(IsCritical, q.arrivals, mask);
    TurnSignalsAreKept(q.arrivals, mask);
    SignalsOfMasked(q.arrivals, mask);
    EndSurvivesIff(Signals(q.arrivals), mask);
  }

  lemma TurnSignalsAreKept(frames: seq<Json>, mask: seq<bool>)
    requires |mask| == |frames| && forall i :: 0 <= i < |frames| && IsCritical(frames[i]) ==> mask[i]
    requires forall f :: f in frames ==> LowerCaseStates(Decode(f))
    ensures KeepsTurnSignals(Signals(frames), mask)
  {
    forall i | 0 <= i < |frames| && IsTurnSignal(Signals(frames)[i]) ensures mask[i] {
      assert frames[i] in frames;
      assert IsTurnFrame(frames[i]);
      TurnFramesAreCritical(frames[i]);
    }
  }

  /** There always is such a marking. */
  lemma SomeMaskFits(cap: nat, ops: seq<Op<Json>>)
    ensures var q := Run(FRAMES, Init(cap), ops);
            exists mask: seq<bool> :: |mask| == |q.arrivals| && Masked(q.arrivals, mask) == q.Kept()
  {
    KeptIsSubsequence(FRAMES, cap, ops);
    var q := Run(FRAMES, Init(cap), ops);
    var mask := MarkSubsequence(q.Kept(), q.arrivals);
  }

  // ----- Progress lost, end lost -----

  lemma TextChunkIsNormal(text: string, id: string)
    ensures DropPriority(TextMessage("AIMessageChunk", text, "", id)) == NORMAL
  {
    var msg := TextMessage("AIMessageChunk", text, "", id);
    var item := ItemObject("AIMessageChunk", text, "");
    assert StrField(msg, "type") == "event" && StrField(msg, "mode") == "messages";
    assert DataOf(msg) == JArr([item]) && FirstObject(DataOf(msg)) == Some(item);
    assert StrField(item, "type") == "AIMessageChunk" && StrField(item, "phase") == "";
    NoDotNoStreamEnd();
  }

  lemma NoDotNoStreamEnd()
    ensures !Contains("AIMessageChunk", "stream.end")
  {
    assert "stream.end"[6] == '.';
    if Contains("AIMessageChunk", "stream.end") {
      ContainsChars("AIMessageChunk", "stream.end", 6);
    }
  }

  lemma {:induction false} ContainsChars(s: string, sub: string, i: nat)
    requires Contains(s, sub) && i < |sub|
    ensures sub[i] in s
  {
    if EndsWith(s, sub) {
      assert s[|s| - |sub| + i] == sub[i];
    } else {
      ContainsChars(s[..|s| - 1], sub, i);
    }
  }

  function ShortTurn(id: string): seq<Json> {
    [StatusMessage("running", id), TextMessage("AIMessageChunk", "text", "", id), StreamEndMessage(id)]
  }

  lemma ShortTurnSignals(id: string)
    requires IsPlainId(id)
    ensures Signals(ShortTurn(id)) == [Running(Some(id)), Signal.Progress, TurnEnd(Some(id))]
    ensures Signals([ShortTurn(id)[0], ShortTurn(id)[2]]) == [Running(Some(id)), TurnEnd(Some(id))]
  {
    DecodeRunning(id);
    DecodeText("AIMessageChunk", "text", "", id);
    DecodeStreamEnd(id);
    var msgs := ShortTurn(id);
    SignalsOfThree(msgs[0], msgs[1], msgs[2], Running(Some(id)), Signal.Progress, TurnEnd(Some(id)));
  }

  lemma SignalsOfThree(a: Json, b: Json, c: Json, first: Signal, second: Signal, third: Signal)
    requires SignalOfWire(a) == first && SignalOfWire(b) == second && SignalOfWire(c) == third
    ensures Signals([a, b, c]) == [first, second, third] && Signals([a, c]) == [first, third]
  {
    MappedThree(SignalOfWire, a, b, c);
  }

  lemma ShortTurnPriorities(id: string)
    requires IsPlainId(id)
    ensures IsCritical(ShortTurn(id)[0]) && !IsImportant(ShortTurn(id)[1]) && IsCritical(ShortTurn(id)[2])
  {
    DecodeRunning(id);
    TurnFramesAreCritical(StatusMessage("running", id));
    DecodeStreamEnd(id);
    TurnEventIsCritical(StreamEndMessage(id));
    TextChunkIsNormal("text", id);
  }

  lemma EndNeedsTheText(id: string)
    requires IsPlainId(id)
    ensures BoundaryRun([Running(Some(id)), Signal.Progress, TurnEnd(Some(id))]).ended
    ensures !BoundaryRun([Running(Some(id)), TurnEnd(Some(id))]).ended
  {
    var s0, s1, s2 := Running(Some(id)), Signal.Progress, TurnEnd(Some(id));
    var running := Boundary(Gate(true, false, Some(id), false), false, "");
    assert [s0, s1, s2][..2] == [s0, s1] && [s0, s1][..1] == [s0] && [s0, s2][..1] == [s0] && [s0][..0] == [];
    assert BoundaryRun([s0]) == Feed(FRESH, s0) == running;
    assert BoundaryRun([s0, s1]) == Feed(running, s1);
    assert BoundaryRun([s0, s1, s2]) == Feed(BoundaryRun([s0, s1]), s2);
    assert BoundaryRun([s0, s2]) == Feed(running, s2);
  }

  /** Losing progress can lose the end: through a queue of two, the stream end displaces the only text of its
      turn. No critical frame is lost, yet what comes through never ends the turn. */
  lemma LostTextLosesTheEnd(id: string)
    requires IsPlainId(id)
    ensures var ops := seq(3, i requires 0 <= i < 3 => Enqueue(ShortTurn(id)[i]));
            var q := Run(FRAMES, Init(2), ops);
            && q.arrivals == ShortTurn(id)
            && CriticalLosses(2, ops) == 0
            && BoundaryRun(Signals(q.arrivals)).ended
            && !BoundaryRun(Signals(q.Kept())).ended
  {
    var msgs := ShortTurn(id);
    var ops := seq(3, i requires 0 <= i < 3 => Enqueue(ShortTurn(id)[i]));
    assert ops == [Enqueue(msgs[0]), Enqueue(msgs[1]), Enqueue(msgs[2])];
    ShortTurnPriorities(id);
    LastDisplacesNormal(FRAMES, IsCritical, msgs[0], msgs[1], msgs[2]);
    ShortTurnSignals(id);
    EndNeedsTheText(id);
    assert [msgs[0], msgs[1], msgs[2]] == msgs;
  }

  // ----- The bound turn -----

  /** Place j holds the last of the kept ids of its generation, and it is `bound`. */
  predicate LastOfGeneration(gens: seq<Option<int>>, kept: seq<string>, bound: string, j: int)
    requires |gens| == |kept|
  {
    && 0 <= j < |kept|
    && kept[j] == bound
    && forall i :: j < i < |kept| ==> gens[i] != gens[j]
  }

  /** The id that all the ids bind is still what the kept ones bind: it is the last kept one of its generation,
      or, when it has none, the first kept one. */
  ghost predicate WinnerSurvives(kept: seq<string>, all: seq<string>) {
    match BindAll(all)
    case None => true
    case Some(bound) =>
      match Generation(bound)
      case Some(_) => exists j :: LastOfGeneration(Generations(Generation, kept), kept, bound, j)
      case None => kept != [] && kept[0] == bound
  }

  lemma BoundIdSurvivesIff(kept: seq<string>, all: seq<string>)
    requires forall i :: 0 <= i < |kept| ==> kept[i] in all
    ensures BindAll(kept) == BindAll(all) <==> WinnerSurvives(kept, all)
  {
    BoundIdClosedForm(kept);
    BoundIdClosedForm(all);
    assert kept == [] || kept[0] in all;
    if all != [] && kept != [] {
      var w :| WinsAt(Generations(Generation, all), w);
      KeptGenerations(kept, all, w);
      var k :| WinsAt(Generations(Generation, kept), k);
      if Generation(all[w]).Some? {
        HighestSurvives(Generation, kept, all[w], k);
      } else {
        assert WinsAt(Generations(Generation, kept), 0);
      }
    }
  }

  /** No kept id is of a higher generation than the winner, and none has one if the winner has none. */
  lemma KeptGenerations(kept: seq<string>, all: seq<string>, w: int)
    requires forall i :: 0 <= i < |kept| ==> kept[i] in all
    requires WinsAt(Generations(Generation, all), w)
    ensures forall i :: 0 <= i < |kept| && Generation(kept[i]).Some? ==>
              Generation(all[w]).Some? && Generation(kept[i]).value <= Generation(all[w]).value
  {
    forall i | 0 <= i < |kept| && Generation(kept[i]).Some?
      ensures Generation(all[w]).Some? && Generation(kept[i]).value <= Generation(all[w]).value
    {
      var j :| 0 <= j < |all| && all[j] == kept[i];
      assert Generations(Generation, all)[j] == Generation(kept[i]);
    }
  }

  lemma HighestSurvives(gen: string -> Option<int>, kept: seq<string>, bound: string, k: int)
    requires gen(bound).Some? && WinsAt(Generations(gen, kept), k)
    requires forall i :: 0 <= i < |kept| && gen(kept[i]).Some? ==> gen(kept[i]).value <= gen(bound).value
    ensures kept[k] == bound <==> exists j :: LastOfGeneration(Generations(gen, kept), kept, bound, j)
  {
    var gens := Generations(gen, kept);
    if kept[k] == bound {
      assert gens[k] == gen(bound);
      assert LastOfGeneration(gens, kept, bound, k);
    }
    if j :| LastOfGeneration(gens, kept, bound, j) {
      LastHighestWins(gens, j);
      OneWinner(gens, j, k);
    }
  }

  lemma LastHighestWins(gens: seq<Option<int>>, j: int)
    requires 0 <= j < |gens| && gens[j].Some?
    requires forall i :: 0 <= i < |gens| && gens[i].Some? ==> gens[i].value <= gens[j].value
    requires forall i :: j < i < |gens| ==> gens[i] != gens[j]
    ensures WinsAt(gens, j)
  {
  }

  lemma {:induction false} RunningIdsMembers(trace: seq<Signal>, id: string)
    ensures id in RunningIds(trace) <==> Running(Some(id)) in trace
  {
    if trace != [] {
      var n := |trace| - 1;
      RunningIdsMembers(trace[..n], id);
      assert trace == trace[..n] + [trace[n]];
    }
  }

  /** Exactly when the frames that came through bind the same turn as all arrivals, whatever was lost, peeled or
      cleared: a `running` status came through if there was one, and the bound id survives among their ids. */
  lemma BindingSurvivesTheQueueIff(cap: nat, ops: seq<Op<Json>>)
    ensures var q := Run(FRAMES, Init(cap), ops);
            var kept, all := Signals(q.Kept()), Signals(q.arrivals);
            Binding(q.Kept()) == Binding(q.arrivals) <==>
              && ((exists i :: 0 <= i < |kept| && kept[i].Running?)
                  <==> (exists i :: 0 <= i < |all| && all[i].Running?))
              && WinnerSurvives(RunningIds(kept), RunningIds(all))
  {
    var q := Run(FRAMES, Init(cap), ops);
    var kept, all := Signals(q.Kept()), Signals(q.arrivals);
    KeptIsSubsequence(FRAMES, cap, ops);
    SubsequenceMembers(q.Kept(), q.arrivals);
    KeptIdsAreIds(q.Kept(), q.arrivals);
    GateBindsRunningIds(kept);
    GateSeesRunning(kept);
    GateBindsRunningIds(all);
    GateSeesRunning(all);
    BoundIdSurvivesIff(RunningIds(kept), RunningIds(all));
  }

  lemma KeptIdsAreIds(kept: seq<Json>, all: seq<Json>)
    requires forall i :: 0 <= i < |kept| ==> kept[i] in all
    ensures var ids := RunningIds(Signals(kept));
            forall i :: 0 <= i < |ids| ==> ids[i] in RunningIds(Signals(all))
  {
    var ids := RunningIds(Signals(kept));
    forall i | 0 <= i < |ids| ensures ids[i] in RunningIds(Signals(all)) {
      RunningIdsMembers(Signals(kept), ids[i]);
      RunningIdsMembers(Signals(all), ids[i]);
      var j :| 0 <= j < |kept| && Signals(kept)[j] == Running(Some(ids[i]));
      var k :| 0 <= k < |all| && all[k] == kept[j];
      assert Signals(all)[k] == Running(Some(ids[i]));
    }
  }
}
