/** What the turn boundary does over whole runs. */
module TurnBoundaryRuns {
  import opened Options
  import opened TurnIds
  import opened TurnBoundary

  /** Gate after a trace, fed to a fresh gate. */
  function GateRun(trace: seq<Signal>): Gate {
    if trace == [] then FRESH_GATE else Observe(GateRun(trace[..|trace| - 1]), trace[|trace| - 1])
  }

  /** Boundary after a trace, fed to a fresh boundary. */
  function BoundaryRun(trace: seq<Signal>): Boundary {
    if trace == [] then FRESH else Feed(BoundaryRun(trace[..|trace| - 1]), trace[|trace| - 1])
  }

  lemma GateRunStep(trace: seq<Signal>, k: nat)
    requires k < |trace|
    ensures GateRun(trace[..k + 1]) == Observe(GateRun(trace[..k]), trace[k])
  {
    assert trace[..k + 1][..k] == trace[..k];
  }

  // ----- Which turn is bound -----

  /** The ids of the `running` statuses, in order. */
  function RunningIds(trace: seq<Signal>): seq<string> {
    if trace == [] then []
    else
      var last := trace[|trace| - 1];
      RunningIds(trace[..|trace| - 1]) + if last.Running? && last.id.Some? then [last.id.value] else []
  }

  function BindAll(ids: seq<string>): Option<string> {
    if ids == [] then None else Bind(BindAll(ids[..|ids| - 1]), ids[|ids| - 1])
  }

  function Generation(id: string): Option<int> {
    match ParseTurnGeneration(Some(id))
    case None => None
    case Some(g) => Some(g)
  }

  function Generations(gen: string -> Option<int>, ids: seq<string>): seq<Option<int>> {
    seq(|ids|, i requires 0 <= i < |ids| => gen(ids[i]))
  }

  /** The place that wins among the generations: the last of the highest ones, or the very first place
      when none of the ids carries a generation. */
  ghost predicate WinsAt(gens: seq<Option<int>>, k: int) {
    && 0 <= k < |gens|
    && match gens[k]
       case Some(best) =>
         forall i :: 0 <= i < |gens| && gens[i].Some? ==>
           gens[i].value <= best && (k < i ==> gens[i].value < best)
       case None => k == 0 && forall i :: 0 <= i < |gens| ==> gens[i].None?
  }

  /** The bound id depends on the `running` statuses alone, and binding is folding over their ids. */
  lemma {:induction false} GateBindsRunningIds(trace: seq<Signal>)
    ensures GateRun(trace).expectedTurnId == BindAll(RunningIds(trace))
  {
    if trace != [] {
      var ids := RunningIds(trace[..|trace| - 1]);
      var last := trace[|trace| - 1];
      GateBindsRunningIds(trace[..|trace| - 1]);
      if last.Running? && last.id.Some? {
        assert (ids + [last.id.value])[..|ids|] == ids;
      } else {
        assert ids + [] == ids;
      }
    }
  }

  lemma {:induction false} GateSeesRunning(trace: seq<Signal>)
    ensures GateRun(trace).sawRunning <==> exists i :: 0 <= i < |trace| && trace[i].Running?
    ensures !GateRun(trace).cancellationSeen
  {
    if trace != [] {
      var n := |trace| - 1;
      var prefix := trace[..n];
      GateSeesRunning(prefix);
      assert forall i :: 0 <= i < n ==> prefix[i] == trace[i];
      if GateRun(prefix).sawRunning {
        var i :| 0 <= i < n && prefix[i].Running?;
        assert trace[i].Running?;
      }
    }
  }

  /** Closed form of the fold: there is exactly one winning place, and its id is the bound one. */
  lemma BoundIdClosedForm(ids: seq<string>)
    ensures ids == [] ==> BindAll(ids).None?
    ensures var gens := Generations(Generation, ids);
            && (ids != [] ==> exists k :: WinsAt(gens, k))
            && (forall k :: WinsAt(gens, k) ==> BindAll(ids) == Some(ids[k]))
            && (forall j, k :: WinsAt(gens, j) && WinsAt(gens, k) ==> j == k)
  {
    var gens := Generations(Generation, ids);
    if ids != [] {
      BindAllUsesGenerations(ids);
      BindAllWithPicksWinner(Generation, ids);
      var k := WinningPlace(gens);
      forall j | WinsAt(gens, j) ensures j == k {
        OneWinner(gens, j, k);
      }
    }
  }

  lemma OneWinner(gens: seq<Option<int>>, j: int, k: int)
    requires WinsAt(gens, j) && WinsAt(gens, k)
    ensures j == k
  {
  }

  predicate TakesOver(bound: Option<int>, candidate: Option<int>) {
    candidate.Some? && (bound.None? || candidate.value >= bound.value)
  }

  /** The winning place, found from the left. */
  function WinningPlace(gens: seq<Option<int>>): (k: nat)
    requires gens != []
    ensures k < |gens| && WinsAt(gens, k)
  {
    var n := |gens| - 1;
    if n == 0 then 0
    else
      var k := WinningPlace(gens[..n]);
      assert gens[..n][k] == gens[k];
      assert forall i :: 0 <= i < n ==> gens[..n][i] == gens[i];
      if TakesOver(gens[k], gens[n]) then n else k
  }

  /** Binding for any notion of generation. */
  function BindWith(gen: string -> Option<int>, bound: Option<string>, id: string): Option<string> {
    if bound.None? || TakesOver(gen(bound.value), gen(id)) then Some(id) else bound
  }

  function BindAllWith(gen: string -> Option<int>, ids: seq<string>): Option<string> {
    if ids == [] then None else BindWith(gen, BindAllWith(gen, ids[..|ids| - 1]), ids[|ids| - 1])
  }

  lemma {:induction false} BindAllWithPicksWinner(gen: string -> Option<int>, ids: seq<string>)
    requires ids != []
    ensures BindAllWith(gen, ids) == Some(ids[WinningPlace(Generations(gen, ids))])
  {
    var n := |ids| - 1;
    if n == 0 {
      assert BindAllWith(gen, ids[..0]).None?;
    } else {
      BindAllWithPicksWinner(gen, ids[..n]);
      assert Generations(gen, ids)[..n] == Generations(gen, ids[..n]);
    }
  }

  lemma {:induction false} BindAllUsesGenerations(ids: seq<string>)
    ensures BindAll(ids) == BindAllWith(Generation, ids)
  {
    if ids != [] {
      var init, last := ids[..|ids| - 1], ids[|ids| - 1];
      BindAllUsesGenerations(init);
      BindIsBindWith(BindAll(init), last);
    }
  }

  lemma BindIsBindWith(bound: Option<string>, id: string)
    ensures Bind(bound, id) == BindWith(Generation, bound, id)
  {
    if bound.Some? {
      BindByGeneration(bound.value, id);
    }
  }

  lemma BindByGeneration(bound: string, id: string)
    ensures Bind(Some(bound), id) == Some(if TakesOver(Generation(bound), Generation(id)) then id else bound)
  {
  }

  /** A bound generation is never replaced by an older one, nor by an id without a generation. */
  lemma {:induction false} GenerationNeverDecreases(trace: seq<Signal>, early: nat)
    requires early <= |trace|
    ensures var before, after := GateRun(trace[..early]).expectedTurnId, GateRun(trace).expectedTurnId;
            && (before.Some? ==> after.Some?)
            && (before.Some? && Generation(before.value).Some? ==>
                  Generation(after.value).Some?
                  && Generation(before.value).value <= Generation(after.value).value)
    decreases |trace|
  {
    if early == |trace| {
      assert trace[..early] == trace;
    } else {
      var n := |trace| - 1;
      assert trace[..n][..early] == trace[..early];
      GenerationNeverDecreases(trace[..n], early);
      ObserveKeepsGeneration(GateRun(trace[..n]), trace[n]);
    }
  }

  lemma ObserveKeepsGeneration(g: Gate, s: Signal)
    ensures var before, after := g.expectedTurnId, Observe(g, s).expectedTurnId;
            && (before.Some? ==> after.Some?)
            && (before.Some? && Generation(before.value).Some? ==>
                  Generation(after.value).Some?
                  && Generation(before.value).value <= Generation(after.value).value)
  {
    if s.Running? && s.id.Some? && g.expectedTurnId.Some? {
      BindByGeneration(g.expectedTurnId.value, s.id.value);
    }
  }

  // ----- Progress -----

  /** Frame k moves the gate from one turn id to another. */
  predicate SwitchesTurn(trace: seq<Signal>, k: nat)
    requires k < |trace|
  {
    var before := GateRun(trace[..k]).expectedTurnId;
    before.Some? && GateRun(trace[..k + 1]).expectedTurnId != before
  }

  /** A progress frame at j that no later frame of the trace has invalidated. */
  ghost predicate ProgressSince(trace: seq<Signal>, j: int) {
    && 0 <= j < |trace|
    && trace[j].Progress?
    && forall k :: j < k < |trace| ==> !SwitchesTurn(trace, k)
  }

  /** Progress is set exactly when a progress frame came in since the gate last switched turns. */
  lemma {:induction false} ProgressClosedForm(trace: seq<Signal>)
    ensures GateRun(trace).sawTurnProgress <==> exists j :: ProgressSince(trace, j)
  {
    if trace != [] {
      var n := |trace| - 1;
      var prefix := trace[..n];
      ProgressClosedForm(prefix);
      assert trace[..n + 1] == trace;
      forall k | 0 <= k < n ensures SwitchesTurn(prefix, k) == SwitchesTurn(trace, k) {
        assert prefix[..k] == trace[..k] && prefix[..k + 1] == trace[..k + 1];
      }
      if GateRun(trace).sawTurnProgress {
        if trace[n].Progress? {
          assert ProgressSince(trace, n);
        } else {
          var j :| ProgressSince(prefix, j);
          assert ProgressSince(trace, j);
        }
      }
      if j :| ProgressSince(trace, j) {
        if j < n {
          assert ProgressSince(prefix, j);
          assert !SwitchesTurn(trace, n);
        }
      }
    }
  }

  /** A mark at j that no later change of the bound turn has invalidated. */
  ghost predicate MarkedSince(trace: seq<Signal>, marks: seq<bool>, j: int)
    requires |marks| == |trace|
  {
    0 <= j < |trace| && marks[j] && forall k :: j < k < |trace| ==> !SwitchesTurn(trace, k)
  }

  ghost predicate SomeMark(trace: seq<Signal>, marks: seq<bool>)
    requires |marks| == |trace|
  {
    exists j :: MarkedSince(trace, marks, j)
  }

  lemma SwitchesOnPrefix(trace: seq<Signal>, n: nat, k: nat)
    requires k < n <= |trace|
    ensures SwitchesTurn(trace[..n], k) == SwitchesTurn(trace, k)
  {
    assert trace[..n][..k] == trace[..k] && trace[..n][..k + 1] == trace[..k + 1];
  }

  /** One more signal: it is marked itself, or some mark before it is still valid. */
  lemma SomeMarkNext(trace: seq<Signal>, marks: seq<bool>)
    requires |marks| == |trace| > 0
    ensures var n := |trace| - 1;
            SomeMark(trace, marks) <==> marks[n] || (SomeMark(trace[..n], marks[..n]) && !SwitchesTurn(trace, n))
  {
    var n := |trace| - 1;
    forall k | 0 <= k < n ensures SwitchesTurn(trace[..n], k) == SwitchesTurn(trace, k) {
      SwitchesOnPrefix(trace, n, k);
    }
    if marks[n] {
      assert MarkedSince(trace, marks, n);
    } else if SomeMark(trace, marks) {
      var j :| MarkedSince(trace, marks, j);
      assert MarkedSince(trace[..n], marks[..n], j);
    } else if SomeMark(trace[..n], marks[..n]) {
      var j :| MarkedSince(trace[..n], marks[..n], j);
      assert !SwitchesTurn(trace, n) ==> MarkedSince(trace, marks, j);
    }
  }

  // ----- When a turn ends -----

  /** Frame k would end a turn that had not ended before. */
  predicate EndsAt(trace: seq<Signal>, k: nat)
    requires k < |trace|
  {
    EndReason(GateRun(trace[..k + 1]), trace[k]).Some?
  }

  ghost predicate FirstEndAt(trace: seq<Signal>, k: int) {
    && 0 <= k < |trace|
    && EndsAt(trace, k)
    && forall j :: 0 <= j < k ==> !EndsAt(trace, j)
  }

  /** The boundary is the gate, frozen by the first frame that ends the turn. */
  lemma BoundaryRunClosedForm(trace: seq<Signal>)
    ensures BoundaryRun(trace).ended <==> exists k :: FirstEndAt(trace, k)
    ensures (forall k :: 0 <= k < |trace| ==> !EndsAt(trace, k)) ==>
              BoundaryRun(trace) == Boundary(GateRun(trace), false, "")
    ensures forall k :: FirstEndAt(trace, k) ==> BoundaryRun(trace) == FrozenAt(trace, k)
  {
    if k :| FirstEndAt(trace, k) {
      FrozenByFirstEnd(trace, k);
      forall j | FirstEndAt(trace, j) ensures j == k {
        OneFirstEnd(trace, j, k);
      }
    } else {
      NoEndBefore(trace);
      UnendedBoundaryIsTheGate(trace);
    }
  }

  /** The boundary left by a turn that ended at frame k. */
  function FrozenAt(trace: seq<Signal>, k: nat): Boundary
    requires k < |trace| && EndsAt(trace, k)
  {
    var g := GateRun(trace[..k + 1]);
    Boundary(g, true, EndReason(g, trace[k]).value)
  }

  lemma OneFirstEnd(trace: seq<Signal>, j: int, k: int)
    requires FirstEndAt(trace, j) && FirstEndAt(trace, k)
    ensures j == k
  {
  }

  lemma {:induction false} UnendedBoundaryIsTheGate(trace: seq<Signal>)
    requires forall k :: 0 <= k < |trace| ==> !EndsAt(trace, k)
    ensures BoundaryRun(trace) == Boundary(GateRun(trace), false, "")
  {
    if trace != [] {
      var n := |trace| - 1;
      forall k | 0 <= k < n ensures !EndsAt(trace[..n], k) {
        assert trace[..n][..k + 1] == trace[..k + 1];
        assert !EndsAt(trace, k);
      }
      UnendedBoundaryIsTheGate(trace[..n]);
      assert trace[..n + 1] == trace && !EndsAt(trace, n);
    }
  }

  lemma {:induction false} FrozenByFirstEnd(trace: seq<Signal>, k: int)
    requires FirstEndAt(trace, k)
    ensures BoundaryRun(trace) == FrozenAt(trace, k)
  {
    var n := |trace| - 1;
    var prefix := trace[..n];
    if k == n {
      forall j | 0 <= j < n ensures !EndsAt(prefix, j) {
        assert prefix[..j + 1] == trace[..j + 1];
        assert !EndsAt(trace, j);
      }
      UnendedBoundaryIsTheGate(prefix);
      assert trace[..n + 1] == trace;
    } else {
      forall j | 0 <= j <= k ensures EndsAt(prefix, j) == EndsAt(trace, j) {
        assert prefix[..j + 1] == trace[..j + 1];
      }
      FrozenByFirstEnd(prefix, k);
      assert prefix[..k + 1] == trace[..k + 1];
    }
  }

  /** Without a first end there is no end at all. */
  lemma {:induction false} NoEndBefore(trace: seq<Signal>)
    requires !exists k :: FirstEndAt(trace, k)
    ensures forall k :: 0 <= k < |trace| ==> !EndsAt(trace, k)
  {
    var n := 0;
    while n < |trace|
      invariant n <= |trace| && forall k :: 0 <= k < n ==> !EndsAt(trace, k)
    {
      assert !FirstEndAt(trace, n);
      n := n + 1;
    }
  }

  /** What it takes to end a turn by a terminal that names turn `id`: a `running` status was seen, the
      bound id (that of a `running` status) is `id`, and a separate frame made progress for it. */
  ghost predicate Earned(before: seq<Signal>, id: Option<string>) {
    && (exists i :: 0 <= i < |before| && before[i].Running?)
    && TurnIdsMatch(BindAll(RunningIds(before)), id)
    && (exists j :: ProgressSince(before, j))
  }

  lemma EarnedIsAllowed(before: seq<Signal>, id: Option<string>)
    ensures var g := GateRun(before);
            Earned(before, id)
            <==> IsTurnTerminalAllowed(g.expectedTurnId, id, g.sawRunning, g.sawTurnProgress)
  {
    GateBindsRunningIds(before);
    GateSeesRunning(before);
    ProgressClosedForm(before);
  }

  /** `stream.end` ends a turn exactly when the frames before it have earned it: the terminal frame
      itself never counts as its own progress. */
  lemma StreamEndIsGated(trace: seq<Signal>, k: nat)
    requires k < |trace| && trace[k].TurnEnd?
    ensures EndsAt(trace, k) <==> Earned(trace[..k], trace[k].id)
  {
    GateRunStep(trace, k);
    EarnedIsAllowed(trace[..k], trace[k].id);
  }

  /** `status=idle` ends a turn exactly under the same condition: on this path nobody notes a
      cancellation, so an idle status without a turn id never ends it. */
  lemma IdleIsGated(trace: seq<Signal>, k: nat)
    requires k < |trace| && trace[k].Idle?
    ensures EndsAt(trace, k) <==> Earned(trace[..k], trace[k].id)
  {
    GateRunStep(trace, k);
    EarnedIsAllowed(trace[..k], trace[k].id);
    var g := GateRun(trace[..k]);
    GateSeesRunning(trace[..k]);
    IdleGateWithoutCancel(g.expectedTurnId, trace[k].id, g.sawRunning, g.sawTurnProgress);
  }

  lemma IdleGateWithoutCancel(expected: Option<string>, id: Option<string>, started: bool, progress: bool)
    ensures IsIdleTerminalAllowed(expected, id, started, progress, false)
       <==> IsTurnTerminalAllowed(expected, id, started, progress)
  {
    NonBlankTwice(expected, id);
  }

  lemma NonBlankTwice(a: Option<string>, b: Option<string>)
    ensures TurnIdsMatch(NonBlank(a), NonBlank(b)) == TurnIdsMatch(a, b)
    ensures TurnIdsMatch(a, b) ==> NonBlank(a).Some? && NonBlank(b).Some?
  {
    NonBlankFixed(a);
    NonBlankFixed(b);
  }

  /** `status=stopped` ends a turn exactly when it runs and either no id is bound or the id matches. */
  lemma StoppedIsGated(trace: seq<Signal>, k: nat)
    requires k < |trace| && trace[k].Stopped?
    ensures EndsAt(trace, k) <==>
              && (exists i :: 0 <= i < k && trace[i].Running?)
              && (RunningIds(trace[..k]) == [] || TurnIdsMatch(BindAll(RunningIds(trace[..k])), trace[k].id))
  {
    GateRunStep(trace, k);
    GateBindsRunningIds(trace[..k]);
    GateSeesRunning(trace[..k]);
    BoundIdClosedForm(RunningIds(trace[..k]));
    assert forall i :: 0 <= i < k ==> trace[..k][i] == trace[i];
  }

  /** What it takes for a signal to end a turn after these signals. */
  ghost predicate Earns(before: seq<Signal>, s: Signal) {
    match s
    case TurnEnd(id) => Earned(before, id)
    case Idle(id) => Earned(before, id)
    case Stopped(id) =>
      && (exists i :: 0 <= i < |before| && before[i].Running?)
      && (RunningIds(before) == [] || TurnIdsMatch(BindAll(RunningIds(before)), id))
    case _ => false
  }

  lemma EndsAtIff(trace: seq<Signal>, k: nat)
    requires k < |trace|
    ensures EndsAt(trace, k) <==> Earns(trace[..k], trace[k])
  {
    assert forall i :: 0 <= i < k ==> trace[..k][i] == trace[i];
    match trace[k]
    case TurnEnd(_) => StreamEndIsGated(trace, k);
    case Idle(_) => IdleIsGated(trace, k);
    case Stopped(_) => StoppedIsGated(trace, k);
    case _ =>
  }

  /** The next signal closes an open boundary exactly when it has been earned. */
  lemma NextEndsIff(trace: seq<Signal>, s: Signal)
    requires !BoundaryRun(trace).ended
    ensures Feed(BoundaryRun(trace), s).ended <==> Earns(trace, s)
  {
    BoundaryRunClosedForm(trace);
    NoEndBefore(trace);
    var longer := trace + [s];
    assert longer[..|trace|] == trace && longer[..|trace| + 1] == longer;
    EndsAtIff(longer, |trace|);
    GateRunStep(longer, |trace|);
  }

  /** A terminal frame that names another turn than the bound one never ends the turn, whatever kind
      of terminal it is; nor does a `stopped` status that names none. */
  lemma ForeignTerminalNeverEnds(trace: seq<Signal>, k: nat)
    requires k < |trace| && (trace[k].TurnEnd? || trace[k].Idle? || trace[k].Stopped?)
    requires var bound := GateRun(trace[..k]).expectedTurnId; bound.Some? && !TurnIdsMatch(bound, trace[k].id)
    ensures !EndsAt(trace, k)
  {
    GateRunStep(trace, k);
    GateSeesRunning(trace[..k]);
    NonBlankTwice(GateRun(trace[..k]).expectedTurnId, trace[k].id);
  }

  /** Once a turn has ended nothing later changes the boundary, and the reason it reports is one of the
      three published ones. */
  lemma {:induction false} EndIsAbsorbing(trace: seq<Signal>, more: seq<Signal>)
    requires BoundaryRun(trace).ended
    ensures BoundaryRun(trace + more) == BoundaryRun(trace)
    ensures StaticReason(BoundaryRun(trace).reason) == Some(BoundaryRun(trace).reason)
  {
    if more == [] {
      assert trace + more == trace;
      BoundaryRunClosedForm(trace);
    } else {
      var n := |more| - 1;
      assert (trace + more)[..|trace| + n] == trace + more[..n];
      EndIsAbsorbing(trace, more[..n]);
    }
  }

  // ----- Leftovers of an earlier turn -----

  predicate IsTerminalSignal(s: Signal) {
    s.TurnEnd? || s.Idle? || s.Stopped?
  }

  /** Terminal frames before anything else leave a fresh boundary as it was, so skipping them (as the
      runner does before it is armed) and feeding them come to the same. */
  lemma {:induction false} LeadingTerminalsAreInert(leftovers: seq<Signal>)
    requires forall i :: 0 <= i < |leftovers| ==> IsTerminalSignal(leftovers[i])
    ensures BoundaryRun(leftovers) == FRESH
  {
    if leftovers != [] {
      LeadingTerminalsAreInert(leftovers[..|leftovers| - 1]);
    }
  }
}
