/** A bounded FIFO with priority eviction, over any kind of frame. `Policy` says which frames are
    important (never the preferred victim) and which are stale (peeled at turn start). */
module BoundedQueue {
  import opened Options
  import opened Sequences

  const U64_MODULUS: nat := 0x1_0000_0000_0000_0000

  datatype Policy<!T> = Policy(important: T -> bool, stale: T -> bool)

  /** The queue with the history of every frame that ever reached it. `dropped` is the u64 counter,
      `lost` the frames it counts, `removed` the frames peeled or cleared on purpose. */
  datatype Queue<T> = Queue(
    cap: nat,
    pending: seq<T>,
    dropped: nat,
    arrivals: seq<T>,
    delivered: seq<T>,
    lost: seq<T>,
    removed: seq<T>)
  {
    /** Everything that was handed out or still will be, in order. */
    function Kept(): seq<T> {
      delivered + pending
    }
  }

  datatype Op<T> = Enqueue(ev: T) | Read | Peel | Clear | SetCap(n: nat)

  function Init<T>(cap: nat): Queue<T> {
    Queue(cap, [], 0, [], [], [], [])
  }

  /** Place of the oldest frame that is not important, |pending| when there is none. */
  function FirstNormal<T>(pol: Policy<T>, pending: seq<T>): (k: nat)
    ensures k <= |pending|
    ensures k < |pending| ==> !pol.important(pending[k])
    ensures forall i :: 0 <= i < k ==> pol.important(pending[i])
  {
    var n := |pending| - 1;
    if pending == [] then 0
    else
      var k := FirstNormal(pol, pending[..n]);
      if k < n || !pol.important(pending[n]) then k else |pending|
  }

  /** Who is displaced when `ev` arrives: a place in the line `pending + [ev]`, nobody when there is
      room. The oldest frame that is not important goes first, the newcomer included; if all of them
      are important, the oldest goes. */
  function Victim<T>(pol: Policy<T>, q: Queue<T>, ev: T): (k: int)
    ensures -1 <= k <= |q.pending|
  {
    var k := FirstNormal(pol, q.pending);
    if |q.pending| < q.cap then -1
    else if k < |q.pending| then k
    else if !pol.important(ev) then |q.pending|
    else if q.pending != [] then 0
    else -1
  }

  function Admit<T>(pol: Policy<T>, q: Queue<T>, ev: T): Queue<T> {
    Displace(q, ev, Victim(pol, q, ev))
  }

  function Displace<T>(q: Queue<T>, ev: T, victim: int): Queue<T>
    requires -1 <= victim <= |q.pending|
  {
    var line := q.pending + [ev];
    var arrived := q.(arrivals := q.arrivals + [ev], pending := line);
    if victim == -1 then arrived
    else
      arrived.(pending := RemoveAt(line, victim),
               lost := q.lost + [line[victim]],
               dropped := (q.dropped + 1) % U64_MODULUS)
  }

  function Stays<T>(pol: Policy<T>): T -> bool {
    f => !pol.stale(f)
  }

  function Step<T>(pol: Policy<T>, q: Queue<T>, op: Op<T>): Queue<T> {
    match op
    case Enqueue(ev) => Admit(pol, q, ev)
    case Read =>
      if q.pending == [] then q
      else q.(pending := q.pending[1..], delivered := q.delivered + [q.pending[0]])
    case Peel =>
      q.(pending := Keep(Stays(pol), q.pending), removed := q.removed + Keep(pol.stale, q.pending))
    case Clear => q.(pending := [], removed := q.removed + q.pending)
    case SetCap(n) => if n > 0 then q.(cap := n) else q
  }

  function Run<T>(pol: Policy<T>, q: Queue<T>, ops: seq<Op<T>>): Queue<T> {
    if ops == [] then q else Step(pol, Run(pol, q, ops[..|ops| - 1]), ops[|ops| - 1])
  }

  // ----- Order -----

  /** What is kept is always, in order, part of what arrived. */
  lemma {:induction false} KeptIsSubsequence<T>(pol: Policy<T>, cap: nat, ops: seq<Op<T>>)
    ensures var q := Run(pol, Init(cap), ops); IsSubsequence(q.Kept(), q.arrivals)
  {
    if ops == [] {
      SubsequenceReflexive<T>([]);
      assert Init<T>(cap).Kept() == [];
    } else {
      KeptIsSubsequence(pol, cap, ops[..|ops| - 1]);
      StepKeepsOrder(pol, Run(pol, Init(cap), ops[..|ops| - 1]), ops[|ops| - 1]);
    }
  }

  lemma StepKeepsOrder<T>(pol: Policy<T>, q: Queue<T>, op: Op<T>)
    requires IsSubsequence(q.Kept(), q.arrivals)
    ensures var r := Step(pol, q, op); IsSubsequence(r.Kept(), r.arrivals)
  {
    if op.Enqueue? {
      AdmitKeepsOrder(pol, q, op.ev);
      SubsequenceReflexive([op.ev]);
      SubsequenceConcat(q.Kept(), q.arrivals, [op.ev], [op.ev]);
      SubsequenceTransitive(Step(pol, q, op).Kept(), q.Kept() + [op.ev], q.arrivals + [op.ev]);
    } else {
      OtherStepsKeepOrder(pol, q, op);
      SubsequenceTransitive(Step(pol, q, op).Kept(), q.Kept(), q.arrivals);
    }
  }

  lemma AdmitKeepsOrder<T>(pol: Policy<T>, q: Queue<T>, ev: T)
    ensures IsSubsequence(Admit(pol, q, ev).Kept(), q.Kept() + [ev])
  {
    var line, victim := q.pending + [ev], Victim(pol, q, ev);
    assert q.Kept() + [ev] == q.delivered + line;
    SubsequenceReflexive(q.delivered);
    if victim == -1 {
      SubsequenceReflexive(line);
      SubsequenceConcat(q.delivered, q.delivered, line, line);
    } else {
      RemoveIsSubsequence(line, victim);
      SubsequenceConcat(q.delivered, q.delivered, RemoveAt(line, victim), line);
    }
  }

  lemma OtherStepsKeepOrder<T>(pol: Policy<T>, q: Queue<T>, op: Op<T>)
    requires !op.Enqueue?
    ensures IsSubsequence(Step(pol, q, op).Kept(), q.Kept())
  {
    SubsequenceReflexive(q.delivered);
    match op
    case Read =>
      SubsequenceReflexive(q.Kept());
      ReadKeepsAll(pol, q);
    case Peel =>
      KeepIsSubsequence(Stays(pol), q.pending);
      SubsequenceConcat(q.delivered, q.delivered, Keep(Stays(pol), q.pending), q.pending);
    case Clear =>
      EmptySubsequence(q.pending);
      SubsequenceConcat(q.delivered, q.delivered, [], q.pending);
    case SetCap(_) =>
      SubsequenceReflexive(q.Kept());
  }

  lemma ReadKeepsAll<T>(pol: Policy<T>, q: Queue<T>)
    ensures Step(pol, q, Read).Kept() == q.Kept()
  {
  }

  // ----- Conservation -----

  /** Every arrival is delivered, waiting, counted as dropped, or taken out on purpose: never two of
      these, never none; and the counter counts the losses (modulo its width). */
  lemma {:induction false} FramesAreConserved<T(!new)>(pol: Policy<T>, cap: nat, ops: seq<Op<T>>)
    ensures var q := Run(pol, Init(cap), ops);
            && multiset(q.arrivals)
               == multiset(q.delivered) + multiset(q.pending) + multiset(q.lost) + multiset(q.removed)
            && q.dropped == |q.lost| % 0x1_0000_0000_0000_0000
  {
    if ops != [] {
      FramesAreConserved(pol, cap, ops[..|ops| - 1]);
      StepConserves(pol, Run(pol, Init(cap), ops[..|ops| - 1]), ops[|ops| - 1]);
    }
  }

  /** All the places a frame can be. */
  function Places<T>(q: Queue<T>): multiset<T> {
    multiset(q.delivered) + multiset(q.pending) + multiset(q.lost) + multiset(q.removed)
  }

  predicate Counted<T>(q: Queue<T>) {
    q.dropped == |q.lost| % U64_MODULUS
  }

  lemma StepConserves<T(!new)>(pol: Policy<T>, q: Queue<T>, op: Op<T>)
    requires Counted(q) && multiset(q.arrivals) == Places(q)
    ensures var r := Step(pol, q, op); Counted(r) && multiset(r.arrivals) == Places(r)
  {
    match op
    case Enqueue(ev) => AdmitConserves(pol, q, ev);
    case Read => ReadConserves(pol, q);
    case Peel => PeelConserves(pol, q);
    case Clear =>
    case SetCap(_) =>
  }

  lemma PeelConserves<T>(pol: Policy<T>, q: Queue<T>)
    ensures Places(Step(pol, q, Peel)) == Places(q)
  {
    KeepPartitions(pol, q.pending);
  }

  lemma AdmitConserves<T(!new)>(pol: Policy<T>, q: Queue<T>, ev: T)
    requires Counted(q)
    ensures Places(Admit(pol, q, ev)) == Places(q) + multiset{ev} && Counted(Admit(pol, q, ev))
  {
    var victim := Victim(pol, q, ev);
    if victim != -1 {
      DisplaceConserves(q, ev, victim);
    }
  }

  lemma DisplaceConserves<T(!new)>(q: Queue<T>, ev: T, victim: nat)
    requires Counted(q) && victim <= |q.pending|
    ensures Places(Displace(q, ev, victim)) == Places(q) + multiset{ev} && Counted(Displace(q, ev, victim))
  {
    var line := q.pending + [ev];
    RemoveAtMultiset(line, victim);
    Regroup(multiset(q.delivered), multiset(RemoveAt(line, victim)), multiset(q.pending), multiset(q.lost),
            multiset(q.removed), line[victim], ev);
  }

  lemma Regroup<T(!new)>(delivered: multiset<T>, after: multiset<T>, before: multiset<T>, lost: multiset<T>,
                         removed: multiset<T>, out: T, come: T)
    requires after + multiset{out} == before + multiset{come}
    ensures delivered + after + (lost + multiset{out}) + removed
         == delivered + before + lost + removed + multiset{come}
  {
    var l := delivered + after + (lost + multiset{out}) + removed;
    var r := delivered + before + lost + removed + multiset{come};
    forall x: T ensures l[x] == r[x] {
      assert (after + multiset{out})[x] == (before + multiset{come})[x];
    }
  }

  lemma ReadConserves<T>(pol: Policy<T>, q: Queue<T>)
    ensures Places(Step(pol, q, Read)) == Places(q)
  {
    if q.pending != [] {
      assert q.pending == [q.pending[0]] + q.pending[1..];
    }
  }

  lemma {:induction false} KeepPartitions<T>(pol: Policy<T>, s: seq<T>)
    ensures multiset(Keep(Stays(pol), s)) + multiset(Keep(pol.stale, s)) == multiset(s)
  {
    if s != [] {
      KeepPartitions(pol, s[..|s| - 1]);
      assert s == s[..|s| - 1] + [s[|s| - 1]];
    }
  }

  // ----- Reading, clearing, the cap -----

  function Reads<T>(k: nat): seq<Op<T>> {
    seq(k, i => Read)
  }

  /** So many reads hand out so many frames, oldest first, as far as there are any. */
  lemma {:induction false} ReadsTakeTheOldest<T>(pol: Policy<T>, q: Queue<T>, k: nat)
    ensures var n := if k < |q.pending| then k else |q.pending|;
            Run(pol, q, Reads(k)) == q.(delivered := q.delivered + q.pending[..n], pending := q.pending[n..])
  {
    if k == 0 {
      assert q.delivered + q.pending[..0] == q.delivered && q.pending[0..] == q.pending;
    } else {
      ReadsTakeTheOldest(pol, q, k - 1);
      assert Reads<T>(k)[..k - 1] == Reads(k - 1);
      if k <= |q.pending| {
        assert q.pending[..k - 1] + [q.pending[k - 1]] == q.pending[..k];
        assert q.pending[k - 1..][1..] == q.pending[k..];
      }
    }
  }

  /** Clearing takes out what waits, and nothing else. */
  lemma ClearTakesAll<T>(pol: Policy<T>, q: Queue<T>)
    ensures var r := Step(pol, q, Clear);
            && r.pending == [] && r.delivered == q.delivered && r.removed == q.removed + q.pending
            && r.lost == q.lost && r.dropped == q.dropped && r.cap == q.cap
  {
  }

  /** The cap last asked for, requests of zero aside. */
  function CapAfter<T>(cap: nat, ops: seq<Op<T>>): nat {
    if ops == [] then cap
    else
      var last := ops[|ops| - 1];
      if last.SetCap? && last.n != 0 then last.n else CapAfter(cap, ops[..|ops| - 1])
  }

  lemma {:induction false} CapIsTheLastAskedFor<T>(pol: Policy<T>, q: Queue<T>, ops: seq<Op<T>>)
    ensures Run(pol, q, ops).cap == CapAfter(q.cap, ops)
  {
    if ops != [] {
      CapIsTheLastAskedFor(pol, q, ops[..|ops| - 1]);
    }
  }

  // ----- Length -----

  /** Under caps of at most `bound` the queue never holds more than `bound` frames (a cap of zero
      still lets one important frame in). */
  lemma {:induction false} LengthIsBounded<T>(pol: Policy<T>, cap: nat, ops: seq<Op<T>>, bound: nat)
    requires 1 <= bound && cap <= bound
    requires forall i :: 0 <= i < |ops| && ops[i].SetCap? ==> ops[i].n <= bound
    ensures var q := Run(pol, Init(cap), ops); |q.pending| <= bound && q.cap <= bound
  {
    if ops != [] {
      LengthIsBounded(pol, cap, ops[..|ops| - 1], bound);
      StepStaysBounded(pol, Run(pol, Init(cap), ops[..|ops| - 1]), ops[|ops| - 1], bound);
    }
  }

  lemma StepStaysBounded<T>(pol: Policy<T>, q: Queue<T>, op: Op<T>, bound: nat)
    requires 1 <= bound && q.cap <= bound && |q.pending| <= bound
    requires op.SetCap? ==> op.n <= bound
    ensures |Step(pol, q, op).pending| <= bound && Step(pol, q, op).cap <= bound
  {
  }

  /** At or above its cap a queue never grows, whatever happens next, until the cap is raised. */
  lemma {:induction false} FullQueueNeverGrows<T>(pol: Policy<T>, q: Queue<T>, ops: seq<Op<T>>)
    requires 1 <= q.cap <= |q.pending|
    requires forall i :: 0 <= i < |ops| ==> !ops[i].SetCap?
    ensures |Run(pol, q, ops).pending| <= |q.pending| && Run(pol, q, ops).cap == q.cap
  {
    if ops != [] {
      FullQueueNeverGrows(pol, q, ops[..|ops| - 1]);
      StepStaysBounded(pol, Run(pol, q, ops[..|ops| - 1]), ops[|ops| - 1], |q.pending|);
    }
  }

  // ----- Important frames -----

  /** A newcomer that displaces an important frame: the queue is full and holds nothing else. */
  predicate Overruns<T>(pol: Policy<T>, q: Queue<T>, ev: T) {
    && q.cap <= |q.pending|
    && q.pending != []
    && pol.important(ev)
    && FirstNormal(pol, q.pending) == |q.pending|
  }

  predicate KeepsFrames<T>(op: Op<T>) {
    op.Enqueue? || op.Read? || op.SetCap?
  }

  /** How many newcomers displaced an important frame during the run. */
  function OverrunCount<T>(pol: Policy<T>, q: Queue<T>, ops: seq<Op<T>>): nat {
    if ops == [] then 0
    else
      var before := Run(pol, q, ops[..|ops| - 1]);
      var op := ops[|ops| - 1];
      OverrunCount(pol, q, ops[..|ops| - 1]) + if op.Enqueue? && Overruns(pol, before, op.ev) then 1 else 0
  }

  /** Each overrun costs exactly one important frame, and nothing else costs any: without overruns the
      important frames come through unchanged and in order, with one they do not. */
  lemma ImportantFramesSurvive<T>(pol: Policy<T>, cap: nat, ops: seq<Op<T>>)
    requires forall i :: 0 <= i < |ops| ==> KeepsFrames(ops[i])
    ensures var q := Run(pol, Init(cap), ops);
            var overruns := OverrunCount(pol, Init(cap), ops);
            && |Keep(pol.important, q.arrivals)| == |Keep(pol.important, q.Kept())| + overruns
            && (Keep(pol.important, q.Kept()) == Keep(pol.important, q.arrivals) <==> overruns == 0)
  {
    GuardedFramesSurvive(pol, pol.important, cap, ops);
    OverrunsHitImportantFrames(pol, Init(cap), ops);
  }

  /** The frame an overrun displaces is one of those that `guarded` singles out. */
  predicate Hits<T>(pol: Policy<T>, guarded: T -> bool, q: Queue<T>, op: Op<T>) {
    op.Enqueue? && Overruns(pol, q, op.ev) && guarded(q.pending[0])
  }

  /** How many newcomers displaced a guarded frame during the run. */
  function HitCount<T>(pol: Policy<T>, guarded: T -> bool, q: Queue<T>, ops: seq<Op<T>>): nat {
    if ops == [] then 0
    else
      var init := ops[..|ops| - 1];
      HitCount(pol, guarded, q, init) + if Hits(pol, guarded, Run(pol, q, init), ops[|ops| - 1]) then 1 else 0
  }

  /** Whatever part of the important frames is singled out: an overrun that finds one of them at the head
      of the queue costs it, and nothing else costs any. */
  lemma {:induction false} GuardedFramesSurvive<T>(pol: Policy<T>, guarded: T -> bool, cap: nat, ops: seq<Op<T>>)
    requires forall i :: 0 <= i < |ops| ==> KeepsFrames(ops[i])
    requires forall f :: guarded(f) ==> pol.important(f)
    ensures var q := Run(pol, Init(cap), ops);
            var hits := HitCount(pol, guarded, Init(cap), ops);
            && |Keep(guarded, q.arrivals)| == |Keep(guarded, q.Kept())| + hits
            && (Keep(guarded, q.Kept()) == Keep(guarded, q.arrivals) <==> hits == 0)
  {
    if ops != [] {
      var prefix, op := ops[..|ops| - 1], ops[|ops| - 1];
      GuardedFramesSurvive(pol, guarded, cap, prefix);
      GuardedStep(pol, guarded, Run(pol, Init(cap), prefix), op);
    }
  }

  lemma {:induction false} OverrunsHitImportantFrames<T>(pol: Policy<T>, q: Queue<T>, ops: seq<Op<T>>)
    ensures HitCount(pol, pol.important, q, ops) == OverrunCount(pol, q, ops)
  {
    if ops != [] {
      OverrunsHitImportantFrames(pol, q, ops[..|ops| - 1]);
    }
  }

  /** No overrun, no loss of any kind of important frame. */
  lemma {:induction false} HitsAreOverruns<T>(pol: Policy<T>, guarded: T -> bool, q: Queue<T>, ops: seq<Op<T>>)
    ensures HitCount(pol, guarded, q, ops) <= OverrunCount(pol, q, ops)
  {
    if ops != [] {
      HitsAreOverruns(pol, guarded, q, ops[..|ops| - 1]);
    }
  }

  /** The newcomer as a guarded frame: one or none. */
  function News<T>(guarded: T -> bool, op: Op<T>): seq<T> {
    if op.Enqueue? && guarded(op.ev) then [op.ev] else []
  }

  lemma GuardedStep<T>(pol: Policy<T>, guarded: T -> bool, q: Queue<T>, op: Op<T>)
    requires KeepsFrames(op) && forall f :: guarded(f) ==> pol.important(f)
    ensures var r := Step(pol, q, op);
            var line, after := Keep(guarded, q.Kept()) + News(guarded, op), Keep(guarded, r.Kept());
            && Keep(guarded, r.arrivals) == Keep(guarded, q.arrivals) + News(guarded, op)
            && (if Hits(pol, guarded, q, op) then |after| + 1 == |line| else after == line)
  {
    match op
    case Enqueue(ev) =>
      AdmitArrives(pol, guarded, q, ev);
      AdmitKept(pol, guarded, q, ev);
    case Read => ReadKeepsAll(pol, q);
    case SetCap(_) =>
  }

  lemma AdmitArrives<T>(pol: Policy<T>, guarded: T -> bool, q: Queue<T>, ev: T)
    ensures Keep(guarded, Admit(pol, q, ev).arrivals) == Keep(guarded, q.arrivals) + News(guarded, Enqueue(ev))
  {
    KeepAppend(guarded, q.arrivals, ev);
  }

  lemma AdmitKept<T>(pol: Policy<T>, guarded: T -> bool, q: Queue<T>, ev: T)
    requires forall f :: guarded(f) ==> pol.important(f)
    ensures var line := Keep(guarded, q.Kept()) + News(guarded, Enqueue(ev));
            var after := Keep(guarded, Admit(pol, q, ev).Kept());
            if Hits(pol, guarded, q, Enqueue(ev)) then |after| + 1 == |line| else after == line
  {
    var all, victim := q.Kept() + [ev], Victim(pol, q, ev);
    KeepAppend(guarded, q.Kept(), ev);
    if victim == -1 {
      assert Admit(pol, q, ev).Kept() == all;
    } else {
      AdmitRemoves(pol, q, ev);
      VictimIsGuarded(pol, guarded, q, ev);
      KeepRemoveAt(guarded, all, |q.delivered| + victim);
    }
  }

  lemma AdmitRemoves<T>(pol: Policy<T>, q: Queue<T>, ev: T)
    requires Victim(pol, q, ev) != -1
    ensures var all, victim := q.Kept() + [ev], Victim(pol, q, ev);
            && Admit(pol, q, ev).Kept() == RemoveAt(all, |q.delivered| + victim)
            && all[|q.delivered| + victim] == (q.pending + [ev])[victim]
  {
  }

  lemma VictimIsGuarded<T>(pol: Policy<T>, guarded: T -> bool, q: Queue<T>, ev: T)
    requires Victim(pol, q, ev) != -1 && forall f :: guarded(f) ==> pol.important(f)
    ensures guarded((q.pending + [ev])[Victim(pol, q, ev)]) <==> Hits(pol, guarded, q, Enqueue(ev))
  {
  }

  /** A full queue of one: the later of two important frames takes the place of the earlier. */
  lemma LastImportantWins<T>(pol: Policy<T>, a: T, b: T)
    requires pol.important(a) && pol.important(b)
    ensures var q := Run(pol, Init(1), [Enqueue(a), Enqueue(b)]);
            q.lost == [a] && q.arrivals == [a, b] && q.Kept() == [b]
  {
    var ops := [Enqueue(a), Enqueue(b)];
    assert ops[..1] == [Enqueue(a)] && ops[..1][..0] == [];
    assert Run(pol, Init(1), ops[..1]) == Admit(pol, Init(1), a);
  }

  lemma TwoWait<T>(pol: Policy<T>, a: T, b: T)
    ensures Admit(pol, Init(2), a) == Queue(2, [a], 0, [a], [], [], [])
    ensures Admit(pol, Queue(2, [a], 0, [a], [], [], []), b) == Queue(2, [a, b], 0, [a, b], [], [], [])
  {
    assert [] + [a] == [a] && [a] + [b] == [a, b];
  }

  lemma ThirdDisplaces<T>(pol: Policy<T>, a: T, b: T, c: T)
    requires pol.important(a) && !pol.important(b)
    ensures var q := Queue(2, [a, b], 0, [a, b], [], [], []);
            && Admit(pol, q, c) == Queue(2, [a, c], 1, [a, b, c], [], [b], [])
            && !Overruns(pol, q, c)
  {
    var q := Queue(2, [a, b], 0, [a, b], [], [], []);
    assert q.pending[0] == a && q.pending[1] == b;
    assert FirstNormal(pol, q.pending) == 1;
    assert q.pending + [c] == [a, b, c] && RemoveAt([a, b, c], 1) == [a, c];
    assert [] + [b] == [b];
  }

  /** A queue of two: the newcomer displaces the one frame that is not important. */
  lemma LastDisplacesNormal<T>(pol: Policy<T>, guarded: T -> bool, a: T, b: T, c: T)
    requires pol.important(a) && !pol.important(b)
    ensures var ops := [Enqueue(a), Enqueue(b), Enqueue(c)];
            && Run(pol, Init(2), ops) == Queue(2, [a, c], 1, [a, b, c], [], [b], [])
            && HitCount(pol, guarded, Init(2), ops) == 0
  {
    TwoWait(pol, a, b);
    ThirdDisplaces(pol, a, b, c);
    OneMore(pol, guarded, Init(2), [], Enqueue(a));
    OneMore(pol, guarded, Init(2), [Enqueue(a)], Enqueue(b));
    OneMore(pol, guarded, Init(2), [Enqueue(a), Enqueue(b)], Enqueue(c));
    assert [] + [Enqueue(a)] == [Enqueue(a)];
    assert [Enqueue(a)] + [Enqueue(b)] == [Enqueue(a), Enqueue(b)];
    assert [Enqueue(a), Enqueue(b)] + [Enqueue(c)] == [Enqueue(a), Enqueue(b), Enqueue(c)];
  }

  lemma OneMore<T>(pol: Policy<T>, guarded: T -> bool, q: Queue<T>, ops: seq<Op<T>>, op: Op<T>)
    ensures var before := Run(pol, q, ops);
            && Run(pol, q, ops + [op]) == Step(pol, before, op)
            && HitCount(pol, guarded, q, ops + [op])
               == HitCount(pol, guarded, q, ops) + if Hits(pol, guarded, before, op) then 1 else 0
  {
    assert (ops + [op])[..|ops|] == ops;
  }

  /** Every important arrival finds fewer important frames waiting than the cap allows. */
  predicate HasRoom<T>(pol: Policy<T>, q: Queue<T>, ops: seq<Op<T>>) {
    forall i :: 0 <= i < |ops| && ops[i].Enqueue? && pol.important(ops[i].ev) ==>
      var before := Run(pol, q, ops[..i]);
      |Keep(pol.important, before.pending)| < before.cap
  }

  /** Then no newcomer ever overruns. */
  lemma {:induction false} RoomPreventsOverruns<T>(pol: Policy<T>, q: Queue<T>, ops: seq<Op<T>>)
    requires HasRoom(pol, q, ops)
    ensures OverrunCount(pol, q, ops) == 0
  {
    if ops != [] {
      var n := |ops| - 1;
      var prefix := ops[..n];
      assert forall i :: 0 <= i < n ==> prefix[..i] == ops[..i];
      RoomPreventsOverruns(pol, q, prefix);
      var before := Run(pol, q, prefix);
      if ops[n].Enqueue? && Overruns(pol, before, ops[n].ev) {
        KeepAll(pol.important, before.pending);
      }
    }
  }

  // ----- Pushing back -----

  /** A full queue turns a newcomer away that is less important than everything in it. */
  predicate Refuses<T>(pol: Policy<T>, q: Queue<T>, ev: T) {
    q.cap <= |q.pending| && FirstNormal(pol, q.pending) == |q.pending| && !pol.important(ev)
  }

  /** A pushed frame waits behind everything that still waits: the queue as it was, less one frame when it was
      full. */
  lemma PushedFrameGoesLast<T>(pol: Policy<T>, q: Queue<T>, ev: T)
    ensures var pending := Step(pol, q, Enqueue(ev)).pending;
            if Refuses(pol, q, ev) then pending == q.pending
            else
              && pending != [] && pending[|pending| - 1] == ev
              && var ahead := pending[..|pending| - 1];
                 ahead == q.pending || exists k :: 0 <= k < |q.pending| && ahead == RemoveAt(q.pending, k)
  {
    var victim := Victim(pol, q, ev);
    var line := q.pending + [ev];
    if 0 <= victim < |q.pending| {
      RemoveAtOfAppend(q.pending, ev, victim);
      assert RemoveAt(line, victim)[..|line| - 2] == RemoveAt(q.pending, victim);
    } else if victim == |q.pending| {
      assert RemoveAt(line, victim) == q.pending;
    } else {
      assert line[..|line| - 1] == q.pending;
    }
  }

  /** So the next read hands it out exactly when it is accepted by an empty queue, or displaces the only frame of
      a full one. */
  lemma PushedFrameIsNextIff<T>(pol: Policy<T>, q: Queue<T>, ev: T)
    ensures Step(pol, q, Enqueue(ev)).pending == [ev] <==>
              if q.pending == [] then q.cap > 0 || pol.important(ev)
              else |q.pending| == 1 && q.cap <= 1 && (pol.important(q.pending[0]) ==> pol.important(ev))
  {
    var line := q.pending + [ev];
    if |q.pending| == 1 {
      assert q.pending == [q.pending[0]] && line == [q.pending[0], ev];
      assert RemoveAt(line, 0) == [ev] && RemoveAt(line, 1) == q.pending;
      assert FirstNormal(pol, q.pending) == if pol.important(q.pending[0]) then 1 else 0;
    }
  }

  // ----- Peeling -----

  /** The labels of the frames that have one, in order. */
  function Labels<T>(labelOf: T -> Option<string>, frames: seq<T>): seq<string> {
    if frames == [] then []
    else
      var init, found := Labels(labelOf, frames[..|frames| - 1]), labelOf(frames[|frames| - 1]);
      if found.Some? then init + [found.value] else init
  }

  /** A frame is stale exactly when it has a label. */
  ghost predicate LabelsStale<T(!new)>(pol: Policy<T>, labelOf: T -> Option<string>) {
    forall f: T :: pol.stale(f) <==> labelOf(f).Some?
  }

  /** One label per stale frame, in order: what a peel reports is what it takes out. */
  lemma {:induction false} LabelsNameTheStale<T(!new)>(pol: Policy<T>, labelOf: T -> Option<string>, frames: seq<T>)
    requires LabelsStale(pol, labelOf)
    ensures var stale, labels := Keep(pol.stale, frames), Labels(labelOf, frames);
            && |labels| == |stale|
            && forall i :: 0 <= i < |stale| ==> labelOf(stale[i]) == Some(labels[i])
  {
    if frames != [] {
      LabelsNameTheStale(pol, labelOf, frames[..|frames| - 1]);
    }
  }

  /** The peel as a pass over the waiting frames. */
  method PeelLoop<T(!new)>(ghost pol: Policy<T>, labelOf: T -> Option<string>, pending: seq<T>)
    returns (labels: seq<string>, kept: seq<T>)
    requires LabelsStale(pol, labelOf)
    ensures kept == Keep(Stays(pol), pending) && labels == Labels(labelOf, pending)
  {
    labels, kept := [], [];
    for i := 0 to |pending|
      invariant kept == Keep(Stays(pol), pending[..i]) && labels == Labels(labelOf, pending[..i])
    {
      assert pending[..i + 1][..i] == pending[..i];
      StaysIffNotStale(pol, pending[i]);
      var found := labelOf(pending[i]);
      if found.Some? {
        labels := labels + [found.value];
      } else {
        kept := kept + [pending[i]];
      }
    }
    assert pending[..|pending|] == pending;
  }

  lemma StaysIffNotStale<T>(pol: Policy<T>, f: T)
    ensures Stays(pol)(f) == !pol.stale(f)
  {
  }

  /** A second peel takes nothing, and the first left exactly the frames that are not stale. */
  lemma PeelIsIdempotent<T(!new)>(pol: Policy<T>, q: Queue<T>)
    ensures var once := Step(pol, q, Peel);
            && Step(pol, once, Peel) == once
            && (forall f :: f in once.pending <==> f in q.pending && !pol.stale(f))
  {
    var kept := Keep(Stays(pol), q.pending);
    KeepMembers(Stays(pol), q.pending);
    assert forall i :: 0 <= i < |kept| ==> kept[i] in kept && Stays(pol)(kept[i]);
    KeepAll(Stays(pol), kept);
    forall i | 0 <= i < |kept| ensures !pol.stale(kept[i]) {
      StaysIffNotStale(pol, kept[i]);
    }
    forall f: T ensures Stays(pol)(f) == !pol.stale(f) {
      StaysIffNotStale(pol, f);
    }
    KeepNone(pol.stale, kept);
  }
}
