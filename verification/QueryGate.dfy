/** The single-flight query gate with daemon-first cancel (src/appkit/query_gate.rs), and the runner's
    two ways in (src/appkit/turn_runner.rs). */
module QueryGate {
  import opened Options

  type Key = string
  /** Callbacks are told apart by number; every caller brings a fresh one. */
  type Callback = nat

  datatype Gate = Gate(cancels: map<Key, Callback>, sendCancels: map<Key, Callback>)

  const EMPTY := Gate(map[], map[])

  // ----- The critical sections -----

  function Acquire(g: Gate, key: Key, cancel: Callback, send: Option<Callback>): Gate {
    if key in g.cancels then g
    else Gate(g.cancels[key := cancel], if send.Some? then g.sendCancels[key := send.value] else g.sendCancels)
  }

  /** Both `release` and the first half of `cancel` clear the key. */
  function Clear(g: Gate, key: Key): Gate {
    Gate(g.cancels - {key}, g.sendCancels - {key})
  }

  function SetSendCancel(g: Gate, key: Key, send: Callback): Gate {
    if key in g.cancels then g.(sendCancels := g.sendCancels[key := send]) else g
  }

  function ReplaceCancel(g: Gate, key: Key, cancel: Callback): Gate {
    if key in g.cancels then g.(cancels := g.cancels[key := cancel]) else g
  }

  function Lookup(m: map<Key, Callback>, key: Key): Option<Callback> {
    if key in m then Some(m[key]) else None
  }

  class QueryGate {
    var cancels: map<Key, Callback>
    var sendCancels: map<Key, Callback>

    function View(): Gate
      reads this
    {
      Gate(cancels, sendCancels)
    }

    constructor ()
      ensures View() == EMPTY
    {
      cancels, sendCancels := map[], map[];
    }

    method TryAcquire(key: Key, cancel: Callback, send: Option<Callback>) returns (ok: bool)
      modifies this
      ensures View() == Acquire(old(View()), key, cancel, send) && ok == (key !in old(cancels))
      ensures !ok ==> View() == old(View())
    {
      if key in cancels {
        return false;
      }
      cancels := cancels[key := cancel];
      if send.Some? {
        sendCancels := sendCancels[key := send.value];
      }
      return true;
    }

    /** The locked half of `cancel`: takes both callbacks out. */
    method TakeForCancel(key: Key) returns (cancel: Option<Callback>, send: Option<Callback>)
      modifies this
      ensures View() == Clear(old(View()), key)
      ensures cancel == Lookup(old(cancels), key) && send == Lookup(old(sendCancels), key)
    {
      cancel, send := Lookup(cancels, key), Lookup(sendCancels, key);
      cancels := cancels - {key};
      sendCancels := sendCancels - {key};
    }

    method Release(key: Key)
      modifies this
      ensures View() == Clear(old(View()), key)
    {
      cancels := cancels - {key};
      sendCancels := sendCancels - {key};
    }

    method SetSender(key: Key, send: Callback)
      modifies this
      ensures View() == SetSendCancel(old(View()), key, send)
      ensures key in old(cancels) ==> key in sendCancels && sendCancels[key] == send
      ensures key !in old(cancels) ==> View() == old(View())
    {
      if key !in cancels {
        return;
      }
      sendCancels := sendCancels[key := send];
    }

    method Replace(key: Key, cancel: Callback)
      modifies this
      ensures View() == ReplaceCancel(old(View()), key, cancel)
      ensures key in old(cancels) ==> cancels[key] == cancel
      ensures key !in old(cancels) ==> View() == old(View())
    {
      if key !in cancels {
        return;
      }
      cancels := cancels[key := cancel];
    }
  }

  // ----- All interleavings -----

  type Task = nat

  /** A turn between taking the gate and releasing it. `Admitted` is the reserved path between its check
      and its `replace_cancel`. */
  datatype Runner = Admitted(key: Key) | Running(key: Key, cancel: Callback)

  /** `cancel` after its locked half: waiting for the daemon, then about to call the local callback. */
  datatype Canceller = AwaitingDaemon(held: Option<Callback>, sender: Callback) | CallingLocal(cancel: Callback)

  /** What cancellers have done, in order. */
  datatype Event =
    | Took(who: Task, taken: Option<Callback>, sender: Option<Callback>)
    | DaemonDone(who: Task, via: Callback)
    | LocalCalled(who: Task, cancel: Callback)

  /** `owners` remembers who made the reservation of a key, by executing or by reserving. */
  datatype System = System(
    gate: Gate,
    owners: map<Key, Task>,
    runners: map<Task, Runner>,
    cancellers: map<Task, Canceller>,
    started: set<Task>,
    next: Callback,
    log: seq<Event>)

  const INIT := System(EMPTY, map[], map[], map[], {}, 0, [])

  datatype Action =
    | Execute(t: Task, key: Key)
    | Reserve(t: Task, key: Key, withSender: bool)
    | CheckReserved(t: Task, key: Key)
    | EnterReserved(t: Task)
    | RegisterSender(t: Task)
    | Finish(t: Task)
    | CancelTake(t: Task, key: Key)
    | DaemonEnds(t: Task)
    | CallLocal(t: Task)

  /** One step; an action that is not possible in `s` changes nothing. Tasks are used once. */
  function Step(s: System, a: Action): System {
    match a
    case Execute(t, key) =>
      if t in s.started || key in s.gate.cancels then s
      else s.(gate := Acquire(s.gate, key, s.next, None), owners := s.owners[key := t],
              runners := s.runners[t := Running(key, s.next)],
              started := s.started + {t}, next := s.next + 1)
    case Reserve(t, key, withSender) =>
      if t in s.started || key in s.gate.cancels then s
      else s.(gate := Acquire(s.gate, key, s.next, if withSender then Some(s.next + 1) else None),
              owners := s.owners[key := t], next := s.next + 2)
    case CheckReserved(t, key) =>
      if t in s.started || key !in s.gate.cancels then s
      else s.(runners := s.runners[t := Admitted(key)], started := s.started + {t})
    case EnterReserved(t) =>
      if t in s.runners && s.runners[t].Admitted? then
        s.(gate := ReplaceCancel(s.gate, s.runners[t].key, s.next),
           runners := s.runners[t := Running(s.runners[t].key, s.next)], next := s.next + 1)
      else s
    case RegisterSender(t) =>
      if t in s.runners && s.runners[t].Running? then
        s.(gate := SetSendCancel(s.gate, s.runners[t].key, s.next), next := s.next + 1)
      else s
    case Finish(t) =>
      if t in s.runners && s.runners[t].Running? then
        s.(gate := Clear(s.gate, s.runners[t].key), owners := s.owners - {s.runners[t].key}, runners := s.runners - {t})
      else s
    case CancelTake(t, key) =>
      if t in s.started then s else TakeFor(s, t, key)
    case DaemonEnds(t) =>
      if t in s.cancellers && s.cancellers[t].AwaitingDaemon? then
        var cancel := s.cancellers[t].held;
        s.(cancellers := if cancel.Some? then s.cancellers[t := CallingLocal(cancel.value)] else s.cancellers - {t},
           log := s.log + [DaemonDone(t, s.cancellers[t].sender)])
      else s
    case CallLocal(t) =>
      if t in s.cancellers && s.cancellers[t].CallingLocal? then
        s.(cancellers := s.cancellers - {t}, log := s.log + [LocalCalled(t, s.cancellers[t].cancel)])
      else s
  }

  function TakeFor(s: System, t: Task, key: Key): System {
    var cancel, send := Lookup(s.gate.cancels, key), Lookup(s.gate.sendCancels, key);
    var taken := s.(gate := Clear(s.gate, key), owners := s.owners - {key}, started := s.started + {t});
    if cancel.None? && send.None? then taken
    else
      taken.(log := s.log + [Took(t, cancel, send)],
             cancellers := s.cancellers[t := if send.Some? then AwaitingDaemon(cancel, send.value)
                                             else CallingLocal(cancel.value)])
  }

  function Run(s: System, actions: seq<Action>): System {
    if actions == [] then s else Step(Run(s, actions[..|actions| - 1]), actions[|actions| - 1])
  }

  // ----- The two maps -----

  predicate SendersHaveCancels(g: Gate) {
    g.sendCancels.Keys <= g.cancels.Keys
  }

  lemma {:induction false} SendersAlwaysHaveCancels(actions: seq<Action>)
    ensures SendersHaveCancels(Run(INIT, actions).gate)
  {
    if actions != [] {
      SendersAlwaysHaveCancels(actions[..|actions| - 1]);
      SendersStep(Run(INIT, actions[..|actions| - 1]), actions[|actions| - 1]);
    }
  }

  lemma SendersStep(s: System, a: Action)
    requires SendersHaveCancels(s.gate)
    ensures SendersHaveCancels(Step(s, a).gate)
  {
  }

  // ----- Each local callback at most once, after its daemon cancel -----

  /** The local callbacks called so far. */
  function Called(log: seq<Event>): multiset<Callback> {
    if log == [] then multiset{}
    else
      var last := log[|log| - 1];
      Called(log[..|log| - 1]) + if last.LocalCalled? then multiset{last.cancel} else multiset{}
  }

  function HeldBy(c: Canceller): Option<Callback> {
    match c
    case AwaitingDaemon(cancel, _) => cancel
    case CallingLocal(cancel) => Some(cancel)
  }

  /** Where a callback can wait to be called. */
  datatype Place = Registered(key: Key) | With(t: Task)

  function At(s: System, p: Place): Option<Callback> {
    match p
    case Registered(key) => Lookup(s.gate.cancels, key)
    case With(t) => if t in s.cancellers then HeldBy(s.cancellers[t]) else None
  }

  /** A callback waits in at most one place, and one that has been called waits nowhere. */
  ghost predicate CallbacksOnce(s: System) {
    && (forall p, q :: At(s, p).Some? && At(s, p) == At(s, q) ==> p == q)
    && (forall p :: At(s, p).Some? ==> At(s, p).value < s.next && Called(s.log)[At(s, p).value] == 0)
    && (forall c :: Called(s.log)[c] <= 1 && (Called(s.log)[c] == 1 ==> c < s.next))
  }

  lemma CalledAppend(log: seq<Event>, e: Event)
    ensures Called(log + [e]) == Called(log) + if e.LocalCalled? then multiset{e.cancel} else multiset{}
  {
    assert (log + [e])[..|log|] == log;
  }

  /** Callbacks may vanish, and one place may receive a fresh one. */
  lemma FreshKeepsOnce(s: System, r: System, to: Place)
    requires CallbacksOnce(s) && Called(r.log) == Called(s.log) && r.next >= s.next
    requires forall p :: At(r, p) == At(s, p) || At(r, p).None?
                      || (p == to && At(r, p) == Some(s.next) && r.next > s.next)
    ensures CallbacksOnce(r)
  {
  }

  /** A callback may move from one place to another. */
  lemma MoveKeepsOnce(s: System, r: System, from: Place, to: Place)
    requires CallbacksOnce(s) && Called(r.log) == Called(s.log) && r.next == s.next
    requires forall p :: At(r, p) == if p == to then At(s, from) else if p == from then None else At(s, p)
    ensures CallbacksOnce(r)
  {
    forall p, q | At(r, p).Some? && At(r, p) == At(r, q) ensures p == q {
      var was, other := if p == to then from else p, if q == to then from else q;
      assert At(s, was) == At(r, p) && At(s, other) == At(r, q);
      assert was == other;
    }
  }

  /** A waiting callback may be called. */
  lemma CallKeepsOnce(s: System, r: System, from: Place)
    requires CallbacksOnce(s) && r.next == s.next && At(s, from).Some?
    requires Called(r.log) == Called(s.log) + multiset{At(s, from).value}
    requires forall p :: At(r, p) == if p == from then None else At(s, p)
    ensures CallbacksOnce(r)
  {
  }

  /** The key whose callback an action may register. */
  function KeyOf(s: System, a: Action): Key {
    match a
    case Execute(_, k) => k
    case Reserve(_, k, _) => k
    case EnterReserved(t) => if t in s.runners then s.runners[t].key else ""
    case _ => ""
  }

  lemma GateStepPlaces(s: System, a: Action, p: Place)
    requires !a.CancelTake? && !a.DaemonEnds? && !a.CallLocal?
    ensures var r := Step(s, a);
            && r.log == s.log && r.next >= s.next
            && (At(r, p) == At(s, p) || At(r, p).None?
                || (p == Registered(KeyOf(s, a)) && At(r, p) == Some(s.next) && r.next > s.next))
  {
  }

  lemma GateStepKeepsOnce(s: System, a: Action)
    requires CallbacksOnce(s) && !a.CancelTake? && !a.DaemonEnds? && !a.CallLocal?
    ensures CallbacksOnce(Step(s, a))
  {
    var r, to := Step(s, a), Registered(KeyOf(s, a));
    forall p
      ensures At(r, p) == At(s, p) || At(r, p).None? || (p == to && At(r, p) == Some(s.next) && r.next > s.next)
    {
      GateStepPlaces(s, a, p);
    }
    GateStepPlaces(s, a, to);
    FreshKeepsOnce(s, r, to);
  }

  lemma TakeKeepsOnce(s: System, t: Task, key: Key)
    requires CallbacksOnce(s) && SendersHaveCancels(s.gate) && s.cancellers.Keys <= s.started && t !in s.started
    ensures CallbacksOnce(TakeFor(s, t, key))
  {
    var r := TakeFor(s, t, key);
    if key in s.gate.cancels {
      CalledAppend(s.log, Took(t, Some(s.gate.cancels[key]), Lookup(s.gate.sendCancels, key)));
    }
    forall p
      ensures At(r, p)
           == if p == With(t) then At(s, Registered(key)) else if p == Registered(key) then None else At(s, p)
    {
      PlacesAfterTake(s, t, key, p);
    }
    MoveKeepsOnce(s, r, Registered(key), With(t));
  }

  lemma PlacesAfterTake(s: System, t: Task, key: Key, p: Place)
    requires SendersHaveCancels(s.gate) && t !in s.cancellers
    ensures At(TakeFor(s, t, key), p)
         == if p == With(t) then At(s, Registered(key)) else if p == Registered(key) then None else At(s, p)
  {
  }

  lemma DaemonEndKeepsOnce(s: System, t: Task)
    requires CallbacksOnce(s)
    ensures CallbacksOnce(Step(s, DaemonEnds(t)))
  {
    if t in s.cancellers && s.cancellers[t].AwaitingDaemon? {
      CalledAppend(s.log, DaemonDone(t, s.cancellers[t].sender));
    }
    FreshKeepsOnce(s, Step(s, DaemonEnds(t)), With(t));
  }

  lemma LocalCallKeepsOnce(s: System, t: Task)
    requires CallbacksOnce(s)
    ensures CallbacksOnce(Step(s, CallLocal(t)))
  {
    if t in s.cancellers && s.cancellers[t].CallingLocal? {
      CalledAppend(s.log, LocalCalled(t, s.cancellers[t].cancel));
      CallKeepsOnce(s, Step(s, CallLocal(t)), With(t));
    }
  }

  lemma {:induction false} CancellersHaveStarted(actions: seq<Action>)
    ensures var s := Run(INIT, actions); s.cancellers.Keys <= s.started && s.runners.Keys <= s.started
  {
    if actions != [] {
      CancellersHaveStarted(actions[..|actions| - 1]);
      StartedStep(Run(INIT, actions[..|actions| - 1]), actions[|actions| - 1]);
    }
  }

  lemma StartedStep(s: System, a: Action)
    requires s.cancellers.Keys <= s.started && s.runners.Keys <= s.started
    ensures Step(s, a).cancellers.Keys <= Step(s, a).started && Step(s, a).runners.Keys <= Step(s, a).started
  {
  }

  lemma {:induction false} CallbacksInv(actions: seq<Action>)
    ensures CallbacksOnce(Run(INIT, actions))
  {
    if actions != [] {
      var s, a := Run(INIT, actions[..|actions| - 1]), actions[|actions| - 1];
      CallbacksInv(actions[..|actions| - 1]);
      SendersAlwaysHaveCancels(actions[..|actions| - 1]);
      CancellersHaveStarted(actions[..|actions| - 1]);
      match a {
        case CancelTake(t, key) =>
          if t !in s.started { TakeKeepsOnce(s, t, key); }
        case DaemonEnds(t) => DaemonEndKeepsOnce(s, t);
        case CallLocal(t) => LocalCallKeepsOnce(s, t);
        case _ => GateStepKeepsOnce(s, a);
      }
    }
  }

  /** No callback is ever called twice by `cancel`, in any interleaving. */
  lemma LocalCancelRunsAtMostOnce(actions: seq<Action>, c: Callback)
    ensures Called(Run(INIT, actions).log)[c] <= 1
  {
    CallbacksInv(actions);
  }

  /** Entry i of the log took callback `c` for task t, and the daemon sender registered with it, if any. */
  ghost predicate TookAt(log: seq<Event>, i: int, t: Task, c: Callback, sender: Option<Callback>) {
    0 <= i < |log| && log[i] == Took(t, Some(c), sender)
  }

  ghost predicate DaemonDoneBetween(log: seq<Event>, t: Task, sender: Callback, from: int, to: int) {
    exists k :: from < k < to && 0 <= k < |log| && log[k] == DaemonDone(t, sender)
  }

  /** The call of `c` by task t would be in order if it came next. */
  ghost predicate Justified(log: seq<Event>, t: Task, c: Callback, to: int) {
    exists i, sender ::
      TookAt(log, i, t, c, sender) && i < to && (sender.Some? ==> DaemonDoneBetween(log, t, sender.value, i, to))
  }

  ghost predicate OrderKept(s: System) {
    && (forall n :: 0 <= n < |s.log| && s.log[n].LocalCalled? ==> Justified(s.log, s.log[n].who, s.log[n].cancel, n))
    && (forall t :: t in s.cancellers && s.cancellers[t].CallingLocal? ==>
          Justified(s.log, t, s.cancellers[t].cancel, |s.log|))
    && (forall t :: t in s.cancellers && s.cancellers[t].AwaitingDaemon? && s.cancellers[t].held.Some? ==>
          exists i :: TookAt(s.log, i, t, s.cancellers[t].held.value, Some(s.cancellers[t].sender)))
  }

  lemma JustifiedGrows(log: seq<Event>, e: Event, t: Task, c: Callback, to: int)
    requires Justified(log, t, c, to) && to <= |log|
    ensures Justified(log + [e], t, c, to) && Justified(log + [e], t, c, |log| + 1)
  {
    var i, sender :|
      TookAt(log, i, t, c, sender) && i < to && (sender.Some? ==> DaemonDoneBetween(log, t, sender.value, i, to));
    assert TookAt(log + [e], i, t, c, sender);
    if sender.Some? {
      var k :| i < k < to && 0 <= k < |log| && log[k] == DaemonDone(t, sender.value);
      assert (log + [e])[k] == DaemonDone(t, sender.value);
    }
  }

  /** Logging one more event keeps the order, whatever the event is, if it is itself justified. */
  lemma OrderGrows(s: System, e: Event)
    requires OrderKept(s)
    requires e.LocalCalled? ==> Justified(s.log, e.who, e.cancel, |s.log|)
    ensures OrderKept(s.(log := s.log + [e]))
  {
    var grown := s.log + [e];
    forall n | 0 <= n < |grown| && grown[n].LocalCalled? ensures Justified(grown, grown[n].who, grown[n].cancel, n) {
      if n < |s.log| {
        JustifiedGrows(s.log, e, s.log[n].who, s.log[n].cancel, n);
      } else {
        JustifiedGrows(s.log, e, e.who, e.cancel, n);
      }
    }
    forall t | t in s.cancellers && s.cancellers[t].CallingLocal?
      ensures Justified(grown, t, s.cancellers[t].cancel, |grown|)
    {
      JustifiedGrows(s.log, e, t, s.cancellers[t].cancel, |s.log|);
    }
    forall t | t in s.cancellers && s.cancellers[t].AwaitingDaemon? && s.cancellers[t].held.Some?
      ensures exists i :: TookAt(grown, i, t, s.cancellers[t].held.value, Some(s.cancellers[t].sender))
    {
      var i :| TookAt(s.log, i, t, s.cancellers[t].held.value, Some(s.cancellers[t].sender));
      assert TookAt(grown, i, t, s.cancellers[t].held.value, Some(s.cancellers[t].sender));
    }
  }

  lemma OrderStep(s: System, a: Action)
    requires OrderKept(s) && SendersHaveCancels(s.gate)
    ensures OrderKept(Step(s, a))
  {
    match a
    case CancelTake(t, key) =>
      if t !in s.started && key in s.gate.cancels {
        var c, sender := s.gate.cancels[key], Lookup(s.gate.sendCancels, key);
        OrderGrows(s, Took(t, Some(c), sender));
        assert TookAt(s.log + [Took(t, Some(c), sender)], |s.log|, t, c, sender);
      }
    case DaemonEnds(t) =>
      if t in s.cancellers && s.cancellers[t].AwaitingDaemon? {
        DaemonEndsInOrder(s, t);
      }
    case CallLocal(t) =>
      if t in s.cancellers && s.cancellers[t].CallingLocal? {
        OrderGrows(s, LocalCalled(t, s.cancellers[t].cancel));
      }
    case _ =>
  }

  lemma DaemonEndsInOrder(s: System, t: Task)
    requires OrderKept(s) && t in s.cancellers && s.cancellers[t].AwaitingDaemon?
    ensures OrderKept(Step(s, DaemonEnds(t)))
  {
    var sender := s.cancellers[t].sender;
    var grown := s.log + [DaemonDone(t, sender)];
    OrderGrows(s, DaemonDone(t, sender));
    if s.cancellers[t].held.Some? {
      var i :| TookAt(s.log, i, t, s.cancellers[t].held.value, Some(sender));
      assert TookAt(grown, i, t, s.cancellers[t].held.value, Some(sender));
      assert grown[|s.log|] == DaemonDone(t, sender);
      assert DaemonDoneBetween(grown, t, sender, i, |grown|);
    }
  }

  /** Daemon first: whenever `cancel` calls a local callback it took it out of the gate before, and if a
      daemon sender was registered with it, that sender's call had ended in between. */
  lemma {:induction false} DaemonCancelComesFirst(actions: seq<Action>)
    ensures OrderKept(Run(INIT, actions))
  {
    if actions != [] {
      DaemonCancelComesFirst(actions[..|actions| - 1]);
      SendersAlwaysHaveCancels(actions[..|actions| - 1]);
      OrderStep(Run(INIT, actions[..|actions| - 1]), actions[|actions| - 1]);
    }
  }

  // ----- Single flight -----

  predicate RunsOn(s: System, t: Task, key: Key) {
    t in s.runners && s.runners[t].Running? && s.runners[t].key == key
  }

  /** Every running turn still has its own reservation. */
  ghost predicate Reserved(s: System) {
    forall t :: t in s.runners && s.runners[t].Running? ==>
      s.runners[t].key in s.gate.cancels && s.gate.cancels[s.runners[t].key] == s.runners[t].cancel
  }

  ghost predicate SingleFlight(s: System) {
    forall t, u, key :: RunsOn(s, t, key) && RunsOn(s, u, key) ==> t == u
  }

  /** An action that respects reservations: a reserved entry is made by the task that reserved the key, and no
      key is cancelled while somebody has entered for it. */
  ghost predicate LeavesReservations(s: System, a: Action) {
    match a
    case CheckReserved(t, key) => key in s.gate.cancels ==> key in s.owners && s.owners[key] == t
    case CancelTake(_, key) => !exists t :: t in s.runners && s.runners[t].key == key
    case _ => true
  }

  ghost predicate Orderly(s: System, actions: seq<Action>) {
    forall k :: 0 <= k < |actions| ==> LeavesReservations(Run(s, actions[..k]), actions[k])
  }

  /** Whoever has entered owns the reservation of its key. */
  ghost predicate EntrantsOwn(s: System) {
    forall t :: t in s.runners ==>
      && t in s.started
      && s.runners[t].key in s.gate.cancels
      && s.runners[t].key in s.owners && s.owners[s.runners[t].key] == t
  }

  ghost predicate Owned(s: System) {
    EntrantsOwn(s) && Reserved(s)
  }

  lemma OwnedStep(s: System, a: Action)
    requires Owned(s) && LeavesReservations(s, a)
    ensures Owned(Step(s, a))
  {
    match a
    case CancelTake(t, key) =>
      forall u | u in s.runners ensures s.runners[u].key != key {}
    case _ =>
  }

  /** Even of those admitted but not yet running there is at most one per key. */
  lemma OwnersAreAlone(s: System, t: Task, u: Task)
    requires Owned(s) && t in s.runners && u in s.runners && s.runners[t].key == s.runners[u].key
    ensures t == u
  {
  }

  lemma OwnersFlyAlone(s: System)
    requires Owned(s)
    ensures SingleFlight(s)
  {
    forall t, u, key | RunsOn(s, t, key) && RunsOn(s, u, key) ensures t == u {
      OwnersAreAlone(s, t, u);
    }
  }

  /** The intended protocol keeps single flight: as long as nobody cancels a key that has been entered and a
      reserved entry is made only by the one who reserved, at most one turn per key runs, in every
      interleaving, each under its own reservation; a caller turned away changes nothing. */
  lemma {:induction false} OneTurnPerKey(actions: seq<Action>)
    requires Orderly(INIT, actions)
    ensures var s := Run(INIT, actions); SingleFlight(s) && Owned(s)
  {
    if actions != [] {
      var n := |actions| - 1;
      forall k | 0 <= k < n ensures LeavesReservations(Run(INIT, actions[..n][..k]), actions[..n][k]) {
        assert actions[..n][..k] == actions[..k];
      }
      OneTurnPerKey(actions[..n]);
      OwnedStep(Run(INIT, actions[..n]), actions[n]);
    }
    OwnersFlyAlone(Run(INIT, actions));
  }

  /** The two ways a second turn of a key gets in: a fresh `execute` while the running turn's reservation is
      gone, or an admitted reserved entry, whoever the reservation belongs to. */
  ghost predicate LetsSecondIn(s: System, a: Action) {
    match a
    case Execute(t, key) => t !in s.started && key !in s.gate.cancels && exists u :: RunsOn(s, u, key)
    case EnterReserved(t) => t in s.runners && s.runners[t].Admitted? && exists u :: RunsOn(s, u, s.runners[t].key)
    case _ => false
  }

  /** These are exactly the steps that break single flight. */
  lemma BreaksSingleFlightIff(s: System, a: Action)
    requires SingleFlight(s) && s.runners.Keys <= s.started
    ensures !SingleFlight(Step(s, a)) <==> LetsSecondIn(s, a)
  {
    var after := Step(s, a);
    if LetsSecondIn(s, a) {
      var key := if a.Execute? then a.key else s.runners[a.t].key;
      var u :| RunsOn(s, u, key);
      assert RunsOn(after, u, key) && RunsOn(after, a.t, key);
    } else {
      NoSecondGetsIn(s, a);
    }
  }

  /** Any other step adds no running turn, or the only one of its key. */
  lemma NoSecondGetsIn(s: System, a: Action)
    requires SingleFlight(s) && s.runners.Keys <= s.started && !LetsSecondIn(s, a)
    ensures SingleFlight(Step(s, a))
  {
    var after := Step(s, a);
    forall t, u, key | RunsOn(after, t, key) && RunsOn(after, u, key) ensures t == u {
      if !RunsOn(s, t, key) { RunsAfter(s, a, t, key); }
      if !RunsOn(s, u, key) { RunsAfter(s, a, u, key); }
    }
  }

  /** Who runs after a step: who ran before, and a newcomer at most. */
  lemma RunsAfter(s: System, a: Action, t: Task, key: Key)
    requires RunsOn(Step(s, a), t, key) && !RunsOn(s, t, key)
    ensures (a.Execute? && a.t == t && a.key == key && t !in s.started && key !in s.gate.cancels)
         || (a.EnterReserved? && a.t == t && t in s.runners && s.runners[t] == Admitted(key))
  {
  }

  /** At most one turn per key, after each of the actions. */
  ghost predicate AlwaysSingle(actions: seq<Action>) {
    SingleFlight(Run(INIT, actions)) && (actions != [] ==> AlwaysSingle(actions[..|actions| - 1]))
  }

  /** None of the actions lets a second turn in at its time. */
  ghost predicate NeverLetsSecondIn(actions: seq<Action>) {
    actions != [] ==>
      var n := |actions| - 1;
      !LetsSecondIn(Run(INIT, actions[..n]), actions[n]) && NeverLetsSecondIn(actions[..n])
  }

  /** Over whole runs: at most one turn per key runs at every moment exactly when no step lets a second
      one in. */
  lemma {:induction false} SingleFlightIff(actions: seq<Action>)
    ensures AlwaysSingle(actions) <==> NeverLetsSecondIn(actions)
  {
    if actions == [] {
      assert SingleFlight(INIT);
    } else {
      var n := |actions| - 1;
      var s := Run(INIT, actions[..n]);
      SingleFlightIff(actions[..n]);
      CancellersHaveStarted(actions[..n]);
      if SingleFlight(s) {
        BreaksSingleFlightIff(s, actions[n]);
      }
    }
  }

  function ReservedScript(key: Key): seq<Action> {
    [Execute(0, key), CheckReserved(1, key), EnterReserved(1)]
  }

  /** Without any cancel: a reserved entry beside a plain one. `execute_reserved` only asks whether the key is
      reserved, and the reservation it finds is the running turn's own. */
  lemma ReservedEntryBreaksSingleFlight(key: Key)
    ensures !SingleFlight(Run(INIT, ReservedScript(key)))
    ensures key in Run(INIT, ReservedScript(key)).gate.cancels
  {
    var one := System(Gate(map[key := 0], map[]), map[key := 0], map[0 := Running(key, 0)], map[], {0}, 1, []);
    var admitted := one.(runners := map[0 := Running(key, 0), 1 := Admitted(key)], started := {0, 1});
    RunExtends(INIT, [], Execute(0, key));
    RunExtends(INIT, [Execute(0, key)], CheckReserved(1, key));
    RunExtends(INIT, [Execute(0, key), CheckReserved(1, key)], EnterReserved(1));
    assert [] + [Execute(0, key)] == [Execute(0, key)];
    assert [Execute(0, key)] + [CheckReserved(1, key)] == [Execute(0, key), CheckReserved(1, key)];
    assert [Execute(0, key), CheckReserved(1, key)] + [EnterReserved(1)] == ReservedScript(key);
    assert Step(INIT, Execute(0, key)) == one;
    assert Step(one, CheckReserved(1, key)) == admitted;
    var both := Step(admitted, EnterReserved(1));
    assert RunsOn(both, 0, key) && RunsOn(both, 1, key);
  }

  function CancelledScript(key: Key): seq<Action> {
    [Execute(0, key), CancelTake(1, key), Execute(2, key)]
  }

  /** Two turns of one key: the cancelled one has not noticed yet. */
  function TwoRunning(key: Key): System {
    System(Gate(map[key := 1], map[]), map[key := 2], map[0 := Running(key, 0), 2 := Running(key, 1)],
           map[1 := CallingLocal(0)], {0, 1, 2}, 2, [Took(1, Some(0), None)])
  }

  lemma CancelledScriptRuns(key: Key)
    ensures Run(INIT, CancelledScript(key)) == TwoRunning(key)
  {
    var one := System(Gate(map[key := 0], map[]), map[key := 0], map[0 := Running(key, 0)], map[], {0}, 1, []);
    var cancelled := one.(gate := EMPTY, owners := map[], started := {0, 1}, cancellers := map[1 := CallingLocal(0)],
                          log := [Took(1, Some(0), None)]);
    RunExtends(INIT, [], Execute(0, key));
    assert [] + [Execute(0, key)] == [Execute(0, key)];
    assert Step(INIT, Execute(0, key)) == one;
    assert [Execute(0, key)] + [CancelTake(1, key)] == [Execute(0, key), CancelTake(1, key)];
    assert [Execute(0, key), CancelTake(1, key)] + [Execute(2, key)] == CancelledScript(key);
    RunExtends(INIT, [Execute(0, key)], CancelTake(1, key));
    assert Clear(one.gate, key) == EMPTY;
    assert Step(one, CancelTake(1, key)) == cancelled;
    RunExtends(INIT, [Execute(0, key), CancelTake(1, key)], Execute(2, key));
    assert Step(cancelled, Execute(2, key)) == TwoRunning(key);
  }

  /** Cancelling does break it: the cancelled turn is still running when the next one starts, and when it
      finishes it releases the other's reservation, which lets a third one in without any more cancels. */
  lemma CancelBreaksSingleFlight(key: Key)
    ensures !SingleFlight(Run(INIT, CancelledScript(key)))
    ensures !SingleFlight(Run(INIT, CancelledScript(key) + [Finish(0), Execute(3, key)]))
  {
    CancelledScriptRuns(key);
    var s := TwoRunning(key);
    assert RunsOn(s, 0, key) && RunsOn(s, 2, key);
    var script := CancelledScript(key);
    RunExtends(INIT, script, Finish(0));
    RunExtends(INIT, script + [Finish(0)], Execute(3, key));
    assert script + [Finish(0), Execute(3, key)] == script + [Finish(0)] + [Execute(3, key)];
    var finished := Step(s, Finish(0));
    assert RunsOn(finished, 2, key) && key !in finished.gate.cancels;
    var third := Step(finished, Execute(3, key));
    assert RunsOn(third, 2, key) && RunsOn(third, 3, key);
  }

  lemma RunExtends(s: System, actions: seq<Action>, a: Action)
    ensures Run(s, actions + [a]) == Step(Run(s, actions), a)
    ensures Run(s, []) == s
  {
    assert (actions + [a])[..|actions|] == actions;
  }
}
