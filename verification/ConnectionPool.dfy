/** The connection pool's slot accounting (src/appkit/pool.rs). */
module ConnectionPool {

  type SessionId = string
  type Task = nat

  // ----- The state behind the lock -----

  /** Sessions with a checked-out connection, the length of the idle channel, the counter that mirrors
      it, and the channel's capacity. */
  datatype Shared = Shared(active: set<SessionId>, idle: nat, idleCount: nat, size: nat)

  const DEFAULT_POOL_SIZE := 1000

  function Fresh(configured: nat): Shared {
    var size := if configured == 0 then DEFAULT_POOL_SIZE else configured;
    Shared({}, size, size, size)
  }

  function SaturatingDec(n: nat): nat {
    if n == 0 then 0 else n - 1
  }

  /** `try_recv` on the idle channel; nothing happens when it is empty. */
  function TakeIdle(sh: Shared): Shared {
    if sh.idle == 0 then sh else sh.(idle := sh.idle - 1, idleCount := SaturatingDec(sh.idleCount))
  }

  /** `try_send` of a fresh slot; a full channel refuses it. */
  function ReturnSlot(sh: Shared): Shared {
    if sh.idle < sh.size then sh.(idle := sh.idle + 1, idleCount := sh.idleCount + 1) else sh
  }

  class PoolState {
    var active: set<SessionId>
    var idle: nat
    var idleCount: nat
    const size: nat

    function View(): Shared
      reads this
    {
      Shared(active, idle, idleCount, size)
    }

    constructor (configured: nat)
      ensures View() == Fresh(configured)
    {
      var n := if configured == 0 then DEFAULT_POOL_SIZE else configured;
      size, active, idle, idleCount := n, {}, n, n;
    }

    method TryTakeIdle() returns (ok: bool)
      modifies this
      ensures View() == TakeIdle(old(View())) && ok == (old(idle) > 0)
    {
      ok := idle > 0;
      if ok {
        idle := idle - 1;
        idleCount := SaturatingDec(idleCount);
      }
    }

    method TryReturnSlot() returns (ok: bool)
      modifies this
      ensures View() == ReturnSlot(old(View())) && ok == (old(idle) < size)
    {
      ok := idle < size;
      if ok {
        idle := idle + 1;
        idleCount := idleCount + 1;
      }
    }

    method RemoveActive(s: SessionId) returns (found: bool)
      modifies this
      ensures View() == old(View()).(active := old(active) - {s}) && found == (s in old(active))
    {
      found := s in active;
      active := active - {s};
    }

    method InsertActive(s: SessionId)
      modifies this
      ensures View() == old(View()).(active := old(active) + {s})
    {
      active := active + {s};
    }

    /** `stop` with nobody else around: every connection goes, and both counters reach zero together. */
    method Stop()
      requires idleCount == idle
      modifies this
      ensures View() == Shared({}, 0, 0, size)
    {
      active := {};
      var more := true;
      while more
        invariant active == {} && idleCount == idle
        invariant !more ==> idle == 0
        decreases more, idle
      {
        more := TryTakeIdle();
      }
    }
  }

  // ----- All interleavings -----

  /** Where a task stands between two lock-protected steps of `acquire` or `release`. */
  datatype Pc =
    | Removing(session: SessionId, next: Next)
    | Closing(session: SessionId, next: Next)
    | Taking(session: SessionId)
    | Holding(session: SessionId)

  /** After a release step: an acquire that replaces a dead connection goes on to take a slot. */
  datatype Next = ThenTake | ThenReturn

  datatype Pool = Pool(shared: Shared, tasks: map<Task, Pc>)

  datatype Action =
    | BeginAcquire(t: Task, session: SessionId, usable: bool)
    | BeginRelease(t: Task, session: SessionId)
    | Remove(t: Task)
    | GiveBack(t: Task)
    | Take(t: Task)
    | ConnectFails(t: Task)
    | BootstrapFails(t: Task)
    | Insert(t: Task)
    | StopActive
    | StopIdle

  function Done(p: Pool, t: Task): Pool {
    p.(tasks := p.tasks - {t})
  }

  function GoTo(p: Pool, t: Task, pc: Pc): Pool {
    p.(tasks := p.tasks[t := pc])
  }

  function Follow(p: Pool, t: Task, session: SessionId, next: Next): Pool {
    if next.ThenTake? then GoTo(p, t, Taking(session)) else Done(p, t)
  }

  /** One step; an action that is not possible in `p` changes nothing. */
  function Step(p: Pool, a: Action): Pool {
    match a
    case BeginAcquire(t, session, usable) =>
      if t in p.tasks then p
      else if session !in p.shared.active then GoTo(p, t, Taking(session))
      else if usable then p
      else GoTo(p, t, Removing(session, ThenTake))
    case BeginRelease(t, session) =>
      if t in p.tasks then p else GoTo(p, t, Removing(session, ThenReturn))
    case Remove(t) =>
      if t in p.tasks && p.tasks[t].Removing? then
        var Removing(session, next) := p.tasks[t];
        if session in p.shared.active then
          GoTo(p.(shared := p.shared.(active := p.shared.active - {session})), t, Closing(session, next))
        else Follow(p, t, session, next)
      else p
    case GiveBack(t) =>
      if t in p.tasks && p.tasks[t].Closing? then
        var Closing(session, next) := p.tasks[t];
        Follow(p.(shared := ReturnSlot(p.shared)), t, session, next)
      else p
    case Take(t) =>
      if t in p.tasks && p.tasks[t].Taking? then
        if p.shared.idle == 0 then Done(p, t)
        else GoTo(p.(shared := TakeIdle(p.shared)), t, Holding(p.tasks[t].session))
      else p
    case ConnectFails(t) =>
      if t in p.tasks && p.tasks[t].Holding? then Done(p, t) else p
    case BootstrapFails(t) =>
      if t in p.tasks && p.tasks[t].Holding? then
        GoTo(p, t, Removing(p.tasks[t].session, ThenReturn))
      else p
    case Insert(t) =>
      if t in p.tasks && p.tasks[t].Holding? then
        Done(p.(shared := p.shared.(active := p.shared.active + {p.tasks[t].session})), t)
      else p
    case StopActive => p.(shared := p.shared.(active := {}))
    case StopIdle => p.(shared := TakeIdle(p.shared))
  }

  function Init(configured: nat): Pool {
    Pool(Fresh(configured), map[])
  }

  function Run(p: Pool, actions: seq<Action>): Pool {
    if actions == [] then p else Step(Run(p, actions[..|actions| - 1]), actions[|actions| - 1])
  }

  /** Tasks on the way from the idle channel to the active map. */
  function Acquiring(tasks: map<Task, Pc>): set<Task> {
    set t | t in tasks && tasks[t].Holding?
  }

  /** Tasks on the way from the active map back to the idle channel. */
  function Releasing(tasks: map<Task, Pc>): set<Task> {
    set t | t in tasks && tasks[t].Closing?
  }

  /** The slots that are nowhere: neither active nor idle, nor on the way between the two. */
  function Missing(p: Pool): int {
    p.shared.size - |p.shared.active| - p.shared.idle - |Acquiring(p.tasks)| - |Releasing(p.tasks)|
  }

  /** No slot is in two places, and the counter mirrors the channel. */
  predicate Consistent(p: Pool) {
    Missing(p) >= 0 && p.shared.idleCount == p.shared.idle
  }

  /** How many slots go missing in a step: one when an acquire fails after taking a slot, one when its insert
      finds the session active again, and what `stop` closes or drains. */
  function Loses(p: Pool, a: Action): nat {
    match a
    case ConnectFails(t) => if t in p.tasks && p.tasks[t].Holding? then 1 else 0
    case BootstrapFails(t) => if t in p.tasks && p.tasks[t].Holding? then 1 else 0
    case Insert(t) => if t in p.tasks && p.tasks[t].Holding? && p.tasks[t].session in p.shared.active then 1 else 0
    case StopActive => |p.shared.active|
    case StopIdle => if p.shared.idle > 0 then 1 else 0
    case _ => 0
  }

  /** What a step does to the slots: it loses so many, and nothing ever brings one back. */
  predicate Accounts(p: Pool, a: Action, q: Pool) {
    Missing(q) == Missing(p) + Loses(p, a) && q.shared.idleCount == q.shared.idle && q.shared.size == p.shared.size
  }

  lemma OwnersAfterGoTo(tasks: map<Task, Pc>, t: Task, pc: Pc)
    ensures Acquiring(tasks[t := pc]) == if pc.Holding? then Acquiring(tasks) + {t} else Acquiring(tasks) - {t}
    ensures Releasing(tasks[t := pc]) == if pc.Closing? then Releasing(tasks) + {t} else Releasing(tasks) - {t}
  {
  }

  lemma OwnersAfterDone(tasks: map<Task, Pc>, t: Task)
    ensures Acquiring(tasks - {t}) == Acquiring(tasks) - {t}
    ensures Releasing(tasks - {t}) == Releasing(tasks) - {t}
  {
  }

  /** A task between its lookups owns no slot, and owns one while it closes a connection. */
  lemma RemoverMovesOn(tasks: map<Task, Pc>, t: Task, session: SessionId, next: Next)
    requires t in tasks && (tasks[t].Removing? || tasks[t].Taking?)
    ensures var closing := tasks[t := Closing(session, next)];
            Acquiring(closing) == Acquiring(tasks) && |Releasing(closing)| == |Releasing(tasks)| + 1
    ensures var taking := tasks[t := Taking(session)];
            Acquiring(taking) == Acquiring(tasks) && Releasing(taking) == Releasing(tasks)
    ensures Acquiring(tasks - {t}) == Acquiring(tasks) && Releasing(tasks - {t}) == Releasing(tasks)
  {
    OwnersAfterGoTo(tasks, t, Closing(session, next));
    OwnersAfterGoTo(tasks, t, Taking(session));
    OwnersAfterDone(tasks, t);
    assert t !in Acquiring(tasks) && t !in Releasing(tasks);
  }

  lemma RemoveAccounts(p: Pool, t: Task)
    requires Consistent(p)
    ensures Accounts(p, Remove(t), Step(p, Remove(t)))
  {
    if t in p.tasks && p.tasks[t].Removing? {
      RemoverMovesOn(p.tasks, t, p.tasks[t].session, p.tasks[t].next);
    }
  }

  /** A task that is giving a slot back always finds room for it. */
  lemma RoomForReturn(p: Pool, t: Task)
    requires Consistent(p) && t in p.tasks && p.tasks[t].Closing?
    ensures p.shared.idle < p.shared.size
  {
    assert t in Releasing(p.tasks);
  }

  lemma GiveBackAccounts(p: Pool, t: Task)
    requires Consistent(p)
    ensures Accounts(p, GiveBack(t), Step(p, GiveBack(t)))
  {
    if t in p.tasks && p.tasks[t].Closing? {
      RoomForReturn(p, t);
      OwnersAfterGoTo(p.tasks, t, Taking(p.tasks[t].session));
      OwnersAfterDone(p.tasks, t);
      assert t in Releasing(p.tasks) && t !in Acquiring(p.tasks);
    }
  }

  lemma TakeAccounts(p: Pool, t: Task)
    requires Consistent(p)
    ensures Accounts(p, Take(t), Step(p, Take(t)))
  {
    if t in p.tasks && p.tasks[t].Taking? {
      OwnersAfterGoTo(p.tasks, t, Holding(p.tasks[t].session));
      OwnersAfterDone(p.tasks, t);
      assert t !in Acquiring(p.tasks) && t !in Releasing(p.tasks);
    }
  }

  /** The slot of a holding task leaves the acquiring ones; nothing else changes hands. */
  lemma HolderLetsGo(tasks: map<Task, Pc>, t: Task)
    requires t in tasks && tasks[t].Holding?
    ensures |Acquiring(tasks - {t})| == |Acquiring(tasks)| - 1
    ensures Releasing(tasks - {t}) == Releasing(tasks)
    ensures var removing := Removing(tasks[t].session, ThenReturn);
            |Acquiring(tasks[t := removing])| == |Acquiring(tasks)| - 1
            && Releasing(tasks[t := removing]) == Releasing(tasks)
  {
    OwnersAfterGoTo(tasks, t, Removing(tasks[t].session, ThenReturn));
    OwnersAfterDone(tasks, t);
    assert t in Acquiring(tasks) && t !in Releasing(tasks);
  }

  lemma HolderAccounts(p: Pool, a: Action)
    requires Consistent(p) && (a.ConnectFails? || a.BootstrapFails? || a.Insert?)
    ensures Accounts(p, a, Step(p, a))
  {
    var t := a.t;
    if t in p.tasks && p.tasks[t].Holding? {
      HolderLetsGo(p.tasks, t);
      var session := p.tasks[t].session;
      assert session in p.shared.active ==> p.shared.active + {session} == p.shared.active;
    }
  }

  lemma BeginAccounts(p: Pool, a: Action)
    requires Consistent(p) && (a.BeginAcquire? || a.BeginRelease?)
    ensures Accounts(p, a, Step(p, a))
  {
    if a.t !in p.tasks {
      OwnersAfterGoTo(p.tasks, a.t, Taking(a.session));
      OwnersAfterGoTo(p.tasks, a.t, Removing(a.session, ThenTake));
      OwnersAfterGoTo(p.tasks, a.t, Removing(a.session, ThenReturn));
      assert a.t !in Acquiring(p.tasks) && a.t !in Releasing(p.tasks);
    }
  }

  lemma StepAccounts(p: Pool, a: Action)
    requires Consistent(p)
    ensures Accounts(p, a, Step(p, a))
  {
    match a
    case BeginAcquire(_, _, _) => BeginAccounts(p, a);
    case BeginRelease(_, _) => BeginAccounts(p, a);
    case Remove(t) => RemoveAccounts(p, t);
    case GiveBack(t) => GiveBackAccounts(p, t);
    case Take(t) => TakeAccounts(p, t);
    case ConnectFails(_) => HolderAccounts(p, a);
    case BootstrapFails(_) => HolderAccounts(p, a);
    case Insert(_) => HolderAccounts(p, a);
    case StopActive =>
    case StopIdle =>
  }

  /** All slots lost on the way. */
  function LossesOf(p: Pool, actions: seq<Action>): nat {
    if actions == [] then 0
    else
      var init := actions[..|actions| - 1];
      LossesOf(p, init) + Loses(Run(p, init), actions[|actions| - 1])
  }

  lemma {:induction false} RunAccounts(p: Pool, actions: seq<Action>)
    requires Consistent(p)
    ensures var q := Run(p, actions);
            Consistent(q) && Missing(q) == Missing(p) + LossesOf(p, actions) && q.shared.size == p.shared.size
  {
    if actions != [] {
      RunAccounts(p, actions[..|actions| - 1]);
      StepAccounts(Run(p, actions[..|actions| - 1]), actions[|actions| - 1]);
    }
  }

  lemma NothingMissingAtFirst(configured: nat)
    ensures Consistent(Init(configured)) && Missing(Init(configured)) == 0
  {
    assert Acquiring(map[]) == {} && Releasing(map[]) == {};
  }

  /** In every interleaving of acquires, releases and stop, each slot is active, idle, being acquired or being
      released, except those lost by failed acquires, overwriting inserts and `stop`; and the idle counter is
      the channel's length. */
  lemma SlotsAreConserved(configured: nat, actions: seq<Action>)
    ensures var p := Run(Init(configured), actions);
            && |p.shared.active| + p.shared.idle + |Acquiring(p.tasks)| + |Releasing(p.tasks)|
               + LossesOf(Init(configured), actions) == Fresh(configured).size
            && p.shared.idleCount == p.shared.idle
            && p.shared.size == Fresh(configured).size
  {
    NothingMissingAtFirst(configured);
    RunAccounts(Init(configured), actions);
  }

  lemma RunIsConsistent(configured: nat, actions: seq<Action>)
    ensures Consistent(Run(Init(configured), actions))
  {
    NothingMissingAtFirst(configured);
    RunAccounts(Init(configured), actions);
  }

  /** So the pool never hands out more than its size, and `release` never finds the channel full. */
  lemma ReleaseAlwaysFindsRoom(configured: nat, actions: seq<Action>, t: Task)
    ensures var p := Run(Init(configured), actions);
            && |p.shared.active| + p.shared.idle <= p.shared.size
            && (t in p.tasks && p.tasks[t].Closing? ==> p.shared.idle < p.shared.size)
  {
    var p := Run(Init(configured), actions);
    RunIsConsistent(configured, actions);
    if t in p.tasks && p.tasks[t].Closing? {
      RoomForReturn(p, t);
    }
  }

  /** From any reachable state on: the number of missing slots grows by exactly what the further steps lose. */
  lemma LossesAreExactlyThese(configured: nat, actions: seq<Action>, more: seq<Action>)
    ensures var p := Run(Init(configured), actions);
            Missing(Run(p, more)) == Missing(p) + LossesOf(p, more)
  {
    RunIsConsistent(configured, actions);
    RunAccounts(Run(Init(configured), actions), more);
  }

  /** A lost slot never comes back. */
  lemma LossesNeverRecover(configured: nat, actions: seq<Action>, more: seq<Action>)
    ensures var p := Run(Init(configured), actions); Missing(Run(p, more)) >= Missing(p) >= 0
  {
    RunIsConsistent(configured, actions);
    LossesAreExactlyThese(configured, actions, more);
  }

  /** Failed acquires wear the pool out for good: once as many slots are missing as it has, no later step of
      anybody ever makes a session active or a slot idle again. */
  lemma WornOutPoolStaysEmpty(configured: nat, actions: seq<Action>, more: seq<Action>)
    requires var p := Run(Init(configured), actions); Missing(p) == p.shared.size
    ensures var q := Run(Run(Init(configured), actions), more); q.shared.active == {} && q.shared.idle == 0
  {
    var p := Run(Init(configured), actions);
    RunIsConsistent(configured, actions);
    RunAccounts(p, more);
    var q := Run(p, more);
    assert |q.shared.active| == 0;
  }

  /** One acquire whose connect fails is enough to wear out a pool of one. */
  lemma OneFailureWearsOutPoolOfOne(t: Task, session: SessionId)
    ensures var p := Run(Init(1), [BeginAcquire(t, session, true), Take(t), ConnectFails(t)]);
            Missing(p) == p.shared.size && p.tasks == map[]
  {
    var actions := [BeginAcquire(t, session, true), Take(t), ConnectFails(t)];
    assert actions[..2] == [BeginAcquire(t, session, true), Take(t)];
    assert actions[..2][..1] == [BeginAcquire(t, session, true)];
    assert [BeginAcquire(t, session, true)][..0] == [];
    var p0 := Init(1);
    var p1 := Step(p0, BeginAcquire(t, session, true));
    var p2 := Step(p1, Take(t));
    assert Run(p0, [BeginAcquire(t, session, true)]) == p1;
    assert Run(p0, actions[..2]) == p2;
    assert p2.shared.idle == 0 && p2.tasks == map[t := Holding(session)];
    assert Acquiring(map[]) == {} && Releasing(map[]) == {};
  }
}
