/** Correlated calls over one socket, against disconnection (src/client.rs). Each action is one
    lock-protected step of some task, so a sequence of actions is one interleaving. */
module RpcMux {
  import opened Options

  type Id = string

  datatype Kind = Request | Subscribe

  /** What a waiter's one-shot channel carries: the frame that answered, or the disconnect error. */
  datatype Reply = Answer(frame: nat) | Disconnected

  datatype Channel = Empty | Filled(reply: Reply) | Abandoned

  datatype Result = Replied(reply: Reply) | SendError | WaiterDropped | TimedOut

  /** A call between its lock-protected steps. */
  datatype Stage = Inserted | SendRejected | Awaiting | TimingOut | Settled(result: Result)

  datatype Call = Call(kind: Kind, stage: Stage, channel: Channel)

  /** `waiters` is the key set of the waiter map; `drains` counts disconnects that have taken the write
      side away but not yet failed the waiters; `drained` says that waiters were failed since the write
      side was last open. Response frames are numbered in the order of `routed`, which keeps their ids. */
  datatype Mux = Mux(
    calls: map<Id, Call>,
    waiters: set<Id>,
    writeOpen: bool,
    drains: nat,
    drained: bool,
    routed: seq<Id>,
    handed: map<nat, Id>,
    queued: set<nat>,
    settled: seq<Id>)

  const INIT := Mux(map[], {}, false, 0, false, [], map[], {}, [])

  datatype Action =
    | Begin(id: Id, kind: Kind)
    | Send(id: Id, accepted: bool)
    | Cleanup(id: Id)
    | Receive(id: Id)
    | Expire(id: Id)
    | Forget(id: Id)
    | Route(id: Id)
    | DropWrite
    | TakeWrite
    | Drain
    | ClearWaiters
    | Connect

  function Settle(s: Mux, id: Id, result: Result): Mux
    requires id in s.calls
  {
    s.(calls := s.calls[id := s.calls[id].(stage := Settled(result))], settled := s.settled + [id])
  }

  function Advance(s: Mux, id: Id, stage: Stage): Mux
    requires id in s.calls
  {
    s.(calls := s.calls[id := s.calls[id].(stage := stage)])
  }

  /** Removes a waiter. Dropping its sender abandons the channel. */
  function RemoveWaiter(s: Mux, id: Id): Mux {
    if id in s.waiters && id in s.calls then
      s.(waiters := s.waiters - {id}, calls := s.calls[id := s.calls[id].(channel := Abandoned)])
    else s
  }

  /** Every registered channel gets the same content, and no waiter is left. */
  function EmptyWaiters(s: Mux, content: Channel): Mux {
    s.(waiters := {},
       calls := map id | id in s.calls :: if id in s.waiters then s.calls[id].(channel := content) else s.calls[id])
  }

  predicate At(s: Mux, id: Id, stage: Stage) {
    id in s.calls && s.calls[id].stage == stage
  }

  /** One step; an action that is not possible in `s` changes nothing. */
  function Step(s: Mux, a: Action): Mux {
    match a
    case Begin(id, kind) =>
      if id in s.calls then s
      else s.(calls := s.calls[id := Call(kind, Inserted, Empty)], waiters := s.waiters + {id})
    case Send(id, accepted) =>
      if !At(s, id, Inserted) then s
      else if s.writeOpen && accepted then Advance(s, id, Awaiting)
      else if s.calls[id].kind.Request? then Advance(s, id, SendRejected)
      else Settle(s, id, SendError)
    case Cleanup(id) =>
      if At(s, id, SendRejected) then Settle(RemoveWaiter(s, id), id, SendError) else s
    case Receive(id) =>
      if !At(s, id, Awaiting) then s
      else
        (match s.calls[id].channel
         case Filled(reply) => Settle(s, id, Replied(reply))
         case Abandoned => if s.calls[id].kind.Request? then Settle(s, id, WaiterDropped) else Advance(s, id, TimingOut)
         case Empty => s)
    case Expire(id) =>
      if At(s, id, Awaiting) && s.calls[id].channel.Empty? then Advance(s, id, TimingOut) else s
    case Forget(id) =>
      if At(s, id, TimingOut) then Settle(RemoveWaiter(s, id), id, TimedOut) else s
    case Route(id) =>
      var n := |s.routed|;
      var arrived := s.(routed := s.routed + [id]);
      if id in s.waiters && id in s.calls then
        arrived.(waiters := s.waiters - {id},
                 calls := s.calls[id := s.calls[id].(channel := Filled(Answer(n)))],
                 handed := s.handed[n := id])
      else arrived.(queued := s.queued + {n})
    case DropWrite => s.(writeOpen := false)
    case TakeWrite => s.(writeOpen := false, drains := s.drains + 1)
    case Drain =>
      if s.drains == 0 then s
      else EmptyWaiters(s.(drains := s.drains - 1, drained := !s.writeOpen), Filled(Disconnected))
    case ClearWaiters => EmptyWaiters(s, Abandoned)
    case Connect => s.(writeOpen := true, drained := false)
  }

  function Run(s: Mux, actions: seq<Action>): Mux {
    if actions == [] then s else Step(Run(s, actions[..|actions| - 1]), actions[|actions| - 1])
  }

  // ----- Invariants -----

  /** A channel is empty exactly as long as its sender sits in the waiter map. */
  ghost predicate ChannelsTracked(s: Mux) {
    && s.waiters <= s.calls.Keys
    && forall id :: id in s.calls ==> (s.calls[id].channel.Empty? <==> id in s.waiters)
  }

  /** The frame a call was answered with, if any. */
  function AnswerOf(s: Mux, id: Id): Option<nat> {
    if id in s.calls && s.calls[id].channel.Filled? && s.calls[id].channel.reply.Answer?
    then Some(s.calls[id].channel.reply.frame) else None
  }

  /** Every routed frame went to exactly one place: to the call whose id it carries, or to the queue. */
  ghost predicate FramesTracked(s: Mux) {
    && (forall n :: 0 <= n < |s.routed| ==> (n in s.handed <==> n !in s.queued))
    && (forall n :: n in s.queued ==> n < |s.routed|)
    && (forall n :: n in s.handed ==> n < |s.routed| && s.handed[n] == s.routed[n])
    && (forall n :: n in s.handed ==> AnswerOf(s, s.handed[n]) == Some(n))
    && (forall id :: AnswerOf(s, id).Some? ==>
          AnswerOf(s, id).value in s.handed && s.handed[AnswerOf(s, id).value] == id)
  }

  /** Settling is logged once per settled call, and a reply comes from the call's own channel. */
  ghost predicate SettlementsTracked(s: Mux) {
    && (forall i, j :: 0 <= i < j < |s.settled| ==> s.settled[i] != s.settled[j])
    && (forall id :: id in s.settled <==> id in s.calls && s.calls[id].stage.Settled?)
    && (forall id :: id in s.calls && s.calls[id].stage.Settled? && s.calls[id].stage.result.Replied? ==>
          s.calls[id].channel == Filled(s.calls[id].stage.result.reply))
  }

  /** A waiter that may outlive the drain: its own send has not failed yet, or it failed and the call is
      about to remove it; only a subscription gives up without removing it. */
  predicate MayLinger(c: Call) {
    c.stage == Inserted || c.stage == SendRejected || (c.kind.Subscribe? && c.stage == Settled(SendError))
  }

  ghost predicate DrainTracked(s: Mux) {
    s.drained ==> !s.writeOpen && forall id :: id in s.waiters ==> id in s.calls && MayLinger(s.calls[id])
  }

  ghost predicate Inv(s: Mux) {
    ChannelsTracked(s) && FramesTracked(s) && SettlementsTracked(s) && DrainTracked(s)
  }

  lemma ChannelsStep(s: Mux, a: Action)
    requires ChannelsTracked(s)
    ensures ChannelsTracked(Step(s, a))
  {
  }

  lemma FramesStep(s: Mux, a: Action)
    requires ChannelsTracked(s) && FramesTracked(s)
    ensures FramesTracked(Step(s, a))
  {
    if a.Route? {
      RouteKeepsFrames(s, a.id);
    } else {
      forall id ensures AnswerOf(Step(s, a), id) == AnswerOf(s, id) {
        AnswersStay(s, a, id);
      }
      LedgersStay(s, a);
      SameAnswersKeepFrames(s, Step(s, a));
    }
  }

  lemma LedgersStay(s: Mux, a: Action)
    requires !a.Route?
    ensures var t := Step(s, a); t.routed == s.routed && t.handed == s.handed && t.queued == s.queued
  {
  }

  lemma SameAnswersKeepFrames(s: Mux, t: Mux)
    requires FramesTracked(s) && t.routed == s.routed && t.handed == s.handed && t.queued == s.queued
    requires forall id :: AnswerOf(t, id) == AnswerOf(s, id)
    ensures FramesTracked(t)
  {
  }

  /** Only routing answers a call, and nothing takes an answer back. */
  lemma AnswersStay(s: Mux, a: Action, id: Id)
    requires ChannelsTracked(s) && !a.Route?
    ensures AnswerOf(Step(s, a), id) == AnswerOf(s, id)
  {
  }

  lemma RouteKeepsFrames(s: Mux, id: Id)
    requires ChannelsTracked(s) && FramesTracked(s)
    ensures FramesTracked(Step(s, Route(id)))
  {
    var n, t := |s.routed|, Step(s, Route(id));
    forall other ensures AnswerOf(t, other) == if other == id && id in s.waiters then Some(n) else AnswerOf(s, other) {
      AnswerAfterRoute(s, id, other);
    }
    if id in s.waiters {
      HandingOverKeepsFrames(s, t, id);
    } else {
      QueueingKeepsFrames(s, t, id);
    }
  }

  lemma HandingOverKeepsFrames(s: Mux, t: Mux, id: Id)
    requires FramesTracked(s) && AnswerOf(s, id).None?
    requires t.routed == s.routed + [id] && t.handed == s.handed[|s.routed| := id] && t.queued == s.queued
    requires forall other :: AnswerOf(t, other) == if other == id then Some(|s.routed|) else AnswerOf(s, other)
    ensures FramesTracked(t)
  {
    assert |s.routed| !in s.handed && |s.routed| !in s.queued;
  }

  lemma QueueingKeepsFrames(s: Mux, t: Mux, id: Id)
    requires FramesTracked(s)
    requires t.routed == s.routed + [id] && t.handed == s.handed && t.queued == s.queued + {|s.routed|}
    requires forall other :: AnswerOf(t, other) == AnswerOf(s, other)
    ensures FramesTracked(t)
  {
    assert |s.routed| !in s.handed && |s.routed| !in s.queued;
  }

  lemma AnswerAfterRoute(s: Mux, id: Id, other: Id)
    requires ChannelsTracked(s)
    ensures AnswerOf(Step(s, Route(id)), other)
         == if other == id && id in s.waiters then Some(|s.routed|) else AnswerOf(s, other)
  {
  }

  lemma SettleOnce(s: Mux, id: Id, result: Result)
    requires SettlementsTracked(s) && id in s.calls && !s.calls[id].stage.Settled?
    requires result.Replied? ==> s.calls[id].channel == Filled(result.reply)
    ensures SettlementsTracked(Settle(s, id, result))
  {
    assert id !in s.settled;
  }

  lemma RemoveKeepsSettlements(s: Mux, id: Id)
    requires SettlementsTracked(s) && ChannelsTracked(s)
    ensures SettlementsTracked(RemoveWaiter(s, id))
  {
  }

  lemma SettlementsStep(s: Mux, a: Action)
    requires ChannelsTracked(s) && SettlementsTracked(s)
    ensures SettlementsTracked(Step(s, a))
  {
    match a
    case Send(id, _) =>
      if At(s, id, Inserted) { SettleOnce(s, id, SendError); }
    case Cleanup(id) =>
      if At(s, id, SendRejected) {
        RemoveKeepsSettlements(s, id);
        SettleOnce(RemoveWaiter(s, id), id, SendError);
      }
    case Receive(id) => ReceiveKeepsSettlements(s, id);
    case Forget(id) =>
      if At(s, id, TimingOut) {
        RemoveKeepsSettlements(s, id);
        SettleOnce(RemoveWaiter(s, id), id, TimedOut);
      }
    case _ => UnsettlingStep(s, a);
  }

  lemma ReceiveKeepsSettlements(s: Mux, id: Id)
    requires SettlementsTracked(s)
    ensures SettlementsTracked(Step(s, Receive(id)))
  {
    if At(s, id, Awaiting) {
      if s.calls[id].channel.Filled? {
        SettleOnce(s, id, Replied(s.calls[id].channel.reply));
      } else {
        SettleOnce(s, id, WaiterDropped);
      }
    }
  }

  lemma UnsettlingStep(s: Mux, a: Action)
    requires ChannelsTracked(s) && SettlementsTracked(s)
    requires !a.Send? && !a.Cleanup? && !a.Receive? && !a.Forget?
    ensures SettlementsTracked(Step(s, a))
  {
  }

  lemma DrainStep(s: Mux, a: Action)
    requires ChannelsTracked(s) && DrainTracked(s)
    ensures DrainTracked(Step(s, a))
  {
  }

  lemma {:induction false} InvHolds(actions: seq<Action>)
    ensures Inv(Run(INIT, actions))
  {
    if actions != [] {
      var s, a := Run(INIT, actions[..|actions| - 1]), actions[|actions| - 1];
      InvHolds(actions[..|actions| - 1]);
      ChannelsStep(s, a);
      FramesStep(s, a);
      SettlementsStep(s, a);
      DrainStep(s, a);
    }
  }

  // ----- What callers can rely on -----

  lemma StepKeepsResult(s: Mux, a: Action, id: Id)
    requires id in s.calls && s.calls[id].stage.Settled?
    ensures id in Step(s, a).calls && Step(s, a).calls[id].stage == s.calls[id].stage
  {
  }

  /** A call settles at most once, and its result never changes afterwards, in any interleaving. */
  lemma {:induction false} SettlesAtMostOnce(actions: seq<Action>, more: seq<Action>, id: Id)
    ensures multiset(Run(INIT, actions).settled)[id] <= 1
    ensures var s := Run(INIT, actions);
            id in s.calls && s.calls[id].stage.Settled? ==>
              id in Run(s, more).calls && Run(s, more).calls[id].stage == s.calls[id].stage
  {
    InvHolds(actions);
    NoDuplicates(Run(INIT, actions).settled, id);
    if more != [] {
      SettlesAtMostOnce(actions, more[..|more| - 1], id);
      var s := Run(INIT, actions);
      if id in s.calls && s.calls[id].stage.Settled? {
        StepKeepsResult(Run(s, more[..|more| - 1]), more[|more| - 1], id);
      }
    }
  }

  lemma {:induction false} NoDuplicates(ids: seq<Id>, id: Id)
    requires forall i, j :: 0 <= i < j < |ids| ==> ids[i] != ids[j]
    ensures multiset(ids)[id] <= 1
  {
    if ids != [] {
      var n := |ids| - 1;
      assert ids == ids[..n] + [ids[n]];
      NoDuplicates(ids[..n], id);
      if ids[n] == id {
        assert id !in ids[..n];
      }
    }
  }

  /** Two frames never go to the same call. */
  ghost predicate EachCallHasOneFrame(s: Mux) {
    forall m, n :: m in s.handed && n in s.handed && s.handed[m] == s.handed[n] ==> m == n
  }

  /** A call that returned an answer returned the frame it was handed. */
  ghost predicate RepliesWereHanded(s: Mux) {
    forall id, n :: id in s.calls && s.calls[id].stage == Settled(Replied(Answer(n))) ==>
      n in s.handed && s.handed[n] == id
  }

  /** A response frame is handed to the one call with its id or queued, never both and never neither;
      two frames never answer the same call; and an answered call was answered by the frame it was handed. */
  lemma FramesGoToOnePlace(actions: seq<Action>)
    ensures var s := Run(INIT, actions);
            && (forall n :: 0 <= n < |s.routed| ==> (n in s.handed <==> n !in s.queued))
            && (forall n :: n in s.handed ==> n < |s.routed| && s.handed[n] == s.routed[n])
            && EachCallHasOneFrame(s) && RepliesWereHanded(s)
  {
    InvHolds(actions);
    AnswersAreHandedOver(Run(INIT, actions));
  }

  lemma AnswersAreHandedOver(s: Mux)
    requires FramesTracked(s) && SettlementsTracked(s)
    ensures EachCallHasOneFrame(s) && RepliesWereHanded(s)
  {
    forall m, n | m in s.handed && n in s.handed && s.handed[m] == s.handed[n] ensures m == n {
      assert AnswerOf(s, s.handed[m]) == Some(m) && AnswerOf(s, s.handed[n]) == Some(n);
    }
    forall id, n | id in s.calls && s.calls[id].stage == Settled(Replied(Answer(n)))
      ensures n in s.handed && s.handed[n] == id
    {
      assert AnswerOf(s, id) == Some(n);
    }
  }

  /** Once a disconnect has failed the waiters and nobody has reconnected: no call that was sent is left
      waiting on an empty channel, and the only requests still in the map have not been sent. */
  lemma NoCallHangsAfterDrain(actions: seq<Action>)
    requires Run(INIT, actions).drained
    ensures var s := Run(INIT, actions);
            && (forall id :: id in s.calls && s.calls[id].stage == Awaiting ==> !s.calls[id].channel.Empty?)
            && (forall id :: id in s.waiters && id in s.calls && s.calls[id].kind.Request? ==>
                  s.calls[id].stage == Inserted || s.calls[id].stage == SendRejected)
  {
    InvHolds(actions);
  }

  /** Such a request's own next steps fail its send and take its waiter out again. */
  lemma LateRequestLeaves(actions: seq<Action>, id: Id, accepted: bool)
    requires var s := Run(INIT, actions); s.drained && id in s.waiters && id in s.calls && s.calls[id].kind.Request?
    ensures var s := Run(INIT, actions);
            var t := Step(Step(s, Send(id, accepted)), Cleanup(id));
            At(t, id, Settled(SendError)) && t.waiters == s.waiters - {id}
  {
    InvHolds(actions);
    var s := Run(INIT, actions);
    assert MayLinger(s.calls[id]);
  }

  /** A subscription is different: when its send fails it settles without taking its waiter out, so the
      map keeps an entry that no step of its own will ever remove. */
  lemma SubscriptionLeavesItsWaiter(id: Id)
    ensures var s := Run(INIT, [TakeWrite, Drain, Begin(id, Subscribe), Send(id, true)]);
            && s.drained && id in s.waiters && At(s, id, Settled(SendError))
            && forall a :: a in {Send(id, true), Send(id, false), Cleanup(id), Receive(id), Expire(id), Forget(id)} ==>
                 Step(s, a) == s
  {
    var actions := [TakeWrite, Drain, Begin(id, Subscribe), Send(id, true)];
    assert actions[..3] == [TakeWrite, Drain, Begin(id, Subscribe)];
    assert actions[..3][..2] == [TakeWrite, Drain];
    assert actions[..3][..2][..1] == [TakeWrite];
    assert [TakeWrite][..0] == [];
    var s1 := Step(INIT, TakeWrite);
    var s2 := Step(s1, Drain);
    var s3 := Step(s2, Begin(id, Subscribe));
    assert Run(INIT, [TakeWrite]) == s1;
    assert Run(INIT, [TakeWrite, Drain]) == s2;
    assert Run(INIT, actions[..3]) == s3;
    assert s3.calls[id] == Call(Subscribe, Inserted, Empty) && !s3.writeOpen;
    assert Run(INIT, actions) == Settle(s3, id, SendError);
  }
}
