/** Bounded fan-out to subscribers (src/appkit/broadcaster.rs). */
module Broadcaster {
  import opened Options
  import opened Sequences

  const CAPACITY: nat := 100

  /** One subscriber's channel: what waits in its buffer, what its reader has taken, and everything that
      was broadcast to its key since it subscribed. */
  datatype Channel<E> = Channel(buffer: seq<E>, received: seq<E>, offered: seq<E>, open: bool)

  /** The subscribers of each key. */
  type Hub<K(==), E> = map<K, map<K, Channel<E>>>

  function NewChannel<E>(): Channel<E> {
    Channel([], [], [], true)
  }

  /** `try_send`: a full or closed channel drops the event. */
  function TrySend<E>(c: Channel<E>, e: E): Channel<E> {
    if c.open && |c.buffer| < CAPACITY then c.(buffer := c.buffer + [e], offered := c.offered + [e])
    else c.(offered := c.offered + [e])
  }

  function TakeOne<E>(c: Channel<E>): Channel<E> {
    if c.buffer == [] then c else c.(buffer := c.buffer[1..], received := c.received + [c.buffer[0]])
  }

  function SubscribeTo<K(==), E>(hub: Hub<K, E>, key: K, id: K): Hub<K, E> {
    hub[key := (if key in hub then hub[key] else map[])[id := NewChannel()]]
  }

  function UnsubscribeFrom<K(==), E>(hub: Hub<K, E>, key: K, id: K): Hub<K, E> {
    if key !in hub then hub
    else
      var left := hub[key] - {id};
      if left == map[] then hub - {key} else hub[key := left]
  }

  function BroadcastTo<K(==), E>(hub: Hub<K, E>, key: K, e: E): Hub<K, E> {
    if key !in hub then hub else hub[key := map id | id in hub[key] :: TrySend(hub[key][id], e)]
  }

  class SseBroadcaster<E> {
    var subscribers: Hub<string, E>

    constructor ()
      ensures subscribers == map[]
    {
      subscribers := map[];
    }

    /** `id` stands for the freshly generated subscriber id. */
    method Subscribe(key: string, id: string)
      modifies this
      ensures subscribers == SubscribeTo(old(subscribers), key, id)
    {
      var subs := if key in subscribers then subscribers[key] else map[];
      subscribers := subscribers[key := subs[id := NewChannel()]];
    }

    method Unsubscribe(key: string, id: string)
      modifies this
      ensures subscribers == UnsubscribeFrom(old(subscribers), key, id)
    {
      if key !in subscribers {
        return;
      }
      var left := subscribers[key] - {id};
      if left == map[] {
        subscribers := subscribers - {key};
      } else {
        subscribers := subscribers[key := left];
      }
    }

    /** Offers the event to every subscriber of the key and to nobody else. */
    method Broadcast(key: string, e: E)
      modifies this
      ensures subscribers == BroadcastTo(old(subscribers), key, e)
    {
      if key !in subscribers {
        return;
      }
      var sent := OfferAll(subscribers[key], e);
      subscribers := subscribers[key := sent];
    }

    method Close(key: string)
      modifies this
      ensures subscribers == old(subscribers) - {key}
    {
      subscribers := subscribers - {key};
    }

    method CloseAll()
      modifies this
      ensures subscribers == map[]
    {
      subscribers := map[];
    }
  }

  /** Every channel is offered the event once. */
  method OfferAll<K(==), E>(subs: map<K, Channel<E>>, e: E) returns (sent: map<K, Channel<E>>)
    ensures sent == map id | id in subs :: TrySend(subs[id], e)
  {
    sent := map[];
    var ids := subs.Keys;
    while ids != {}
      invariant ids !! sent.Keys && ids + sent.Keys == subs.Keys
      invariant forall id :: id in sent ==> id in subs && sent[id] == TrySend(subs[id], e)
      decreases |ids|
    {
      var id :| id in ids;
      ids := ids - {id};
      sent := sent[id := TrySend(subs[id], e)];
    }
  }

  // ----- What one subscriber sees -----

  datatype ChannelOp<E> = Offer(e: E) | Take | CloseReader

  function ChannelStep<E>(c: Channel<E>, op: ChannelOp<E>): Channel<E> {
    match op
    case Offer(e) => TrySend(c, e)
    case Take => TakeOne(c)
    case CloseReader => c.(open := false, buffer := [])
  }

  function ChannelRun<E>(ops: seq<ChannelOp<E>>): Channel<E> {
    if ops == [] then NewChannel() else ChannelStep(ChannelRun(ops[..|ops| - 1]), ops[|ops| - 1])
  }

  /** An event was dropped: it was offered to a channel that was full or no longer read. */
  predicate DropsAt<E>(ops: seq<ChannelOp<E>>, k: nat)
    requires k < |ops|
  {
    var c := ChannelRun(ops[..k]);
    ops[k].Offer? && (!c.open || |c.buffer| >= CAPACITY)
  }

  /** A subscriber gets a subsequence of what was broadcast to its key since it subscribed, and never
      has more than the buffer's capacity waiting. */
  lemma {:induction false} ReceivesASubsequence<E>(ops: seq<ChannelOp<E>>)
    ensures var c := ChannelRun(ops);
            IsSubsequence(c.received + c.buffer, c.offered) && |c.buffer| <= 100
  {
    if ops == [] {
      EmptySubsequence<E>([]);
      assert ChannelRun(ops).received + ChannelRun(ops).buffer == [];
    } else {
      ReceivesASubsequence(ops[..|ops| - 1]);
      StepIsSubsequence(ChannelRun(ops[..|ops| - 1]), ops[|ops| - 1]);
    }
  }

  lemma StepIsSubsequence<E>(c: Channel<E>, op: ChannelOp<E>)
    requires IsSubsequence(c.received + c.buffer, c.offered)
    ensures var d := ChannelStep(c, op); IsSubsequence(d.received + d.buffer, d.offered)
  {
    var d := ChannelStep(c, op);
    match op
    case Offer(e) =>
      SubsequenceReflexive([e]);
      EmptySubsequence([e]);
      if d.buffer == c.buffer {
        SubsequenceConcat(c.received + c.buffer, c.offered, [], [e]);
        assert d.received + d.buffer == (c.received + c.buffer) + [];
      } else {
        SubsequenceConcat(c.received + c.buffer, c.offered, [e], [e]);
        assert d.received + d.buffer == (c.received + c.buffer) + [e];
      }
    case Take =>
      assert d.received + d.buffer == c.received + c.buffer;
    case CloseReader =>
      SubsequenceReflexive(c.received);
      EmptySubsequence(c.buffer);
      SubsequenceConcat(c.received, c.received, [], c.buffer);
      assert d.received + d.buffer == c.received + [];
      SubsequenceTransitive(d.received + d.buffer, c.received + c.buffer, c.offered);
  }

  /** A reader that stays misses exactly the events offered while its buffer was full: it gets all of them
      if and only if that never happened. */
  lemma {:induction false} MissesNothingIff<E>(ops: seq<ChannelOp<E>>)
    requires forall i :: 0 <= i < |ops| ==> !ops[i].CloseReader?
    ensures var c := ChannelRun(ops);
            && c.open
            && |c.received + c.buffer| <= |c.offered|
            && (c.received + c.buffer == c.offered <==> forall k :: 0 <= k < |ops| ==> !DropsAt(ops, k))
  {
    if ops != [] {
      var n := |ops| - 1;
      var c := ChannelRun(ops[..n]);
      MissesNothingIff(ops[..n]);
      forall k | 0 <= k < n ensures DropsAt(ops[..n], k) == DropsAt(ops, k) {
        assert ops[..n][..k] == ops[..k];
      }
      var d := ChannelRun(ops);
      if ops[n].Take? {
        assert d.received + d.buffer == c.received + c.buffer;
      } else if !DropsAt(ops, n) {
        assert d.received + d.buffer == (c.received + c.buffer) + [ops[n].e];
        SameEnding(c.received + c.buffer, c.offered, ops[n].e);
      } else {
        assert |d.received + d.buffer| < |d.offered|;
      }
    }
  }

  /** How many events of one kind met a full or abandoned channel. */
  function LossesOf<E>(part: E -> bool, ops: seq<ChannelOp<E>>): nat {
    if ops == [] then 0
    else
      var n := |ops| - 1;
      LossesOf(part, ops[..n]) + if DropsAt(ops, n) && part(ops[n].e) then 1 else 0
  }

  /** The same for any part of the events that share the channel: each of them that meets a full buffer is lost,
      whatever filled it, and no other is; so a reader that stays gets all of them exactly when none did. */
  lemma {:induction false} PartMissesNothingIff<E>(part: E -> bool, ops: seq<ChannelOp<E>>)
    requires forall i :: 0 <= i < |ops| ==> !ops[i].CloseReader?
    ensures var c := ChannelRun(ops);
            var got, offered := Keep(part, c.received + c.buffer), Keep(part, c.offered);
            && c.open
            && |got| + LossesOf(part, ops) == |offered|
            && (got == offered <==> LossesOf(part, ops) == 0)
  {
    if ops != [] {
      var n := |ops| - 1;
      PartMissesNothingIff(part, ops[..n]);
      PartStep(part, ChannelRun(ops[..n]), ops[n], LossesOf(part, ops[..n]));
    }
  }

  lemma PartStep<E>(part: E -> bool, c: Channel<E>, op: ChannelOp<E>, losses: nat)
    requires c.open && !op.CloseReader?
    requires var got, offered := Keep(part, c.received + c.buffer), Keep(part, c.offered);
             |got| + losses == |offered| && (got == offered <==> losses == 0)
    ensures var d := ChannelStep(c, op);
            var got, offered := Keep(part, d.received + d.buffer), Keep(part, d.offered);
            var lost := op.Offer? && part(op.e) && |c.buffer| >= CAPACITY;
            var after := losses + if lost then 1 else 0;
            d.open && |got| + after == |offered| && (got == offered <==> after == 0)
  {
    var d := ChannelStep(c, op);
    match op
    case Take =>
      assert d.received + d.buffer == c.received + c.buffer;
    case Offer(e) =>
      KeepAppend(part, c.offered, e);
      if |c.buffer| < CAPACITY {
        assert d.received + d.buffer == (c.received + c.buffer) + [e];
        KeepAppend(part, c.received + c.buffer, e);
        SameEnding(Keep(part, c.received + c.buffer), Keep(part, c.offered), e);
      }
  }

  lemma SameEnding<E>(a: seq<E>, b: seq<E>, e: E)
    ensures a + [e] == b + [e] <==> a == b
  {
    if a + [e] == b + [e] {
      assert a == (a + [e])[..|a|] && b == (b + [e])[..|b|];
    }
  }

  /** What was offered to a channel, in order. */
  function Offers<E>(ops: seq<ChannelOp<E>>): seq<E> {
    if ops == [] then []
    else
      var last := ops[|ops| - 1];
      Offers(ops[..|ops| - 1]) + if last.Offer? then [last.e] else []
  }

  lemma {:induction false} OfferedIsOffers<E>(ops: seq<ChannelOp<E>>)
    ensures ChannelRun(ops).offered == Offers(ops)
  {
    if ops != [] {
      OfferedIsOffers(ops[..|ops| - 1]);
    }
  }

  /** A reader that left gets nothing more, whatever is still offered. */
  lemma {:induction false} AbsentReaderGetsNothing<E>(ops: seq<ChannelOp<E>>, k: nat)
    requires k < |ops| && ops[k].CloseReader?
    ensures ChannelRun(ops).received == ChannelRun(ops[..k]).received && ChannelRun(ops).buffer == []
    ensures !ChannelRun(ops).open
    decreases |ops|
  {
    var n := |ops| - 1;
    if k < n {
      AbsentReaderGetsNothing(ops[..n], k);
      assert ops[..n][..k] == ops[..k];
    }
  }

  // ----- All subscribers together -----

  /** The broadcaster's own operations, and what the readers at the other ends of the channels do. */
  datatype HubOp<K, E> =
    | Subscribe(key: K, id: K)
    | Unsubscribe(key: K, id: K)
    | Broadcast(key: K, e: E)
    | Close(key: K)
    | CloseAll
    | Read(key: K, id: K, op: ChannelOp<E>)

  predicate IsSubscribed<K(==), E>(hub: Hub<K, E>, key: K, id: K) {
    key in hub && id in hub[key]
  }

  function HubStep<K(==), E>(hub: Hub<K, E>, op: HubOp<K, E>): Hub<K, E> {
    match op
    case Subscribe(key, id) => SubscribeTo(hub, key, id)
    case Unsubscribe(key, id) => UnsubscribeFrom(hub, key, id)
    case Broadcast(key, e) => BroadcastTo(hub, key, e)
    case Close(key) => hub - {key}
    case CloseAll => map[]
    case Read(key, id, read) =>
      if IsSubscribed(hub, key, id) && !read.Offer? then hub[key := hub[key][id := ChannelStep(hub[key][id], read)]]
      else hub
  }

  function HubRun<K(==), E>(ops: seq<HubOp<K, E>>): Hub<K, E> {
    if ops == [] then map[] else HubStep(HubRun(ops[..|ops| - 1]), ops[|ops| - 1])
  }

  /** What one operation means to the subscriber `id` of `key`, if it is subscribed before and after. */
  function OwnOps<K(==), E>(op: HubOp<K, E>, key: K, id: K): seq<ChannelOp<E>> {
    match op
    case Broadcast(k, e) => if k == key then [Offer(e)] else []
    case Read(k, i, read) => if k == key && i == id && !read.Offer? then [read] else []
    case _ => []
  }

  /** What a subscriber has met since it subscribed: the broadcasts to its key and its own reads. */
  function ChannelOps<K(==), E>(ops: seq<HubOp<K, E>>, key: K, id: K): seq<ChannelOp<E>> {
    if ops == [] || ops[|ops| - 1] == Subscribe(key, id) then []
    else ChannelOps(ops[..|ops| - 1], key, id) + OwnOps(ops[|ops| - 1], key, id)
  }

  lemma HubStepChannel<K, E>(hub: Hub<K, E>, op: HubOp<K, E>, key: K, id: K)
    requires IsSubscribed(HubStep(hub, op), key, id) && op != Subscribe(key, id)
    ensures IsSubscribed(hub, key, id)
    ensures var own := OwnOps(op, key, id);
            HubStep(hub, op)[key][id] == if own == [] then hub[key][id] else ChannelStep(hub[key][id], own[0])
  {
  }

  /** In every history, whatever other keys and subscribers do, a subscriber's channel is the run of the
      broadcasts to its key since it subscribed and of its own reads. */
  lemma {:induction false} SubscribersAreIndependent<K, E>(ops: seq<HubOp<K, E>>, key: K, id: K)
    requires IsSubscribed(HubRun(ops), key, id)
    ensures HubRun(ops)[key][id] == ChannelRun(ChannelOps(ops, key, id))
  {
    var init, last := ops[..|ops| - 1], ops[|ops| - 1];
    if last != Subscribe(key, id) {
      HubStepChannel(HubRun(init), last, key, id);
      SubscribersAreIndependent(init, key, id);
      var before, own := ChannelOps(init, key, id), OwnOps(last, key, id);
      if own == [] {
        assert before + own == before;
      } else {
        assert (before + own)[..|before|] == before;
      }
    }
  }

  /** Whether a subscriber is registered, told by the last operation that concerns it. */
  predicate SubscribedBy<K(==), E(==)>(ops: seq<HubOp<K, E>>, key: K, id: K) {
    ops != [] &&
    match ops[|ops| - 1]
    case Subscribe(k, i) => (k == key && i == id) || SubscribedBy(ops[..|ops| - 1], key, id)
    case Unsubscribe(k, i) => !(k == key && i == id) && SubscribedBy(ops[..|ops| - 1], key, id)
    case Close(k) => k != key && SubscribedBy(ops[..|ops| - 1], key, id)
    case CloseAll => false
    case _ => SubscribedBy(ops[..|ops| - 1], key, id)
  }

  /** A subscriber stays until it is taken out itself, or its key is closed: nobody else's coming and going
      touches it. */
  lemma {:induction false} SubscribedIff<K, E>(ops: seq<HubOp<K, E>>, key: K, id: K)
    ensures IsSubscribed(HubRun(ops), key, id) <==> SubscribedBy(ops, key, id)
  {
    if ops != [] {
      SubscribedIff(ops[..|ops| - 1], key, id);
      SubscribedStep(HubRun(ops[..|ops| - 1]), ops[|ops| - 1], key, id);
    }
  }

  lemma SubscribedStep<K, E>(hub: Hub<K, E>, op: HubOp<K, E>, key: K, id: K)
    ensures IsSubscribed(HubStep(hub, op), key, id) <==>
              match op
              case Subscribe(k, i) => (k == key && i == id) || IsSubscribed(hub, key, id)
              case Unsubscribe(k, i) => !(k == key && i == id) && IsSubscribed(hub, key, id)
              case Close(k) => k != key && IsSubscribed(hub, key, id)
              case CloseAll => false
              case _ => IsSubscribed(hub, key, id)
  {
    match op
    case Unsubscribe(k, i) =>
      if k == key && key in hub && id in hub[key] && i != id {
        assert id in hub[key] - {i};
      }
    case _ =>
  }
}
