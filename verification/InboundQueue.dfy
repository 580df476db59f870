/** The client's inbound queue as it is mutated (src/client.rs), and its delivery acks. */
module InboundQueue {
  import opened Options
  import opened JsonValues
  import opened StreamTerminal
  import opened InboundPriority
  import opened Sequences
  import opened BoundedQueue

  predicate IsImportant(f: Json) {
    DropPriority(f) < NORMAL
  }

  predicate IsStale(f: Json) {
    StalePendingFrameLabel(f).Some?
  }

  /** The policy the client runs the queue with. */
  const FRAMES := Policy(IsImportant, IsStale)

  /** What the scan finds tells who is displaced from a full queue. */
  lemma VictimOfScan(q: Queue<Json>, ev: Json, dropIdx: nat, dropPri: int)
    requires q.cap <= |q.pending|
    requires dropPri >= NORMAL <==> FirstNormal(FRAMES, q.pending) < |q.pending|
    requires dropPri >= NORMAL ==> dropIdx == FirstNormal(FRAMES, q.pending)
    ensures Step(FRAMES, q, Enqueue(ev)) == Displace(q, ev,
              if dropPri >= NORMAL then dropIdx
              else if DropPriority(ev) >= NORMAL then |q.pending|
              else if q.pending != [] then 0
              else -1)
  {
  }

  class Inbound {
    var maxInbound: nat
    var pending: seq<Json>
    var droppedCount: nat
    ghost var arrivals: seq<Json>
    ghost var delivered: seq<Json>
    ghost var lost: seq<Json>
    ghost var removed: seq<Json>

    ghost function View(): Queue<Json>
      reads this
    {
      Queue(maxInbound, pending, droppedCount, arrivals, delivered, lost, removed)
    }

    constructor (max: nat)
      ensures View() == Init(max)
    {
      maxInbound, pending, droppedCount := max, [], 0;
      arrivals, delivered, lost, removed := [], [], [], [];
    }

    method NoteInboundDrop(ghost f: Json)
      modifies this`droppedCount, this`lost
      ensures droppedCount == (old(droppedCount) + 1) % 0x1_0000_0000_0000_0000 && lost == old(lost) + [f]
    {
      droppedCount := (droppedCount + 1) % U64_MODULUS;
      lost := lost + [f];
    }

    /** The scan keeps the first frame of the highest priority number. */
    method ScanForDrop() returns (dropIdx: nat, dropPri: int)
      ensures dropPri >= NORMAL <==> FirstNormal(FRAMES, pending) < |pending|
      ensures dropPri >= NORMAL ==> dropIdx == FirstNormal(FRAMES, pending)
    {
      dropIdx, dropPri := 0, -1;
      for i := 0 to |pending|
        invariant dropPri >= NORMAL ==> dropPri == NORMAL && dropIdx < i && !IsImportant(pending[dropIdx])
        invariant dropPri >= NORMAL ==> forall j :: 0 <= j < dropIdx ==> IsImportant(pending[j])
        invariant dropPri < NORMAL ==> forall j :: 0 <= j < i ==> IsImportant(pending[j])
      {
        var p := DropPriority(pending[i]);
        PriorityRange(pending[i]);
        if p > dropPri {
          dropPri := p;
          dropIdx := i;
        }
      }
    }

    method PushBack(ev: Json)
      modifies this
      ensures View() == Displace(old(View()), ev, -1)
    {
      arrivals := arrivals + [ev];
      pending := pending + [ev];
    }

    /** Takes one waiting frame out and puts the newcomer at the end. */
    method EvictFor(idx: nat, ev: Json)
      requires idx < |pending|
      modifies this
      ensures View() == Displace(old(View()), ev, idx)
    {
      RemoveAtOfAppend(pending, ev, idx);
      arrivals := arrivals + [ev];
      NoteInboundDrop(pending[idx]);
      pending := pending[..idx] + pending[idx + 1..];
      pending := pending + [ev];
    }

    method Refuse(ev: Json)
      modifies this
      ensures View() == Displace(old(View()), ev, |old(pending)|)
    {
      RemoveAtOfAppend(pending, ev, |pending|);
      arrivals := arrivals + [ev];
      NoteInboundDrop(ev);
    }

    method EnqueuePending(ev: Json)
      modifies this
      ensures View() == Step(FRAMES, old(View()), Enqueue(ev))
    {
      ghost var q := View();
      if |pending| < maxInbound {
        PushBack(ev);
        return;
      }
      var idx, dropPri := ScanForDrop();
      VictimOfScan(q, ev, idx, dropPri);
      if dropPri >= NORMAL {
        EvictFor(idx, ev);
      } else if DropPriority(ev) >= NORMAL {
        Refuse(ev);
      } else if pending != [] {
        EvictFor(0, ev);
      } else {
        PushBack(ev);
      }
    }

    /** `push_pending_event`: anything but an object is ignored, an object is enqueued like any arrival. */
    method PushPendingEvent(ev: Json)
      modifies this
      ensures View() == if ev.JObj? then Step(FRAMES, old(View()), Enqueue(ev)) else old(View())
    {
      if !ev.JObj? {
        return;
      }
      EnqueuePending(ev);
    }

    method ReadEvent() returns (ev: Option<Json>)
      modifies this
      ensures View() == Step(FRAMES, old(View()), Read)
      ensures ev == if old(pending) == [] then None else Some(old(pending)[0])
    {
      if pending == [] { return None; }
      ev := Some(pending[0]);
      delivered := delivered + [pending[0]];
      pending := pending[1..];
    }

    method PeelStalePendingControlEvents() returns (labels: seq<string>)
      modifies this
      ensures View() == Step(FRAMES, old(View()), Peel)
      ensures labels == Labels(StalePendingFrameLabel, old(pending))
    {
      var kept;
      labels, kept := PeelLoop(FRAMES, StalePendingFrameLabel, pending);
      removed := removed + Keep(IsStale, pending);
      pending := kept;
    }

    method ClearPendingEvents()
      modifies this
      ensures View() == Step(FRAMES, old(View()), Clear)
    {
      removed := removed + pending;
      pending := [];
    }

    method SetInboundMaxSize(n: nat)
      modifies this
      ensures View() == Step(FRAMES, old(View()), SetCap(n))
    {
      if n > 0 {
        maxInbound := n;
      }
    }
  }

  /** What a peel reports is what it takes out: the label of each stale frame, in order. */
  lemma PeelReportsWhatItTakes(frames: seq<Json>)
    ensures var stale, labels := Keep(IsStale, frames), Labels(StalePendingFrameLabel, frames);
            && |labels| == |stale|
            && forall i :: 0 <= i < |stale| ==> StalePendingFrameLabel(stale[i]) == Some(labels[i])
  {
    LabelsNameTheStale(FRAMES, StalePendingFrameLabel, frames);
  }

  /** A bare status frame. */
  function StatusFrame(state: string): Json {
    JObj(map["type" := JStr("status"), "state" := JStr(state)])
  }

  lemma KnownStatusIsCritical(state: string)
    requires IsKnownState(state)
    ensures DropPriority(StatusFrame(state)) == CRITICAL
  {
    var f := StatusFrame(state);
    assert StrField(f, "type") == "status" && StrField(f, "state") == state;
  }

  /** CRITICAL frames can be lost, although the priority table calls them never-drop: a queue of one
      gives up the `running` status when the `idle` status arrives. */
  lemma CriticalFrameCanBeLost()
    ensures exists running, idle ::
      && DropPriority(running) == CRITICAL && DropPriority(idle) == CRITICAL
      && Run(FRAMES, Init(1), [Enqueue(running), Enqueue(idle)]).lost == [running]
  {
    KnownStatusIsCritical("running");
    KnownStatusIsCritical("idle");
    LastImportantWins(FRAMES, StatusFrame("running"), StatusFrame("idle"));
  }

  /** A frame of lower priority can do it as well: a mere batch displaces the `running` status. */
  lemma HighFrameEvictsCritical()
    ensures exists running, batch ::
      && DropPriority(running) == CRITICAL && DropPriority(batch) == HIGH
      && Run(FRAMES, Init(1), [Enqueue(running), Enqueue(batch)]).lost == [running]
  {
    var batch := JObj(map["type" := JStr("event_batch")]);
    assert StrField(batch, "type") == "event_batch";
    KnownStatusIsCritical("running");
    LastImportantWins(FRAMES, StatusFrame("running"), batch);
  }

  predicate IsCritical(f: Json) {
    DropPriority(f) == CRITICAL
  }

  /** A newcomer displaces a critical frame. */
  function CriticalLosses(cap: nat, ops: seq<Op<Json>>): nat {
    HitCount(FRAMES, IsCritical, Init(cap), ops)
  }

  /** When never-drop holds: the critical frames come through, all and in order, if and only if no important
      newcomer ever finds the queue full, without a normal frame in it, and a critical one at its head. Each
      time one does, one critical frame is lost. */
  lemma CriticalFramesSurviveIff(cap: nat, ops: seq<Op<Json>>)
    requires forall i :: 0 <= i < |ops| ==> KeepsFrames(ops[i])
    ensures var q := Run(FRAMES, Init(cap), ops);
            && |Keep(IsCritical, q.arrivals)| == |Keep(IsCritical, q.Kept())| + CriticalLosses(cap, ops)
            && (Keep(IsCritical, q.Kept()) == Keep(IsCritical, q.arrivals) <==> CriticalLosses(cap, ops) == 0)
  {
    GuardedFramesSurvive(FRAMES, IsCritical, cap, ops);
  }
}
