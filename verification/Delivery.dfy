/** From the runner's deltas to what a subscriber reads. */
module Delivery {
  import opened Options
  import opened Sequences
  import opened Broadcaster
  import opened TurnRunner
  import opened TurnRunnerRuns

  /** What the runner and the application broadcast under one key; all of it shares a subscriber's channel. */
  datatype SseEvent =
    | Delta(text: string)
    | ThinkingStep(step: string)
    | Complete(content: string)
    | QueryError(message: string)
    | OtherEvent(eventType: string)

  predicate IsDelta(e: SseEvent) {
    e.Delta?
  }

  function DeltaEvents(texts: seq<string>): seq<SseEvent> {
    seq(|texts|, i requires 0 <= i < |texts| => Delta(texts[i]))
  }

  /** The text that the deltas among these events spell. */
  function Spelling(events: seq<SseEvent>): string {
    if events == [] then ""
    else
      var last := events[|events| - 1];
      Spelling(events[..|events| - 1]) + if last.Delta? then last.text else ""
  }

  lemma SpellingAppend(events: seq<SseEvent>, e: SseEvent)
    ensures Spelling(events + [e]) == Spelling(events) + if e.Delta? then e.text else ""
  {
    assert (events + [e])[..|events|] == events;
  }

  lemma {:induction false} SpellingOfDeltas(earlier: seq<SseEvent>, texts: seq<string>)
    ensures Spelling(earlier + DeltaEvents(texts)) == Spelling(earlier) + Concat(texts)
  {
    if texts == [] {
      assert earlier + DeltaEvents(texts) == earlier;
    } else {
      var init, last := texts[..|texts| - 1], texts[|texts| - 1];
      SpellingOfDeltas(earlier, init);
      assert earlier + DeltaEvents(texts) == (earlier + DeltaEvents(init)) + [Delta(last)];
      SpellingAppend(earlier + DeltaEvents(init), Delta(last));
    }
  }

  /** Only deltas spell. */
  lemma {:induction false} SpellingIgnoresOthers(events: seq<SseEvent>)
    ensures Spelling(Keep(IsDelta, events)) == Spelling(events)
  {
    if events != [] {
      var init, last := events[..|events| - 1], events[|events| - 1];
      SpellingIgnoresOthers(init);
      if last.Delta? {
        assert (Keep(IsDelta, init) + [last])[..|Keep(IsDelta, init)|] == Keep(IsDelta, init);
      }
    }
  }

  predicate NeverLeaves(ops: seq<ChannelOp<SseEvent>>) {
    forall i :: 0 <= i < |ops| ==> !ops[i].CloseReader?
  }

  /** No delta met a full buffer. */
  predicate NoDeltaDropped(ops: seq<ChannelOp<SseEvent>>) {
    LossesOf(IsDelta, ops) == 0
  }

  /** A subscriber that was offered the deltas of a turn, live or finished, behind those of earlier turns and
      amid whatever else goes to its key: it gets a subsequence of all those deltas. If its reader stays, it
      gets every one of them exactly when no delta met a full buffer, and then what it reads spells the earlier
      texts and this turn's, which is the turn's text and its reply as `Spelled` has it. */
  lemma SubscriberSpellsTheText(setup: Setup, start: nat, opening: Opening, ticks: seq<Tick>,
                                ops: seq<HubOp<string, SseEvent>>, key: string, id: string, earlier: seq<SseEvent>)
    requires IsSubscribed(HubRun(ops), key, id)
    requires Keep(IsDelta, Offers(ChannelOps(ops, key, id)))
          == earlier + DeltaEvents(Run(setup, Open(start, opening), ticks).deltas)
    ensures Spelled(setup, Run(setup, Open(start, opening), ticks))
    ensures var s, own := Run(setup, Open(start, opening), ticks), ChannelOps(ops, key, id);
            var c := HubRun(ops)[key][id];
            var got := Keep(IsDelta, c.received + c.buffer);
            && IsSubsequence(got, earlier + DeltaEvents(s.deltas))
            && (NeverLeaves(own) ==>
                  && (got == earlier + DeltaEvents(s.deltas) <==> NoDeltaDropped(own))
                  && (NoDeltaDropped(own) ==> Spelling(c.received + c.buffer) == Spelling(earlier) + Concat(s.deltas)))
  {
    var s, own := Run(setup, Open(start, opening), ticks), ChannelOps(ops, key, id);
    DeltasSpellTheReply(setup, start, opening, ticks);
    SubscribersAreIndependent(ops, key, id);
    DeltasArrive(own, earlier, s.deltas);
  }

  lemma DeltasArrive(own: seq<ChannelOp<SseEvent>>, earlier: seq<SseEvent>, deltas: seq<string>)
    requires Keep(IsDelta, Offers(own)) == earlier + DeltaEvents(deltas)
    ensures var c := ChannelRun(own);
            var got := Keep(IsDelta, c.received + c.buffer);
            && IsSubsequence(got, earlier + DeltaEvents(deltas))
            && (NeverLeaves(own) ==>
                  && (got == earlier + DeltaEvents(deltas) <==> NoDeltaDropped(own))
                  && (NoDeltaDropped(own) ==> Spelling(c.received + c.buffer) == Spelling(earlier) + Concat(deltas)))
  {
    var c := ChannelRun(own);
    OfferedIsOffers(own);
    ReceivesASubsequence(own);
    KeepOfSubsequence(IsDelta, c.received + c.buffer, c.offered);
    if NeverLeaves(own) {
      PartMissesNothingIff(IsDelta, own);
      SpellingIgnoresOthers(c.received + c.buffer);
      SpellingOfDeltas(earlier, deltas);
    }
  }

  // ----- Text crowded out -----

  lemma {:induction false} FilledBy(e: SseEvent, n: nat)
    requires n <= 100
    ensures ChannelRun(seq(n, i => Offer(e))) == Channel(seq(n, i => e), [], seq(n, i => e), true)
  {
    if n > 0 {
      FilledBy(e, n - 1);
      assert seq(n, i => Offer(e))[..n - 1] == seq(n - 1, i => Offer(e));
      assert seq(n, i => e) == seq(n - 1, i => e) + [e];
    }
  }

  /** The shared buffer can cost text although there is little of it: behind a hundred unread thinking steps the
      first delta is lost. */
  lemma ThinkingCrowdsOutText(step: string, text: string)
    ensures var ops := seq(100, i => Offer(ThinkingStep(step))) + [Offer(Delta(text))];
            var c := ChannelRun(ops);
            Keep(IsDelta, c.offered) == [Delta(text)] && Keep(IsDelta, c.received + c.buffer) == []
  {
    var e := ThinkingStep(step);
    var filling := seq(100, i => Offer(e));
    var ops := filling + [Offer(Delta(text))];
    FilledBy(e, 100);
    assert ops[..100] == filling;
    assert filling == seq(100, i => Offer(ThinkingStep(step)));
    KeepNone(IsDelta, seq(100, i => e));
    KeepAppend(IsDelta, seq(100, i => e), Delta(text));
    assert [] + seq(100, i => e) == seq(100, i => e);
  }
}
