/** What becomes of one correlated call, in every interleaving. */
module RpcMuxCalls {
  import opened Options
  import opened RpcMux

  predicate SettledAs(s: Mux, id: Id, result: Result) {
    id in s.calls && s.calls[id].stage == Settled(result)
  }

  predicate Holds(s: Mux, id: Id, channel: Channel) {
    id in s.calls && s.calls[id].channel == channel
  }

  // ----- Answers -----

  /** A call that was handed a response returns that response at its next look, and nothing else moves it. */
  lemma AnsweredCallReturnsItsAnswer(actions: seq<Action>, id: Id, n: nat, a: Action)
    requires var s := Run(INIT, actions); At(s, id, Awaiting) && n in s.handed && s.handed[n] == id
    ensures var s := Run(INIT, actions);
            if a == Receive(id) then SettledAs(Step(s, a), id, Replied(Answer(n)))
            else At(Step(s, a), id, Awaiting) && Holds(Step(s, a), id, Filled(Answer(n)))
    ensures var s := Run(INIT, actions); n < |s.routed| && s.routed[n] == id
  {
    InvHolds(actions);
    var s := Run(INIT, actions);
    assert AnswerOf(s, s.handed[n]) == Some(n);
    FilledCallStep(s, a, id, Answer(n));
  }

  /** The only step that moves a waiting call with a filled channel is its own look, which returns what is in
      the channel: it cannot time out any more, or be dropped. */
  lemma FilledCallStep(s: Mux, a: Action, id: Id, reply: Reply)
    requires ChannelsTracked(s) && At(s, id, Awaiting) && Holds(s, id, Filled(reply))
    ensures if a == Receive(id) then SettledAs(Step(s, a), id, Replied(reply))
            else At(Step(s, a), id, Awaiting) && Holds(Step(s, a), id, Filled(reply))
  {
  }

  /** A response that arrives while its call is registered is handed to that call. */
  lemma ResponseFindsItsCall(actions: seq<Action>, id: Id)
    requires id in Run(INIT, actions).waiters
    ensures var s := Run(INIT, actions);
            var t := Step(s, Route(id));
            && |s.routed| in t.handed && t.handed[|s.routed|] == id
            && Holds(t, id, Filled(Answer(|s.routed|)))
            && t.waiters == s.waiters - {id} && t.queued == s.queued
  {
    InvHolds(actions);
  }

  /** One without a registered call is queued for the readers. */
  lemma StrayResponseIsQueued(actions: seq<Action>, id: Id)
    requires id !in Run(INIT, actions).waiters
    ensures var s := Run(INIT, actions);
            Step(s, Route(id)) == s.(routed := s.routed + [id], queued := s.queued + {|s.routed|})
  {
  }

  /** The plain course of a call, from any reachable state with an open write side: registered, sent, answered,
      returned. */
  lemma PlainCallReturns(actions: seq<Action>, id: Id, kind: Kind)
    requires id !in Run(INIT, actions).calls && Run(INIT, actions).writeOpen
    ensures var s := Run(INIT, actions);
            var sent := Step(Step(s, Begin(id, kind)), Send(id, true));
            && At(sent, id, Awaiting) && id in sent.waiters && Holds(sent, id, Empty)
            && SettledAs(Step(Step(sent, Route(id)), Receive(id)), id, Replied(Answer(|s.routed|)))
  {
  }

  /** A send that is refused, or finds the write side closed, fails the call and, for a request, takes its
      waiter out. */
  lemma RefusedCallFails(actions: seq<Action>, id: Id, kind: Kind, accepted: bool)
    requires id !in Run(INIT, actions).calls && !(Run(INIT, actions).writeOpen && accepted)
    ensures var s := Run(INIT, actions);
            var refused := Step(Step(s, Begin(id, kind)), Send(id, accepted));
            if kind == Subscribe then SettledAs(refused, id, SendError)
            else At(refused, id, SendRejected) && SettledAs(Step(refused, Cleanup(id)), id, SendError)
                 && id !in Step(refused, Cleanup(id)).waiters
  {
  }

  // ----- Disconnects -----

  /** Every result has its channel: an error of the own send needs none. */
  ghost predicate ResultsTracked(s: Mux) {
    forall id :: id in s.calls && s.calls[id].stage.Settled? ==>
      ResultFits(s.calls[id].stage.result, s.calls[id].channel)
  }

  predicate ResultFits(result: Result, channel: Channel) {
    match result
    case SendError => true
    case Replied(reply) => channel == Filled(reply)
    case WaiterDropped => channel == Abandoned
    case TimedOut => channel != Empty
  }

  lemma ResultsStep(s: Mux, a: Action)
    requires ChannelsTracked(s) && ResultsTracked(s)
    ensures ResultsTracked(Step(s, a))
  {
  }

  lemma {:induction false} ResultsHold(actions: seq<Action>)
    ensures ResultsTracked(Run(INIT, actions))
  {
    if actions != [] {
      ResultsHold(actions[..|actions| - 1]);
      InvHolds(actions[..|actions| - 1]);
      ResultsStep(Run(INIT, actions[..|actions| - 1]), actions[|actions| - 1]);
    }
  }

  /** A call whose channel holds the disconnect: it returns that, or fails its own send, or times out if it was
      already giving up. */
  predicate FailedByDrain(s: Mux, id: Id, givingUp: bool) {
    Holds(s, id, Filled(Disconnected)) &&
    match s.calls[id].stage
    case TimingOut => givingUp
    case Settled(result) => result == Replied(Disconnected) || result == SendError || (givingUp && result == TimedOut)
    case _ => true
  }

  lemma FailedStep(s: Mux, a: Action, id: Id, givingUp: bool)
    requires ChannelsTracked(s) && FailedByDrain(s, id, givingUp)
    ensures FailedByDrain(Step(s, a), id, givingUp)
  {
  }

  lemma {:induction false} FailedStays(s: Mux, more: seq<Action>, id: Id, givingUp: bool)
    requires ChannelsTracked(s) && FailedByDrain(s, id, givingUp)
    ensures ChannelsTracked(Run(s, more)) && FailedByDrain(Run(s, more), id, givingUp)
  {
    if more != [] {
      var init := more[..|more| - 1];
      FailedStays(s, init, id, givingUp);
      ChannelsStep(Run(s, init), more[|more| - 1]);
      FailedStep(Run(s, init), more[|more| - 1], id, givingUp);
    }
  }

  /** A drain fails every registered call at once. Whatever happens afterwards, such a call returns the
      disconnect at its next look, and can only otherwise fail its own send, or time out if it was already giving
      up when the drain came. */
  lemma DrainFailsEveryWaiter(actions: seq<Action>, more: seq<Action>, id: Id)
    requires var s := Run(INIT, actions); s.drains > 0 && id in s.waiters
    ensures var s := Run(INIT, actions);
            var t := Run(Step(s, Drain), more);
            && FailedByDrain(t, id, At(s, id, TimingOut))
            && (At(t, id, Awaiting) ==> SettledAs(Step(t, Receive(id)), id, Replied(Disconnected)))
  {
    var s := Run(INIT, actions);
    InvHolds(actions);
    ResultsHold(actions);
    DrainedNow(s, id);
    ChannelsStep(s, Drain);
    FailedStays(Step(s, Drain), more, id, At(s, id, TimingOut));
  }

  lemma DrainedNow(s: Mux, id: Id)
    requires ChannelsTracked(s) && ResultsTracked(s) && s.drains > 0 && id in s.waiters
    ensures FailedByDrain(Step(s, Drain), id, At(s, id, TimingOut))
    ensures Step(s, Drain).waiters == {}
  {
  }

  // ----- Timeouts -----

  /** Step k made the call give up: its time ran out on an empty channel, or, for a subscription, it found its
      channel abandoned. */
  predicate GivesUpAt(actions: seq<Action>, k: nat, id: Id)
    requires k < |actions|
  {
    var s := Run(INIT, actions[..k]);
    && At(s, id, Awaiting)
    && ((actions[k] == Expire(id) && s.calls[id].channel == Empty)
        || (actions[k] == Receive(id) && s.calls[id].channel == Abandoned && s.calls[id].kind == Subscribe))
  }

  predicate GaveUp(s: Mux, id: Id) {
    At(s, id, TimingOut) || SettledAs(s, id, TimedOut)
  }

  lemma GivingUpStep(s: Mux, a: Action, id: Id)
    requires GaveUp(Step(s, a), id) && !GaveUp(s, id)
    ensures At(s, id, Awaiting)
    ensures (a == Expire(id) && s.calls[id].channel == Empty)
         || (a == Receive(id) && s.calls[id].channel == Abandoned && s.calls[id].kind == Subscribe)
  {
  }

  /** No call times out that was answered: a timeout is always preceded by such a step. */
  lemma {:induction false} TimeoutsAreEarned(actions: seq<Action>, id: Id)
    requires GaveUp(Run(INIT, actions), id)
    ensures exists k :: 0 <= k < |actions| && GivesUpAt(actions, k, id)
  {
    if actions != [] {
      var n := |actions| - 1;
      if GaveUp(Run(INIT, actions[..n]), id) {
        TimeoutsAreEarned(actions[..n], id);
        var k :| 0 <= k < n && GivesUpAt(actions[..n], k, id);
        assert actions[..n][..k] == actions[..k];
        assert GivesUpAt(actions, k, id);
      } else {
        GivingUpStep(Run(INIT, actions[..n]), actions[n], id);
        assert GivesUpAt(actions, n, id);
      }
    }
  }

  /** And a call that gives up is over with its next step, out of the map. */
  lemma GivingUpIsFinal(actions: seq<Action>, id: Id)
    requires At(Run(INIT, actions), id, TimingOut)
    ensures var t := Step(Run(INIT, actions), Forget(id)); SettledAs(t, id, TimedOut) && id !in t.waiters
  {
    InvHolds(actions);
  }

  /** What a waiting call does when its time is up, or when its channel was abandoned. */
  lemma WaitingCallGivesUp(actions: seq<Action>, id: Id)
    requires At(Run(INIT, actions), id, Awaiting)
    ensures var s := Run(INIT, actions);
            && (s.calls[id].channel == Empty ==> At(Step(s, Expire(id)), id, TimingOut) && Step(s, Receive(id)) == s)
            && (s.calls[id].channel == Abandoned ==>
                  if s.calls[id].kind == Request then SettledAs(Step(s, Receive(id)), id, WaiterDropped)
                  else At(Step(s, Receive(id)), id, TimingOut))
  {
  }

  // ----- Connection states -----

  /** A disconnect, its two steps in a row, leaves no waiter behind, fails all of them and lets no send through
      until somebody reconnects. */
  lemma DisconnectFailsAll(actions: seq<Action>, id: Id)
    ensures var s := Run(INIT, actions);
            var t := Step(Step(s, TakeWrite), Drain);
            && t.drained && t.waiters == {} && !t.writeOpen && t.drains == s.drains
            && (id in s.waiters ==> Holds(t, id, Filled(Disconnected)))
            && Step(t, Connect).writeOpen && !Step(t, Connect).drained
  {
    InvHolds(actions);
  }

  /** Clearing the map abandons every waiting call. */
  lemma ClearingAbandonsAll(actions: seq<Action>, id: Id)
    ensures var s := Run(INIT, actions);
            var t := Step(s, ClearWaiters);
            t.waiters == {} && (id in s.waiters ==> Holds(t, id, Abandoned))
  {
    InvHolds(actions);
  }
}
