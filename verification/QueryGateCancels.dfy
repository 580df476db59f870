/** Which callbacks a cancel finds, and what it does with them, in every interleaving. */
module QueryGateCancels {
  import opened Options
  import opened QueryGate

  /** A reservation as the actions made it: its local cancel, and the daemon cancel registered last. */
  datatype Holding = Holding(cancel: Callback, sender: Option<Callback>)

  /** The reservation of `key` after these actions, told by the actions alone: an `execute` or a reservation of
      a free key by a new task makes it, a reserved entry replaces its local cancel, a running turn registers its
      daemon cancel, and the end of a turn or a cancel clears it. */
  function HoldingOf(actions: seq<Action>, key: Key): Option<Holding> {
    if actions == [] then None
    else
      var init := actions[..|actions| - 1];
      HoldingStep(Run(INIT, init), HoldingOf(init, key), actions[|actions| - 1], key)
  }

  function HoldingStep(s: System, h: Option<Holding>, a: Action, key: Key): Option<Holding> {
    match a
    case Execute(t, k) =>
      if k == key && h.None? && t !in s.started then Some(Holding(s.next, None)) else h
    case Reserve(t, k, withSender) =>
      if k == key && h.None? && t !in s.started
      then Some(Holding(s.next, if withSender then Some(s.next + 1) else None)) else h
    case EnterReserved(t) =>
      if h.Some? && t in s.runners && s.runners[t] == Admitted(key) then Some(h.value.(cancel := s.next)) else h
    case RegisterSender(t) =>
      if h.Some? && RunsOn(s, t, key) then Some(h.value.(sender := Some(s.next))) else h
    case Finish(t) => if RunsOn(s, t, key) then None else h
    case CancelTake(t, k) => if k == key && t !in s.started then None else h
    case _ => h
  }

  predicate GateHolds(g: Gate, key: Key, h: Option<Holding>) {
    if h.None? then key !in g.cancels && key !in g.sendCancels
    else Lookup(g.cancels, key) == Some(h.value.cancel) && Lookup(g.sendCancels, key) == h.value.sender
  }

  lemma GateHoldsStep(s: System, h: Option<Holding>, a: Action, key: Key)
    requires GateHolds(s.gate, key, h)
    ensures GateHolds(Step(s, a).gate, key, HoldingStep(s, h, a, key))
  {
  }

  /** The gate holds exactly what the actions made of each key. */
  lemma {:induction false} GateIsWhatTheActionsSay(actions: seq<Action>, key: Key)
    ensures GateHolds(Run(INIT, actions).gate, key, HoldingOf(actions, key))
  {
    if actions != [] {
      GateIsWhatTheActionsSay(actions[..|actions| - 1], key);
      GateHoldsStep(Run(INIT, actions[..|actions| - 1]), HoldingOf(actions[..|actions| - 1], key),
                    actions[|actions| - 1], key);
    }
  }

  /** A cancel takes exactly what the actions registered for its key, in one step: it waits for the daemon cancel
      registered last if there is one, and otherwise goes on to the local one. A cancel of a key without a
      reservation does nothing. */
  lemma CancelTakesWhatIsHeld(actions: seq<Action>, t: Task, key: Key)
    requires t !in Run(INIT, actions).started
    ensures var s := Run(INIT, actions);
            var u, h := Step(s, CancelTake(t, key)), HoldingOf(actions, key);
            && key !in u.gate.cancels && key !in u.gate.sendCancels
            && if h.None? then u.log == s.log && u.cancellers == s.cancellers
               else
                 && u.log == s.log + [Took(t, Some(h.value.cancel), h.value.sender)]
                 && u.cancellers == s.cancellers[t := if h.value.sender.Some?
                                                      then AwaitingDaemon(Some(h.value.cancel), h.value.sender.value)
                                                      else CallingLocal(h.value.cancel)]
  {
    GateIsWhatTheActionsSay(actions, key);
  }

  /** The rest of a cancel: the daemon cancel, if there was one, then the local callback that was taken, and then
      it is over. */
  lemma CancelRunsItsCourse(s: System, t: Task, cancel: Callback, sender: Option<Callback>)
    requires t in s.cancellers
    requires s.cancellers[t]
          == if sender.Some? then AwaitingDaemon(Some(cancel), sender.value) else CallingLocal(cancel)
    ensures var daemon := if sender.Some? then Step(s, DaemonEnds(t)) else s;
            var done := Step(daemon, CallLocal(t));
            && t !in done.cancellers
            && done.log == s.log + (if sender.Some? then [DaemonDone(t, sender.value)] else [])
                           + [LocalCalled(t, cancel)]
            && (sender.Some? ==> Step(s, CallLocal(t)) == s)
  {
  }

  // ----- Who gets in -----

  /** Exactly when a fresh caller gets in by `execute`: the key has no reservation. Then the turn runs, under its own
      local cancel; else nothing changes. */
  lemma ExecuteGetsInIff(actions: seq<Action>, t: Task, key: Key)
    requires t !in Run(INIT, actions).started
    ensures var s := Run(INIT, actions);
            var u := Step(s, Execute(t, key));
            if HoldingOf(actions, key).None? then
              && u.runners == s.runners[t := Running(key, s.next)]
              && HoldingOf(actions + [Execute(t, key)], key) == Some(Holding(s.next, None))
            else u == s
  {
    GateIsWhatTheActionsSay(actions, key);
    assert (actions + [Execute(t, key)])[..|actions|] == actions;
  }

  /** And by a reserved entry: the key has a reservation, anyone's. */
  lemma ReservedGetsInIff(actions: seq<Action>, t: Task, key: Key)
    requires t !in Run(INIT, actions).started
    ensures var s := Run(INIT, actions);
            var u := Step(s, CheckReserved(t, key));
            if HoldingOf(actions, key).Some? then
              && u.runners == s.runners[t := Admitted(key)]
              && Step(u, EnterReserved(t)).runners == s.runners[t := Running(key, s.next)]
            else u == s
  {
    GateIsWhatTheActionsSay(actions, key);
  }
}
