/** Session and pooled runner on the same frames. */
module Parity {
  import opened TurnBoundary
  import Session = DaemonSession
  import SessionRuns = DaemonSessionRuns
  import Runner = TurnRunner
  import RunnerRuns = TurnRunnerRuns
  import Simulation

  /** Given the same frames of one loop, one per pass, a pooled turn is over whenever a session turn is:
      the runner has completed, failed or timed out by the pass that brought the session's last frame. */
  lemma RunnerIsOverWhenSessionIs(drop: Session.EarlyDrop, first: string, loopId: string,
                                  inputs: seq<Session.Input>, setup: Runner.Setup, start: nat,
                                  ticks: seq<Runner.Tick>)
    requires first == "" || first == loopId
    requires forall i :: 0 <= i < |inputs| ==> Simulation.Ordinary(loopId, inputs[i])
    requires RunnerRuns.Received(ticks) == Simulation.Trace(inputs)
    requires SessionRuns.EndedWell(Session.Run(drop, Session.Begin(first), inputs))
    ensures Runner.Run(setup, Runner.Start(start), ticks).outcome.Some?
  {
    Simulation.BoundaryEndsNoLater(drop, first, loopId, inputs);
    if Runner.Run(setup, Runner.Start(start), ticks).outcome.None? {
      RunnerRuns.BoundaryIsTheFold(setup, start, ticks);
      RunnerRuns.LiveTurnIsOpen(setup, start, ticks);
    }
  }
}
