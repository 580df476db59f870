/** How the runner's text comes about from what its passes hear. */
module TurnRunnerText {
  import opened Options
  import opened Text
  import opened JsonValues
  import opened StreamTerminal
  import opened Frames
  import opened TurnBoundary
  import opened Classifier
  import opened Samples
  import opened TurnRunner
  import opened TurnRunnerRuns

  // ----- Accumulating chunks -----

  /** The text after these chunks. */
  function AccumulateAll(chunks: seq<string>): string {
    if chunks == [] then "" else Accumulate(AccumulateAll(chunks[..|chunks| - 1]), chunks[|chunks| - 1])
  }

  /** Chunk k is taken for a snapshot of the text so far and replaces it. */
  predicate ReplacesAt(chunks: seq<string>, k: nat)
    requires k < |chunks|
  {
    var before := AccumulateAll(chunks[..k]);
    before != "" && before <= chunks[k]
  }

  lemma {:induction false} ChunksAddUpIff(chunks: seq<string>)
    ensures |AccumulateAll(chunks)| <= |Concat(chunks)|
    ensures AccumulateAll(chunks) == Concat(chunks) <==> forall k :: 0 <= k < |chunks| ==> !ReplacesAt(chunks, k)
  {
    if chunks != [] {
      var n := |chunks| - 1;
      ChunksAddUpIff(chunks[..n]);
      forall k | 0 <= k < n ensures ReplacesAt(chunks[..n], k) == ReplacesAt(chunks, k) {
        assert chunks[..n][..k] == chunks[..k];
      }
      var before := AccumulateAll(chunks[..n]);
      if ReplacesAt(chunks, n) {
        assert |AccumulateAll(chunks)| < |before| + |chunks[n]|;
      } else {
        assert AccumulateAll(chunks) == before + chunks[n];
        CancelSuffix(before, Concat(chunks[..n]), chunks[n]);
      }
    }
  }

  lemma CancelSuffix(a: string, b: string, c: string)
    ensures a + c == b + c <==> a == b
  {
    if a + c == b + c {
      assert |a + c| == |a| + |c| && |b + c| == |b| + |c|;
      assert a == (a + c)[..|a|] && b == (b + c)[..|b|];
    }
  }

  /** Each chunk repeats all that the one before it said. */
  predicate Growing(chunks: seq<string>) {
    var n := |chunks| - 1;
    n <= 0 || (Growing(chunks[..n]) && chunks[n - 1] <= chunks[n])
  }

  lemma {:induction false} LastChunkIsLeft(chunks: seq<string>)
    requires chunks != [] && Growing(chunks)
    ensures AccumulateAll(chunks) == chunks[|chunks| - 1]
  {
    var n := |chunks| - 1;
    if n > 0 {
      LastChunkIsLeft(chunks[..n]);
    } else {
      assert chunks[..0] == [];
    }
  }

  // ----- What a run hears -----

  /** The text a pass brings: the classified content of a message that is looked at, if it is not empty. */
  function Heard(setup: Setup, s: State, tick: Tick): seq<string> {
    if !Continues(setup, s, tick) || !tick.recv.Message? || !LooksAt(s, tick.recv.frame) then []
    else
      var content := setup.classify(tick.recv.wire, s.collected).content;
      if content == "" then [] else [content]
  }

  /** All non-empty texts of a run, in order. */
  function Chunks(setup: Setup, s0: State, ticks: seq<Tick>): seq<string> {
    if ticks == [] then []
    else
      var init := ticks[..|ticks| - 1];
      Chunks(setup, s0, init) + Heard(setup, Run(setup, s0, init), ticks[|ticks| - 1])
  }

  lemma EventCollects(setup: Setup, s: State, r: EventResult, ended: Option<string>, at: nat)
    requires TakeEvent(setup, s, r, ended, at).outcome.None?
    ensures TakeEvent(setup, s, r, ended, at).collected
         == if r.content == "" then s.collected else Accumulate(s.collected, r.content)
  {
  }

  lemma StepCollects(setup: Setup, s: State, tick: Tick)
    requires s.outcome.None? && Step(setup, s, tick).outcome.None?
    ensures var heard := Heard(setup, s, tick);
            Step(setup, s, tick).collected == if heard == [] then s.collected else Accumulate(s.collected, heard[0])
  {
    if Continues(setup, s, tick) && tick.recv.Message? && LooksAt(s, tick.recv.frame) {
      var live := Arm(s, tick.recv.frame, tick.at);
      EventCollects(setup, live, setup.classify(tick.recv.wire, s.collected), EndOf(live.boundary), tick.at);
    }
  }

  /** The text of a live turn is what its chunks accumulate to. */
  lemma {:induction false} CollectedIsAccumulated(setup: Setup, start: nat, ticks: seq<Tick>)
    requires Run(setup, Start(start), ticks).outcome.None?
    ensures Run(setup, Start(start), ticks).collected == AccumulateAll(Chunks(setup, Start(start), ticks))
  {
    if ticks != [] {
      var n := |ticks| - 1;
      var s0 := Start(start);
      var s, chunks := Run(setup, s0, ticks[..n]), Chunks(setup, s0, ticks[..n]);
      CollectedIsAccumulated(setup, start, ticks[..n]);
      StepCollects(setup, s, ticks[n]);
      var heard := Heard(setup, s, ticks[n]);
      if heard == [] {
        assert chunks + heard == chunks;
      } else {
        assert (chunks + heard)[..|chunks|] == chunks;
      }
    }
  }

  /** A live turn's text, and so what its deltas spell, is the concatenation of the texts it heard exactly when
      none of them starts with the text before it: a fragment that happens to repeat that text is mistaken
      for a snapshot and costs its copy. */
  lemma FragmentsAddUpIff(setup: Setup, start: nat, ticks: seq<Tick>)
    requires Run(setup, Start(start), ticks).outcome.None?
    ensures var s, chunks := Run(setup, Start(start), ticks), Chunks(setup, Start(start), ticks);
            && Concat(s.deltas) == s.collected
            && |s.collected| <= |Concat(chunks)|
            && (s.collected == Concat(chunks) <==> forall k :: 0 <= k < |chunks| ==> !ReplacesAt(chunks, k))
  {
    CollectedIsAccumulated(setup, start, ticks);
    ChunksAddUpIff(Chunks(setup, Start(start), ticks));
    DeltasSpellTheReply(setup, start, Ready, ticks);
  }

  /** A live turn that hears a growing series of snapshots has the last one for its text. */
  lemma SnapshotsLeaveTheLast(setup: Setup, start: nat, ticks: seq<Tick>)
    requires Run(setup, Start(start), ticks).outcome.None?
    requires var chunks := Chunks(setup, Start(start), ticks);
             chunks != [] && Growing(chunks)
    ensures var chunks := Chunks(setup, Start(start), ticks);
            Run(setup, Start(start), ticks).collected == chunks[|chunks| - 1]
  {
    CollectedIsAccumulated(setup, start, ticks);
    LastChunkIsLeft(Chunks(setup, Start(start), ticks));
  }

  // ----- A fragment that gets lost -----

  /** The pass that reads message `msg`, decoded as it comes. */
  function Hear(msg: Json): Tick {
    Tick(false, 0, Message(msg, Decode(msg)), 0)
  }

  /** A setup with time to spare, whose classifier is the modelled one. */
  function SampleSetup(cfg: Config): Setup {
    Setup(TurnConfig(1000, 0, 0, Fail, Fail, Fail), false, 0, cfg,
          (wire: Json, collected: string) => ClassifyWire(cfg, wire))
  }

  lemma SampleContinues(cfg: Config, s: State, tick: Tick)
    requires s.outcome.None? && !tick.cancelled && tick.now == 0
    ensures Continues(SampleSetup(cfg), s, tick)
  {
  }

  /** A pass that hears some text and goes on. */
  lemma TextStep(setup: Setup, s: State, tick: Tick, text: string)
    requires Continues(setup, s, tick) && tick.recv.Message? && !s.boundary.ended && text != ""
    requires SignalOf(tick.recv.frame).Progress?
    requires setup.classify(tick.recv.wire, s.collected) == ContinueWith(text)
    ensures var u := Step(setup, s, tick);
            && u.outcome.None? && u.armed && u.collected == Accumulate(s.collected, text)
            && u.boundary == s.boundary.(gate := s.boundary.gate.(sawTurnProgress := true))
            && Heard(setup, s, tick) == [text]
  {
    var live := Arm(s, tick.recv.frame, tick.at);
    StaleIsTerminal(tick.recv.frame);
    EventKeepsBoundary(setup, live, ContinueWith(text), None, tick.at);
    EventClock(setup, live, ContinueWith(text), None, tick.at);
    ContinuedEvent(setup, live, text, tick.at);
  }

  lemma ContinuedEvent(setup: Setup, s: State, text: string, at: nat)
    requires s.outcome.None? && text != ""
    ensures var u := TakeEvent(setup, s, ContinueWith(text), None, at);
            u.outcome.None? && u.collected == Accumulate(s.collected, text)
  {
  }

  /** A text chunk of turn `id`. */
  function ChunkMessage(text: string, id: string): Json {
    TextMessage("AIMessageChunk", text, "", id)
  }

  lemma ChunkStep(cfg: Config, s: State, text: string, id: string)
    requires s.outcome.None? && !s.boundary.ended && text != "" && IsPlainId(id)
    ensures var u := Step(SampleSetup(cfg), s, Hear(ChunkMessage(text, id)));
            && u.outcome.None? && u.armed && u.collected == Accumulate(s.collected, text)
            && u.boundary == s.boundary.(gate := s.boundary.gate.(sawTurnProgress := true))
            && Heard(SampleSetup(cfg), s, Hear(ChunkMessage(text, id))) == [text]
  {
    DecodeText("AIMessageChunk", text, "", id);
    ClassifyChunk(cfg, text, "", id);
    SampleContinues(cfg, s, Hear(ChunkMessage(text, id)));
    TextStep(SampleSetup(cfg), s, Hear(ChunkMessage(text, id)), text);
  }

  /** Two messages that both say "a" leave "a", not "aa". */
  lemma RepeatedFragmentIsLost(cfg: Config, id: string)
    requires IsPlainId(id)
    ensures var setup, ticks := SampleSetup(cfg), [Hear(ChunkMessage("a", id)), Hear(ChunkMessage("a", id))];
            var s := Run(setup, Start(0), ticks);
            s.outcome.None? && Chunks(setup, Start(0), ticks) == ["a", "a"] && s.collected == "a"
  {
    var setup, s0, tick := SampleSetup(cfg), Start(0), Hear(ChunkMessage("a", id));
    ChunkStep(cfg, s0, "a", id);
    ChunkStep(cfg, Step(setup, s0, tick), "a", id);
    assert Accumulate("", "a") == "a" && Accumulate("a", "a") == "a";
    TwoPasses(setup, s0, tick, tick);
  }

  lemma TwoPasses(setup: Setup, s0: State, first: Tick, second: Tick)
    ensures var s1 := Step(setup, s0, first);
            && Run(setup, s0, [first, second]) == Step(setup, s1, second)
            && Chunks(setup, s0, [first, second]) == Heard(setup, s0, first) + Heard(setup, s1, second)
  {
    var ticks := [first, second];
    assert ticks[..1] == [first] && ticks[..1][..0] == [];
    assert Run(setup, s0, ticks[..1]) == Step(setup, s0, first);
    assert Chunks(setup, s0, ticks[..1]) == [] + Heard(setup, s0, first);
  }
}
