/** Turn ids and the two terminal gates (src/turn_boundary.rs). */
module TurnIds {
  import opened Options
  import opened Text
  import opened JsonValues

  function FormatTurnId(loopId: string, generation: I64): string {
    var lid := Trim(loopId);
    if lid == "" || generation <= 0 then "" else lid + ":" + Decimal(generation)
  }

  function ParseTurnGeneration(turnId: Option<string>): (g: Option<I64>)
    ensures g.Some? ==> g.value > 0
  {
    if turnId.None? then None
    else
      var raw := Trim(turnId.value);
      if raw == "" || ':' !in raw then None
      else
        var gen := ParseI64(AfterLast(raw, ':'));
        if gen.Some? && gen.value > 0 then gen else None
  }

  /** The id when it is not blank, trimmed. */
  function NonBlank(id: Option<string>): (r: Option<string>)
    ensures r.Some? ==> r.value != ""
  {
    if id.Some? && Trim(id.value) != "" then Some(Trim(id.value)) else None
  }

  lemma NonBlankFixed(id: Option<string>)
    ensures NonBlank(NonBlank(id)) == NonBlank(id)
  {
    if id.Some? {
      TrimIdempotent(id.value);
    }
  }

  function StrAt(v: Json, key: string): Option<string> {
    var f := Get(v, key);
    if f.Some? && f.value.JStr? then Some(f.value.s) else None
  }

  /** `turn_id` of the frame itself, else of its `data` object. */
  function FrameTurnId(frame: Json): (r: Option<string>)
    ensures r.Some? ==> r.value != "" && Trim(r.value) == r.value
  {
    var direct := NonBlank(StrAt(frame, "turn_id"));
    if direct.Some? then
      TrimIdempotent(StrAt(frame, "turn_id").value);
      direct
    else
      var data := ObjField(frame, "data");
      if data.Some? && StrAt(data.value, "turn_id").Some? then
        TrimIdempotent(StrAt(data.value, "turn_id").value);
        NonBlank(StrAt(data.value, "turn_id"))
      else None
  }

  predicate TurnIdsMatch(expected: Option<string>, candidate: Option<string>) {
    var exp := NonBlank(expected);
    exp.Some? && exp == NonBlank(candidate)
  }

  predicate IsTurnTerminalAllowed(expected: Option<string>, frameTurn: Option<string>,
                                  queryStarted: bool, turnProgressSeen: bool)
  {
    queryStarted && turnProgressSeen && TurnIdsMatch(expected, frameTurn)
  }

  predicate IsIdleTerminalAllowed(expected: Option<string>, frameTurn: Option<string>,
                                  queryStarted: bool, turnProgressSeen: bool, cancellationSeen: bool)
  {
    var exp := NonBlank(expected);
    if !queryStarted || exp.None? then false
    else
      var cand := NonBlank(frameTurn);
      if cand.Some? then TurnIdsMatch(exp, cand) && (turnProgressSeen || cancellationSeen)
      else cancellationSeen
  }

  // ----- Round trip -----

  /** Which arguments get a usable id at all. */
  predicate Admissible(loopId: string, generation: I64) {
    Trim(loopId) != "" && generation > 0
  }

  lemma FormattedIsTrimmed(loopId: string, generation: I64)
    requires Admissible(loopId, generation)
    ensures Trim(FormatTurnId(loopId, generation)) == FormatTurnId(loopId, generation) != ""
  {
    var id := FormatTurnId(loopId, generation);
    TrimmedEnds(loopId);
    assert id[0] == Trim(loopId)[0];
    assert id[|id| - 1] == Decimal(generation)[|Decimal(generation)| - 1];
    assert IsDigit(id[|id| - 1]);
    TrimFixed(id);
  }

  lemma SuffixIsGeneration(lid: string, generation: nat)
    ensures AfterLast(lid + ":" + Decimal(generation), ':') == Decimal(generation)
  {
    assert ':' !in Decimal(generation);
    AfterLastOfSuffix(lid, ':', Decimal(generation));
  }

  /** Parsing a formatted id gives the generation back, and an unusable pair gives nothing. */
  lemma FormatParseRoundTrip(loopId: string, generation: I64)
    ensures ParseTurnGeneration(Some(FormatTurnId(loopId, generation)))
         == if Admissible(loopId, generation) then Some(generation) else None
  {
    if Admissible(loopId, generation) {
      var id := FormatTurnId(loopId, generation);
      FormattedIsTrimmed(loopId, generation);
      assert id[|Trim(loopId)|] == ':';
      SuffixIsGeneration(Trim(loopId), generation);
      ParseDecimal(generation);
    }
  }

  lemma NonBlankFormatted(loopId: string, generation: I64)
    requires Admissible(loopId, generation)
    ensures NonBlank(Some(FormatTurnId(loopId, generation))) == Some(FormatTurnId(loopId, generation))
  {
    FormattedIsTrimmed(loopId, generation);
  }

  lemma NonBlankEmpty()
    ensures NonBlank(Some("")).None?
  {
  }

  lemma LoopOfFormatted(loopId: string, generation: I64)
    requires Admissible(loopId, generation)
    ensures var id := FormatTurnId(loopId, generation);
            |id| > |Decimal(generation)| && id[..|id| - |Decimal(generation)| - 1] == Trim(loopId)
  {
  }

  /** Formatted ids match exactly when they name the same loop and the same generation. */
  lemma FormattedIdsMatch(loop1: string, gen1: I64, loop2: string, gen2: I64)
    ensures TurnIdsMatch(Some(FormatTurnId(loop1, gen1)), Some(FormatTurnId(loop2, gen2)))
       <==> Admissible(loop1, gen1) && Admissible(loop2, gen2) && Trim(loop1) == Trim(loop2) && gen1 == gen2
  {
    if Admissible(loop1, gen1) && Admissible(loop2, gen2) {
      NonBlankFormatted(loop1, gen1);
      NonBlankFormatted(loop2, gen2);
      if FormatTurnId(loop1, gen1) == FormatTurnId(loop2, gen2) {
        FormatParseRoundTrip(loop1, gen1);
        FormatParseRoundTrip(loop2, gen2);
        LoopOfFormatted(loop1, gen1);
        LoopOfFormatted(loop2, gen2);
      }
    } else {
      NonBlankEmpty();
    }
  }
}
