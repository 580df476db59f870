/** How classified events end a query (src/appkit/classifier.rs). */
module Classifier {
  import opened Options
  import opened Text
  import opened StreamTerminal
  import opened TurnBoundary

  datatype Terminal = Continue | DeliverableComplete | FailedComplete

  datatype EventResult = EventResult(
    content: string,
    thinkingStep: string,
    terminal: Terminal,
    completionEvent: string,
    error: Option<string>)

  datatype Config = Config(deliverablePhases: set<string>, minDeliverableRunes: nat)

  const EVENT_FINAL_REPORT := "soothe.output.autonomous.final_report.reported"
  const MESSAGE_PREFIX := "soothe.protocol.message."
  const QUERY_TIMEOUT := "query_timeout"
  const IDLE_TIMEOUT := "idle_timeout"
  const STREAM_CLOSED := "stream_closed"

  predicate IsDeliverableCompletionEvent(cfg: Config, eventType: string) {
    var t := Trim(eventType);
    if t == "" then false
    else if t == TURN_END_IDLE || t == TURN_END_STOPPED || t == STREAM_END || t == IDLE_TIMEOUT
            || t == QUERY_TIMEOUT || t == STREAM_CLOSED || t == EVENT_FINAL_REPORT then true
    else if MESSAGE_PREFIX <= t then t[|MESSAGE_PREFIX|..] in cfg.deliverablePhases
    else Contains(t, "soothe.output") && Contains(t, "responded")
  }

  predicate IsSubstantive(cfg: Config, content: string) {
    |Trim(content)| >= cfg.minDeliverableRunes
  }

  /** The user-visible reply of a completed query: the event's own text, else what has accumulated. */
  function ResolveFinal(cfg: Config, r: EventResult, accumulated: string): Option<string> {
    if !r.terminal.DeliverableComplete? || !IsDeliverableCompletionEvent(cfg, r.completionEvent) then None
    else if Trim(r.content) != "" then Some(Trim(r.content))
    else if Trim(accumulated) != "" && IsSubstantive(cfg, Trim(accumulated)) then Some(Trim(accumulated))
    else None
  }

  /** A resolved reply is never blank. */
  lemma ResolvedIsNotBlank(cfg: Config, r: EventResult, accumulated: string)
    ensures ResolveFinal(cfg, r, accumulated).Some? ==> Trim(ResolveFinal(cfg, r, accumulated).value) != ""
  {
    TrimIdempotent(r.content);
    TrimIdempotent(accumulated);
  }

  // ----- The messages branch -----

  /** First `messages` item, as far as the branch looks at it. `loopMessage` is what the typed decoding
      of the frame yields when it succeeds and the phase names a loop assistant message: its type
      (`ai` by default) and text. `assistantText` is the untagged assistant text, when there is any. */
  datatype MessagePayload = MessagePayload(
    present: bool,
    msgType: string,
    content: string,
    phase: string,
    loopMessage: Option<(string, string)>,
    assistantText: Option<string>)

  predicate IsStreamingType(t: string) {
    t == "AIMessageChunk" || t == "ai_chunk" || t == "message_chunk"
  }

  predicate IsTerminalType(t: string) {
    t == "AIMessage" || t == "ai" || t == "assistant"
  }

  function ContinueWith(content: string): EventResult {
    EventResult(content, "", Continue, "", None)
  }

  function DeliverAs(content: string, phase: string): EventResult {
    EventResult(content, "", DeliverableComplete, MESSAGE_PREFIX + phase, None)
  }

  predicate MayDeliver(cfg: Config, phase: string, content: string) {
    phase in cfg.deliverablePhases && IsSubstantive(cfg, content)
  }

  /** The `messages` branch; None falls through to the namespace rules. */
  function ClassifyMessages(cfg: Config, p: MessagePayload): Option<EventResult> {
    if p.present && p.content != "" && IsStreamingType(p.msgType) then Some(ContinueWith(p.content))
    else if p.loopMessage.Some? && p.loopMessage.value.1 != "" then
      var (loopType, text) := p.loopMessage.value;
      if IsStreamingType(loopType) then Some(ContinueWith(text))
      else if MayDeliver(cfg, p.phase, text) then Some(DeliverAs(text, p.phase))
      else Some(ContinueWith(text))
    else if p.assistantText.Some? then Some(ContinueWith(p.assistantText.value))
    else if p.present && p.content != "" then
      if (IsTerminalType(p.msgType) || p.msgType == "") && MayDeliver(cfg, p.phase, p.content)
      then Some(DeliverAs(p.content, p.phase))
      else Some(ContinueWith(p.content))
    else None
  }

  lemma TrimOfPrefixed(prefix: string, s: string)
    requires prefix != "" && !IsWhitespace(prefix[0]) && !IsWhitespace(prefix[|prefix| - 1])
    ensures Trim(prefix + s) == prefix + TrimEnd(s)
  {
    assert TrimStart(prefix + s) == prefix + s;
    TrimEndOfPrefixed(prefix, s);
  }

  lemma {:induction false} TrimEndOfPrefixed(prefix: string, s: string)
    requires prefix != "" && !IsWhitespace(prefix[|prefix| - 1])
    ensures TrimEnd(prefix + s) == prefix + TrimEnd(s)
  {
    if s != "" {
      assert (prefix + s)[..|prefix + s| - 1] == prefix + s[..|s| - 1];
      TrimEndOfPrefixed(prefix, s[..|s| - 1]);
    } else {
      assert prefix + s == prefix;
    }
  }

  lemma PhaseEventIsOwnKind(rest: string)
    ensures var t := MESSAGE_PREFIX + rest;
            && t != TURN_END_IDLE && t != TURN_END_STOPPED && t != STREAM_END && t != IDLE_TIMEOUT
            && t != QUERY_TIMEOUT && t != STREAM_CLOSED && t != EVENT_FINAL_REPORT
  {
    var t := MESSAGE_PREFIX + rest;
    assert t[7] == 'p';
    assert STREAM_END[7] == 's' && EVENT_FINAL_REPORT[7] == 'o';
    assert t[1] == 'o' && t[0] == 's';
  }

  /** A deliverable found in the messages branch ends the runner's turn with the reply itself, unless the
      phase carries trailing blanks that are trimmed off on the way and leave an unknown phase. */
  lemma MessageDeliverableResolves(cfg: Config, p: MessagePayload, accumulated: string)
    requires cfg.minDeliverableRunes >= 1
    requires ClassifyMessages(cfg, p).Some? && ClassifyMessages(cfg, p).value.terminal.DeliverableComplete?
    ensures var r := ClassifyMessages(cfg, p).value;
            && !IsDaemonTurnEndEvent(r.completionEvent)
            && ResolveFinal(cfg, r, accumulated)
               == (if TrimEnd(p.phase) in cfg.deliverablePhases then Some(Trim(r.content)) else None)
  {
    var r := ClassifyMessages(cfg, p).value;
    assert r.completionEvent == MESSAGE_PREFIX + p.phase;
    assert IsSubstantive(cfg, r.content);
    PhaseEventIsDeliverable(cfg, p.phase);
  }

  /** The completion event of a phase counts as deliverable by what is left of the phase after trimming. */
  lemma PhaseEventIsDeliverable(cfg: Config, phase: string)
    ensures IsDeliverableCompletionEvent(cfg, MESSAGE_PREFIX + phase) <==> TrimEnd(phase) in cfg.deliverablePhases
    ensures !IsDaemonTurnEndEvent(MESSAGE_PREFIX + phase)
  {
    TrimOfPrefixed(MESSAGE_PREFIX, phase);
    PhaseEventIsOwnKind(TrimEnd(phase));
    var t := MESSAGE_PREFIX + TrimEnd(phase);
    assert t[|MESSAGE_PREFIX|..] == TrimEnd(phase);
  }
}
