/** What the classifier reads out of a `messages` event (src/appkit/classifier.rs, src/protocol.rs). */
module MessagePayloads {
  import opened Options
  import opened Text
  import opened JsonValues
  import opened InboundPriority
  import opened TurnBoundary
  import opened Classifier

  /** Text of a content item: a string, or an object with a `text`. */
  function ItemText(item: Json): string {
    if item.JStr? then item.s else StrField(item, "text")
  }

  function JoinItems(items: seq<Json>): string {
    if items == [] then "" else JoinItems(items[..|items| - 1]) + ItemText(items[|items| - 1])
  }

  /** Here only the objects count. */
  function JoinBlocks(blocks: seq<Json>): string {
    if blocks == [] then "" else JoinBlocks(blocks[..|blocks| - 1]) + StrField(blocks[|blocks| - 1], "text")
  }

  function ItemsAt(m: Json, key: string): seq<Json> {
    if Get(m, key).Some? && Get(m, key).value.JArr? then Get(m, key).value.items else []
  }

  function ExtractContent(m: Json): string {
    if StrField(m, "content") != "" then StrField(m, "content")
    else if JoinItems(ItemsAt(m, "content")) != "" then JoinItems(ItemsAt(m, "content"))
    else JoinBlocks(ItemsAt(m, "content_blocks"))
  }

  /** The text of the typed message, which knows no content blocks. */
  function LoopText(m: Json): string {
    match Get(m, "content")
    case Some(JStr(s)) => s
    case Some(JArr(items)) => JoinItems(items)
    case Some(JObj(_)) => StrField(Get(m, "content").value, "text")
    case _ => ""
  }

  /** Phases whose messages the typed decoding recognises. */
  predicate IsLoopAssistantPhase(phase: string) {
    || phase == "goal_completion" || phase == "quiz" || phase == "autonomous_goal" || phase == "text_completion"
    || phase == "image_to_text" || phase == "ocr" || phase == "embed" || phase == "plan_direct" || phase == "chitchat"
  }

  /** An optional string field decodes when it is absent, null or a string. */
  predicate DecodesAsString(msg: Json, key: string) {
    Get(msg, key).None? || Get(msg, key).value.JNull? || Get(msg, key).value.JStr?
  }

  predicate DecodesAsEvent(msg: Json) {
    && DecodesAsString(msg, "request_id") && DecodesAsString(msg, "type") && DecodesAsString(msg, "loop_id")
    && DecodesAsString(msg, "mode") && DecodesAsString(msg, "timestamp")
  }

  function LoopType(m: Json): string {
    if Get(m, "type").Some? && Get(m, "type").value.JStr? then Get(m, "type").value.s else "ai"
  }

  /** Untagged assistant text: no phase, an assistant type or none, and not blank. */
  function AssistantText(m: Json): Option<string> {
    var msgType, content := StrField(m, "type"), Trim(ExtractContent(m));
    if Trim(StrField(m, "phase")) == "" && (msgType == "" || IsTerminalType(msgType)) && content != ""
    then Some(content) else None
  }

  /** The first item of a `messages` event. */
  function ReadPayload(msg: Json): MessagePayload {
    match FirstObject(DataOf(msg))
    case None => MessagePayload(false, "", "", "", None, None)
    case Some(m) =>
      var phase := StrField(m, "phase");
      var typed := if DecodesAsEvent(msg) && IsLoopAssistantPhase(phase)
                   then Some((LoopType(m), LoopText(m))) else None;
      MessagePayload(true, StrField(m, "type"), ExtractContent(m), phase, typed, AssistantText(m))
  }

  function ItemObject(msgType: string, content: string, phase: string): Json {
    JObj(map["type" := JStr(msgType), "content" := JStr(content), "phase" := JStr(phase)])
  }

  /** What is read of an item that has a type, a text and a phase. */
  lemma ReadItem(msg: Json, msgType: string, content: string, phase: string)
    requires FirstObject(DataOf(msg)) == Some(ItemObject(msgType, content, phase))
    requires DecodesAsEvent(msg) && content != ""
    ensures var p := ReadPayload(msg);
            && p.present && p.msgType == msgType && p.content == content && p.phase == phase
            && p.loopMessage == (if IsLoopAssistantPhase(phase) then Some((msgType, content)) else None)
            && (Trim(phase) != "" ==> p.assistantText.None?)
  {
    var m := ItemObject(msgType, content, phase);
    assert StrField(m, "type") == msgType && StrField(m, "content") == content && StrField(m, "phase") == phase;
  }

  const DONE_CONFIG := Config({"done "}, 8)
  const DONE_MESSAGE := JObj(map["type" := JStr("event"), "mode" := JStr("messages"),
                                 "data" := JArr([ItemObject("ai", "the answer", "done ")])])

  /** A deliverable phase that ends in a blank: its reply is classified as deliverable and yet resolves to
      nothing, because the blank is trimmed off the completion event. */
  lemma TrailingBlankPhaseIsLost()
    ensures var r := ClassifyMessages(DONE_CONFIG, ReadPayload(DONE_MESSAGE));
            && r.Some? && r.value.terminal.DeliverableComplete?
            && ResolveFinal(DONE_CONFIG, r.value, "").None?
  {
    DoneIsRead();
    DoneIsDeliverable(ReadPayload(DONE_MESSAGE));
    BlankIsTrimmed();
    MessageDeliverableResolves(DONE_CONFIG, ReadPayload(DONE_MESSAGE), "");
  }

  lemma DoneIsRead()
    ensures var p := ReadPayload(DONE_MESSAGE);
            && p.present && p.msgType == "ai" && p.content == "the answer" && p.phase == "done "
            && p.loopMessage.None? && p.assistantText.None?
  {
    var m := ItemObject("ai", "the answer", "done ");
    assert DONE_MESSAGE.fields["data"] == JArr([m]);
    assert FirstObject(DataOf(DONE_MESSAGE)) == Some(m);
    assert DecodesAsEvent(DONE_MESSAGE);
    BlankIsTrimmed();
    ReadItem(DONE_MESSAGE, "ai", "the answer", "done ");
  }

  lemma DoneIsDeliverable(p: MessagePayload)
    requires p.present && p.msgType == "ai" && p.content == "the answer" && p.phase == "done "
    requires p.loopMessage.None? && p.assistantText.None?
    ensures ClassifyMessages(DONE_CONFIG, p) == Some(DeliverAs("the answer", "done "))
  {
    TrimFixed("the answer");
  }

  lemma BlankIsTrimmed()
    ensures TrimEnd("done ") == "done" && Trim("done ") == "done"
  {
    assert "done "[..4] == "done";
    assert IsWhitespace("done "[4]);
    assert TrimEnd("done") == "done";
    assert TrimStart("done ") == "done ";
  }
}
