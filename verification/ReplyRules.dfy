/** What the classifier makes of a message and of a finished query, rule by rule. */
module ReplyRules {
  import opened Options
  import opened Text
  import opened JsonValues
  import opened InboundPriority
  import opened TurnBoundary
  import opened Classifier
  import opened MessagePayloads

  predicate IsChunkType(t: string) {
    t == "AIMessageChunk" || t == "ai_chunk" || t == "message_chunk"
  }

  predicate IsAssistantType(t: string) {
    t == "" || t == "AIMessage" || t == "ai" || t == "assistant"
  }

  predicate LongEnough(cfg: Config, text: string) {
    |Trim(text)| >= cfg.minDeliverableRunes
  }

  /** What becomes of a message event whose first item has a type, a text and a phase. A chunk goes on; a loop
      message delivers when its phase may and it is long enough; untagged assistant text goes on, trimmed; any
      other phase delivers only assistant messages. */
  lemma MessageRule(cfg: Config, msg: Json, t: string, content: string, phase: string)
    requires FirstObject(DataOf(msg)) == Some(ItemObject(t, content, phase)) && DecodesAsEvent(msg) && content != ""
    ensures var deliverable := phase in cfg.deliverablePhases && LongEnough(cfg, content);
            ClassifyMessages(cfg, ReadPayload(msg)) == Some(
              if IsChunkType(t) then ContinueWith(content)
              else if IsLoopAssistantPhase(phase) then
                if deliverable then DeliverAs(content, phase) else ContinueWith(content)
              else if Trim(phase) == "" && IsAssistantType(t) && Trim(content) != "" then ContinueWith(Trim(content))
              else if IsAssistantType(t) && deliverable then DeliverAs(content, phase)
              else ContinueWith(content))
  {
    ReadItem(msg, t, content, phase);
    var item := ItemObject(t, content, phase);
    assert StrField(item, "type") == t && StrField(item, "content") == content && StrField(item, "phase") == phase;
  }

  /** A message event without an item says nothing to this branch. */
  lemma NoItemRule(cfg: Config, msg: Json)
    requires FirstObject(DataOf(msg)).None?
    ensures ClassifyMessages(cfg, ReadPayload(msg)).None?
  {
  }

  /** The parts of an item add up: strings and objects with a text count, anything else does not. */
  lemma PartsRule(items: seq<Json>, text: string)
    ensures JoinItems([]) == "" && JoinItems(items + [JStr(text)]) == JoinItems(items) + text
    ensures JoinItems(items + [JObj(map["text" := JStr(text)])]) == JoinItems(items) + text
    ensures JoinItems(items + [JNull]) == JoinItems(items)
  {
    JoinItemsNext(items, JStr(text));
    JoinItemsNext(items, JObj(map["text" := JStr(text)]));
    JoinItemsNext(items, JNull);
    assert StrField(JObj(map["text" := JStr(text)]), "text") == text;
    assert JoinItems(items) + "" == JoinItems(items);
  }

  /** Of the content blocks only the objects count. */
  lemma BlocksRule(blocks: seq<Json>, text: string)
    ensures JoinBlocks([]) == "" && JoinBlocks(blocks + [JObj(map["text" := JStr(text)])]) == JoinBlocks(blocks) + text
    ensures JoinBlocks(blocks + [JStr(text)]) == JoinBlocks(blocks)
  {
    JoinBlocksNext(blocks, JObj(map["text" := JStr(text)]));
    JoinBlocksNext(blocks, JStr(text));
    assert StrField(JObj(map["text" := JStr(text)]), "text") == text;
    assert JoinBlocks(blocks) + "" == JoinBlocks(blocks);
  }

  lemma JoinItemsNext(items: seq<Json>, item: Json)
    ensures JoinItems(items + [item]) == JoinItems(items) + ItemText(item)
  {
    assert (items + [item])[..|items|] == items;
  }

  lemma JoinBlocksNext(blocks: seq<Json>, block: Json)
    ensures JoinBlocks(blocks + [block]) == JoinBlocks(blocks) + StrField(block, "text")
  {
    assert (blocks + [block])[..|blocks|] == blocks;
  }

  /** The text of an item: its string, else its parts, else its content blocks. */
  lemma ContentRule(text: string, items: seq<Json>, blocks: seq<Json>)
    ensures ExtractContent(JObj(map["content" := JStr(text), "content_blocks" := JArr(blocks)]))
         == if text != "" then text else JoinBlocks(blocks)
    ensures ExtractContent(JObj(map["content" := JArr(items), "content_blocks" := JArr(blocks)]))
         == if JoinItems(items) != "" then JoinItems(items) else JoinBlocks(blocks)
    ensures ExtractContent(JObj(map[])) == ""
  {
    var m := JObj(map["content" := JStr(text), "content_blocks" := JArr(blocks)]);
    assert StrField(m, "content") == text && ItemsAt(m, "content") == [] && ItemsAt(m, "content_blocks") == blocks;
    var n := JObj(map["content" := JArr(items), "content_blocks" := JArr(blocks)]);
    assert StrField(n, "content") == "" && ItemsAt(n, "content") == items && ItemsAt(n, "content_blocks") == blocks;
  }

  // ----- Final answers -----

  /** The reply of a deliverable event: its own text, else the text so far if that is long enough. */
  lemma ResolveRule(cfg: Config, r: EventResult, accumulated: string)
    ensures ResolveFinal(cfg, r, accumulated) ==
              if r.terminal != DeliverableComplete || !IsDeliverableCompletionEvent(cfg, r.completionEvent) then None
              else if Trim(r.content) != "" then Some(Trim(r.content))
              else if Trim(accumulated) != "" && LongEnough(cfg, accumulated) then Some(Trim(accumulated))
              else None
  {
    TrimIdempotent(accumulated);
  }

  /** Events that are deliverable by name. */
  lemma NamedEventsDeliver(cfg: Config)
    ensures forall t :: t in {"status.idle", "status.stopped", "soothe.stream.end", "idle_timeout", "query_timeout",
                              "stream_closed", "soothe.output.autonomous.final_report.reported"} ==>
              IsDeliverableCompletionEvent(cfg, t)
    ensures !IsDeliverableCompletionEvent(cfg, "")
  {
    TrimFixed("status.idle");
    TrimFixed("status.stopped");
    TrimFixed("soothe.stream.end");
    TrimFixed("idle_timeout");
    TrimFixed("query_timeout");
    TrimFixed("stream_closed");
    TrimFixed("soothe.output.autonomous.final_report.reported");
    TrimFixed("");
  }

  predicate IsNamed(t: string) {
    || t == "status.idle" || t == "status.stopped" || t == "soothe.stream.end" || t == "idle_timeout"
    || t == "query_timeout" || t == "stream_closed" || t == "soothe.output.autonomous.final_report.reported"
  }

  /** Of the others, messages deliver by their phase and output events when they have responded. */
  lemma OtherEventsDeliverIff(cfg: Config, t: string)
    requires !IsNamed(Trim(t)) && Trim(t) != ""
    ensures IsDeliverableCompletionEvent(cfg, t) <==>
              if "soothe.protocol.message." <= Trim(t) then Trim(t)[24..] in cfg.deliverablePhases
              else Contains(Trim(t), "soothe.output") && Contains(Trim(t), "responded")
  {
    assert |"soothe.protocol.message."| == 24;
  }
}
