/** The in-memory card projection (src/card_projection.rs). */
module CardProjection {
  import opened Options
  import opened Text
  import opened JsonValues
  import opened StreamTerminal
  import opened CardLog

  type Card = Fields

  function IdOf(card: Card): string {
    if "id" in card then Trim(AsStr(card["id"])) else ""
  }

  /** Fills in a missing or blank id. */
  function WithId(payload: Card, cardId: string): Card {
    if IdOf(payload) == "" && cardId != "" then payload["id" := JStr(cardId)] else payload
  }

  /** The id of a frame is that of the card it carries. */
  predicate IsParsed(f: CardFrame<Card>) {
    match f
    case Created(id, card) => id == IdOf(card)
    case Patched(id, patch) => id == IdOf(patch)
    case _ => true
  }

  function ParseCardFrame(data: Json): (f: Option<CardFrame<Card>>)
    ensures f.Some? ==> IsParsed(f.value)
  {
    if !data.JObj? then None
    else
      var wireType := Trim(StrField(data, "type"));
      if wireType == EVENT_CARD_REPLAY_BEGIN then Some(ReplayBegin)
      else if wireType == EVENT_CARD_REPLAY_END then Some(ReplayEnd)
      else
        var payload := if ObjField(data, "data").Some? then ObjField(data, "data").value.fields else map[];
        var outer := Trim(StrField(data, "card_id"));
        var cardId := if outer == "" then IdOf(payload) else outer;
        if wireType == EVENT_CARD_CREATED then
          if "type" !in payload || "content" !in payload then None
          else Some(Created(IdOf(WithId(payload, cardId)), WithId(payload, cardId)))
        else if wireType == EVENT_CARD_UPDATED || wireType == EVENT_CARD_FINALIZED then
          Some(Patched(IdOf(WithId(payload, cardId)), WithId(payload, cardId)))
        else None
  }

  predicate IsIdentity(key: string) {
    key == "id" || key == "type"
  }

  /** A patch overwrites everything but identity and type. */
  function Overlay(card: Card, patch: Card): Card {
    card + map k | k in patch && !IsIdentity(k) :: patch[k]
  }

  lemma OverlayIsPointwise(card: Card, patch: Card, next: Card)
    requires forall k :: k in next <==> k in card || (k in patch && !IsIdentity(k))
    requires forall k :: k in next ==> next[k] == if k in patch && !IsIdentity(k) then patch[k] else card[k]
    ensures next == Overlay(card, patch)
  {
  }

  // ----- The object -----

  class CardProjection {
    var cards: map<string, Card>
    var order: seq<string>
    var isReplaying: bool

    function View(): Projection<Card>
      reads this
    {
      Projection(cards, order, isReplaying)
    }

    constructor ()
      ensures View() == Empty()
    {
      cards, order, isReplaying := map[], [], false;
    }

    /** Copies the patch entry by entry, in any order of its keys. */
    method OverlayInto(existing: Card, patch: Card) returns (next: Card)
      ensures next == Overlay(existing, patch)
    {
      next := existing;
      var keys := patch.Keys;
      ghost var done: set<string> := {};
      while keys != {}
        invariant keys !! done && keys + done == patch.Keys
        invariant forall k :: k in next <==> k in existing || (k in done && !IsIdentity(k))
        invariant forall k :: k in next ==> next[k] == if k in done && !IsIdentity(k) then patch[k] else existing[k]
        decreases |keys|
      {
        var k :| k in keys;
        keys, done := keys - {k}, done + {k};
        if IsIdentity(k) {
          continue;
        }
        next := next[k := patch[k]];
      }
      OverlayIsPointwise(existing, patch, next);
    }

    /** Returns whether the payload was a card frame. */
    method ApplyPayload(data: Json) returns (handled: bool)
      modifies this
      ensures handled == ParseCardFrame(data).Some?
      ensures View() == if handled then Apply(Overlay, old(View()), ParseCardFrame(data).value) else old(View())
    {
      var parsed := ParseCardFrame(data);
      if parsed.None? {
        return false;
      }
      handled := true;
      match parsed.value
      case ReplayBegin =>
        isReplaying := true;
        cards, order := map[], [];
      case ReplayEnd =>
        isReplaying := false;
      case Created(_, card) =>
        var id := IdOf(card);
        if id == "" {
          return;
        }
        if id !in cards {
          order := order + [id];
        }
        cards := cards[id := card];
      case Patched(_, patch) =>
        var id := IdOf(patch);
        if id == "" || id !in cards {
          return;
        }
        var next := OverlayInto(cards[id], patch);
        cards := cards[id := next];
    }

    method TakeSnapshot() returns (out: seq<Card>)
      requires forall id :: id in order ==> id in cards
      ensures out == Snapshot(View())
    {
      out := [];
      for i := 0 to |order|
        invariant out == Snapshot(View())[..i]
      {
        assert order[i] in order;
        out := out + [cards[order[i]]];
      }
    }
  }

  /** What a client sees: the snapshot lists the created cards by first creation since the last replay
      begin, each as its latest create overlaid with the later patches. */
  lemma SnapshotEqualsLog(frames: seq<CardFrame<Card>>)
    ensures var p := ApplyAll(Overlay, frames);
            var log := SinceReplay(frames);
            && OrderMatches(p)
            && |Snapshot(p)| == |CreationOrder(log)|
            && forall i :: 0 <= i < |Snapshot(p)| ==>
                 CardOf(Overlay, log, CreationOrder(log)[i]) == Some(Snapshot(p)[i])
  {
    ProjectionEqualsLog(Overlay, frames);
    var p := ApplyAll(Overlay, frames);
    forall i | 0 <= i < |p.order| ensures p.order[i] in p.cards {
      assert p.order[i] in p.order;
    }
  }

  ghost predicate KeyedById(p: Projection<Card>) {
    forall id :: id in p.cards ==> IdOf(p.cards[id]) == id && id != ""
  }

  lemma OverlayKeepsId(card: Card, patch: Card)
    ensures IdOf(Overlay(card, patch)) == IdOf(card)
    ensures "type" in card ==> "type" in Overlay(card, patch) && Overlay(card, patch)["type"] == card["type"]
  {
  }

  /** Every stored card sits under its own trimmed id, whatever the patches tried to change. */
  lemma {:induction false} CardsAreKeyedById(frames: seq<CardFrame<Card>>)
    requires forall i :: 0 <= i < |frames| ==> IsParsed(frames[i])
    ensures KeyedById(ApplyAll(Overlay, frames))
  {
    if frames != [] {
      var n := |frames| - 1;
      CardsAreKeyedById(frames[..n]);
      ApplyKeepsKeys(ApplyAll(Overlay, frames[..n]), frames[n]);
    }
  }

  lemma ApplyKeepsKeys(p: Projection<Card>, f: CardFrame<Card>)
    requires KeyedById(p) && IsParsed(f)
    ensures KeyedById(Apply(Overlay, p, f))
  {
    if f.Patched? && f.id in p.cards {
      OverlayKeepsId(p.cards[f.id], f.patch);
    }
  }

  /** Delivering a frame twice in a row is the same as delivering it once. */
  lemma RepeatIsHarmless(p: Projection<Card>, f: CardFrame<Card>)
    ensures Apply(Overlay, Apply(Overlay, p, f), f) == Apply(Overlay, p, f)
  {
    if f.Patched? && f.id in p.cards {
      OverlayTwice(p.cards[f.id], f.patch);
    }
  }

  lemma OverlayTwice(card: Card, patch: Card)
    ensures Overlay(Overlay(card, patch), patch) == Overlay(card, patch)
  {
  }
}
