/** Card payloads on JSON: which frame each of them is, and what a patch does, field by field. */
module CardRules {
  import opened Options
  import opened Text
  import opened JsonValues
  import opened CardLog
  import opened CardProjection

  function CardMessage(t: string, cardId: string, card: Card): Json {
    JObj(map["type" := JStr(t), "card_id" := JStr(cardId), "data" := JObj(card)])
  }

  /** The card's own id, else the one beside it. */
  function FiledUnder(cardId: string, card: Card): string {
    if IdOf(card) != "" then IdOf(card) else Trim(cardId)
  }

  /** The card as it is stored: with that id filled in when it had none. */
  function Filled(cardId: string, card: Card): Card {
    if IdOf(card) == "" && Trim(cardId) != "" then card["id" := JStr(Trim(cardId))] else card
  }

  /** A create needs a type and content; updates and final versions are patches; the replay marks carry no card;
      nothing else is a card frame. */
  lemma ParseRule(t: string, cardId: string, card: Card)
    ensures ParseCardFrame(CardMessage(t, cardId, card)) ==
              if Trim(t) == "soothe.card.replay.begin" then Some(ReplayBegin)
              else if Trim(t) == "soothe.card.replay.end" then Some(ReplayEnd)
              else if Trim(t) == "soothe.card.created" then
                (if "type" in card && "content" in card
                 then Some(Created(FiledUnder(cardId, card), Filled(cardId, card))) else None)
              else if Trim(t) == "soothe.card.updated" || Trim(t) == "soothe.card.finalized" then
                Some(Patched(FiledUnder(cardId, card), Filled(cardId, card)))
              else None
  {
    var msg := CardMessage(t, cardId, card);
    assert StrField(msg, "type") == t && StrField(msg, "card_id") == cardId;
    assert ObjField(msg, "data") == Some(JObj(card));
    FilledId(cardId, card);
    TrimIdempotent(cardId);
  }

  lemma FilledId(cardId: string, card: Card)
    ensures IdOf(Filled(cardId, card)) == FiledUnder(cardId, card)
  {
    TrimIdempotent(cardId);
  }

  /** A patched card: every field of the patch but `id` and `type` takes its new value, every other field of the
      card stays. */
  lemma OverlayRule(card: Card, patch: Card, k: string)
    ensures var next := Overlay(card, patch);
            if k in patch && k != "id" && k != "type" then k in next && next[k] == patch[k]
            else (k in next <==> k in card) && (k in card ==> next[k] == card[k])
  {
  }

  /** A create and a patch of the same id leave one card, patched. */
  lemma CreateThenPatch(id: string, card: Card, patch: Card)
    requires id != ""
    ensures ApplyAll(Overlay, [Created(id, card), Patched(id, patch)])
         == Projection(map[id := Overlay(card, patch)], [id], false)
  {
    var frames := [Created(id, card), Patched(id, patch)];
    assert frames[..1] == [Created(id, card)] && frames[..1][..0] == [];
    assert ApplyAll(Overlay, frames[..1]) == Projection(map[id := card], [id], false);
  }

  /** A replay is on exactly when its begin has come and its end has not. */
  lemma {:induction false} ReplayingIff<C>(overlay: (C, C) -> C, frames: seq<CardFrame<C>>)
    ensures ApplyAll(overlay, frames).replaying <==>
              exists k :: 0 <= k < |frames| && frames[k].ReplayBegin? && !EndsAfter(frames, k)
  {
    if frames != [] {
      var n := |frames| - 1;
      ReplayingIff(overlay, frames[..n]);
      forall k | 0 <= k < n
        ensures EndsAfter(frames, k) == (EndsAfter(frames[..n], k) || frames[n].ReplayEnd?)
        ensures frames[..n][k] == frames[k]
      {
        EndsAfterNext(frames, k);
      }
      if frames[n].ReplayBegin? {
        assert !EndsAfter(frames, n);
      }
    }
  }

  predicate EndsAfter<C>(frames: seq<CardFrame<C>>, k: int) {
    exists j :: k < j < |frames| && 0 <= j && frames[j].ReplayEnd?
  }

  lemma EndsAfterNext<C>(frames: seq<CardFrame<C>>, k: int)
    requires 0 <= k < |frames| - 1
    ensures EndsAfter(frames, k) == (EndsAfter(frames[..|frames| - 1], k) || frames[|frames| - 1].ReplayEnd?)
  {
    var n := |frames| - 1;
    if j :| k < j < n && frames[..n][j].ReplayEnd? {
      assert frames[j].ReplayEnd?;
    }
    if j :| k < j < |frames| && frames[j].ReplayEnd? && j < n {
      assert frames[..n][j].ReplayEnd?;
    }
  }
}
