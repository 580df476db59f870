/** Card frames as a log: the projection they build up, and what the log itself says. Cards are of any
    kind `C`; `overlay` lays a patch over a card. */
module CardLog {
  import opened Options
  import opened Sequences

  /** A parsed `soothe.card.*` frame with the id it is filed under, empty when it has none. */
  datatype CardFrame<C> =
    | ReplayBegin
    | ReplayEnd
    | Created(id: string, card: C)
    | Patched(id: string, patch: C)

  // ----- The projection as transitions -----

  datatype Projection<C> = Projection(cards: map<string, C>, order: seq<string>, replaying: bool)

  function Empty<C>(): Projection<C> {
    Projection(map[], [], false)
  }

  function Apply<C>(overlay: (C, C) -> C, p: Projection<C>, f: CardFrame<C>): Projection<C> {
    match f
    case ReplayBegin => Projection(map[], [], true)
    case ReplayEnd => p.(replaying := false)
    case Created(id, card) =>
      if id == "" then p
      else p.(cards := p.cards[id := card], order := if id in p.cards then p.order else p.order + [id])
    case Patched(id, patch) =>
      if id == "" || id !in p.cards then p
      else p.(cards := p.cards[id := overlay(p.cards[id], patch)])
  }

  function ApplyAll<C>(overlay: (C, C) -> C, frames: seq<CardFrame<C>>): Projection<C> {
    if frames == [] then Empty() else Apply(overlay, ApplyAll(overlay, frames[..|frames| - 1]), frames[|frames| - 1])
  }

  function Snapshot<C>(p: Projection<C>): seq<C>
    requires forall id :: id in p.order ==> id in p.cards
  {
    seq(|p.order|, i requires 0 <= i < |p.order| => p.cards[p.order[i]])
  }

  // ----- The declarative view of a frame log -----

  /** The frames after the last replay begin. */
  function SinceReplay<C>(frames: seq<CardFrame<C>>): seq<CardFrame<C>> {
    if frames == [] then []
    else if frames[|frames| - 1].ReplayBegin? then []
    else SinceReplay(frames[..|frames| - 1]) + [frames[|frames| - 1]]
  }

  predicate Creates<C>(f: CardFrame<C>, id: string) {
    f.Created? && id != "" && f.id == id
  }

  predicate Patches<C>(f: CardFrame<C>, id: string) {
    f.Patched? && id != "" && f.id == id
  }

  function CreatesCard<C>(id: string): CardFrame<C> -> bool {
    (f: CardFrame<C>) => Creates(f, id)
  }

  /** Place of the last create of `id`, -1 when there is none. */
  function LastCreate<C>(frames: seq<CardFrame<C>>, id: string): (k: int)
    ensures -1 <= k < |frames|
    ensures k >= 0 ==> frames[k].Created?
  {
    LastIndex(CreatesCard(id), frames)
  }

  /** A card with the patches for `id` from place `from` on laid over it, in order. */
  function OverlayFrom<C>(overlay: (C, C) -> C, card: C, frames: seq<CardFrame<C>>, from: nat, id: string): C
    requires from <= |frames|
  {
    var n := |frames| - 1;
    if |frames| == from then card
    else
      var before := OverlayFrom(overlay, card, frames[..n], from, id);
      if Patches(frames[n], id) then overlay(before, frames[n].patch) else before
  }

  /** The card the log describes for `id`: its latest create, overlaid with the patches after it. */
  function CardOf<C>(overlay: (C, C) -> C, frames: seq<CardFrame<C>>, id: string): Option<C> {
    var k := LastCreate(frames, id);
    if k < 0 then None else Some(OverlayFrom(overlay, frames[k].card, frames, k + 1, id))
  }

  /** The created ids, each once, by first creation. */
  function CreationOrder<C>(frames: seq<CardFrame<C>>): seq<string> {
    if frames == [] then []
    else
      var before := CreationOrder(frames[..|frames| - 1]);
      var last := frames[|frames| - 1];
      if last.Created? && last.id != "" && last.id !in before then before + [last.id]
      else before
  }

  // ----- They agree -----

  lemma CardOfAppend<C>(overlay: (C, C) -> C, log: seq<CardFrame<C>>, f: CardFrame<C>, id: string)
    ensures var before := CardOf(overlay, log, id);
            CardOf(overlay, log + [f], id) ==
              if Creates(f, id) then Some(f.card)
              else if Patches(f, id) && before.Some? then Some(overlay(before.value, f.patch))
              else before
  {
    LastIndexAppend(CreatesCard(id), log, f);
    var k := LastCreate(log, id);
    if !Creates(f, id) && k >= 0 {
      OverlayFromAppend(overlay, log[k].card, log, f, k + 1, id);
    }
  }

  lemma OverlayFromAppend<C>(overlay: (C, C) -> C, card: C, log: seq<CardFrame<C>>, f: CardFrame<C>, from: nat,
                             id: string)
    requires from <= |log|
    ensures var before := OverlayFrom(overlay, card, log, from, id);
            OverlayFrom(overlay, card, log + [f], from, id)
            == if Patches(f, id) then overlay(before, f.patch) else before
  {
    assert (log + [f])[..|log|] == log;
  }

  /** The map holds, for every id, just what the log since the last replay begin says. */
  ghost predicate HoldsLog<C>(overlay: (C, C) -> C, p: Projection<C>, log: seq<CardFrame<C>>) {
    && (forall id :: id in p.cards <==> CardOf(overlay, log, id).Some?)
    && (forall id :: id in p.cards ==> CardOf(overlay, log, id) == Some(p.cards[id]))
  }

  lemma ApplyHoldsLog<C>(overlay: (C, C) -> C, p: Projection<C>, log: seq<CardFrame<C>>, f: CardFrame<C>)
    requires HoldsLog(overlay, p, log) && !f.ReplayBegin? && "" !in p.cards
    ensures HoldsLog(overlay, Apply(overlay, p, f), log + [f]) && "" !in Apply(overlay, p, f).cards
  {
    forall id ensures CardOf(overlay, log + [f], id)
                   == if id in Apply(overlay, p, f).cards then Some(Apply(overlay, p, f).cards[id]) else None
    {
      CardOfAppend(overlay, log, f, id);
    }
  }

  /** Order and map list the same ids, and the order lists each once. */
  ghost predicate OrderMatches<C>(p: Projection<C>) {
    && (forall i, j :: 0 <= i < j < |p.order| ==> p.order[i] != p.order[j])
    && (forall id :: id in p.order <==> id in p.cards)
  }

  lemma ApplyKeepsOrder<C>(overlay: (C, C) -> C, p: Projection<C>, f: CardFrame<C>)
    requires OrderMatches(p)
    ensures OrderMatches(Apply(overlay, p, f))
  {
  }

  lemma SinceReplayAppend<C>(frames: seq<CardFrame<C>>, f: CardFrame<C>)
    ensures SinceReplay(frames + [f]) == if f.ReplayBegin? then [] else SinceReplay(frames) + [f]
  {
    assert (frames + [f])[..|frames|] == frames;
  }

  lemma CreationOrderAppend<C>(log: seq<CardFrame<C>>, f: CardFrame<C>)
    ensures var before := CreationOrder(log);
            CreationOrder(log + [f])
            == if f.Created? && f.id != "" && f.id !in before then before + [f.id] else before
  {
    assert (log + [f])[..|log|] == log;
  }

  ghost predicate AgreesWithLog<C>(overlay: (C, C) -> C, p: Projection<C>, log: seq<CardFrame<C>>) {
    HoldsLog(overlay, p, log) && p.order == CreationOrder(log) && OrderMatches(p) && "" !in p.cards
  }

  lemma ApplyAgrees<C>(overlay: (C, C) -> C, p: Projection<C>, log: seq<CardFrame<C>>, f: CardFrame<C>)
    requires AgreesWithLog(overlay, p, log) && !f.ReplayBegin?
    ensures AgreesWithLog(overlay, Apply(overlay, p, f), log + [f])
  {
    ApplyHoldsLog(overlay, p, log, f);
    ApplyKeepsOrder(overlay, p, f);
    CreationOrderAppend(log, f);
  }

  /** The projection equals its log: which cards there are, what each of them is, and in which order. */
  lemma {:induction false} ProjectionEqualsLog<C>(overlay: (C, C) -> C, frames: seq<CardFrame<C>>)
    ensures AgreesWithLog(overlay, ApplyAll(overlay, frames), SinceReplay(frames))
  {
    if frames == [] {
      assert SinceReplay(frames) == [];
    } else {
      var init, f := frames[..|frames| - 1], frames[|frames| - 1];
      assert frames == init + [f];
      ProjectionEqualsLog(overlay, init);
      SinceReplayAppend(init, f);
      if !f.ReplayBegin? {
        ApplyAgrees(overlay, ApplyAll(overlay, init), SinceReplay(init), f);
      }
    }
  }
}
