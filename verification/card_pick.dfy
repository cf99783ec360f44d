/** Picking cards from the deck (frontend-game/src/game/gameobjects/CardPickController.ts):
    clicking a card toggles it in the selected list and its highlight;
    hovering an unselected card raises it above the position it had when
    first hovered, and leaving it (or deselecting it) lowers it back. Each
    hovered card has a record of its original position, its running tween
    and whether that tween is a retreat. The tween engine is modelled only
    by its two callbacks: a tween ends (completes or is stopped). */
module CardPick {
  import opened Util
  import opened Models
  import opened Cards
  import GameCardCollections

  /** Tween lengths in ms and the rise height; easing is not modelled. */
  datatype PickConfig = PickConfig(durationRetreat: nat, durationRise: nat, riseOffset: real)

  /** The defaults a picker gets when nothing is overridden. */
  const DefaultPickConfig := PickConfig(150, 200, 40.0)

  datatype TweenKind = Rise | Retreat

  /** A running movement of one card towards `target`. */
  datatype CardTween = CardTween(kind: TweenKind, target: Point, duration: nat)

  /** What the controller remembers about a hovered card. */
  datatype TweenInfo = TweenInfo(originalPosition: Point, tween: Option<CardTween>, retreating: bool)

  // ---------------------------------------------------------------------
  // The selected list

  /** `indexOf`: the first position of `x` in `s`, if any. */
  function FirstIndex<T(==)>(s: seq<T>, x: T): (r: Option<nat>)
    ensures r.Some? ==> r.value < |s| && s[r.value] == x && x !in s[..r.value]
    ensures r.None? <==> x !in s
  {
    if s == [] then None
    else if s[0] == x then Some(0)
    else match FirstIndex(s[1..], x)
      case None => None
      case Some(i) => (assert s[..i + 1] == [s[0]] + s[1..][..i]; Some(i + 1))
  }

  /** A select event: splice out the first occurrence when present,
      otherwise push to the end. */
  function Toggled<T(==)>(s: seq<T>, x: T): seq<T> {
    match FirstIndex(s, x)
    case Some(i) => s[..i] + s[i + 1..]
    case None => s + [x]
  }

  /** Toggling keeps the list free of duplicates and changes its length by
      exactly one; there is no cap on the list's size. */
  lemma ToggledLength<T>(s: seq<T>, x: T)
    requires NoDup(s)
    ensures NoDup(Toggled(s, x))
    ensures x in s ==> |Toggled(s, x)| == |s| - 1
    ensures x !in s ==> |Toggled(s, x)| == |s| + 1
  {
    var t := Toggled(s, x);
    match FirstIndex(s, x)
    case Some(i) =>
      assert forall a, b :: 0 <= a < b < |t| ==>
        t[a] == s[if a < i then a else a + 1] && t[b] == s[if b < i then b else b + 1];
    case None =>
      assert forall a :: 0 <= a < |s| ==> t[a] == s[a];
  }

  /** After a select event the card is selected exactly when it was not
      before, and every other card keeps its selection. */
  lemma ToggledMembership<T>(s: seq<T>, x: T, y: T)
    requires NoDup(s)
    ensures x in Toggled(s, x) <==> x !in s
    ensures y != x ==> (y in Toggled(s, x) <==> y in s)
  {
    var t := Toggled(s, x);
    match FirstIndex(s, x)
    case Some(i) =>
      assert |t| == |s| - 1;
      assert forall k :: 0 <= k < i ==> t[k] == s[k];
      assert forall k :: i <= k < |t| ==> t[k] == s[k + 1];
      forall k | 0 <= k < |t| ensures t[k] != x {
        if k >= i {
          assert s[k + 1] != s[i];
        }
      }
      forall k | 0 <= k < |s| && k != i ensures s[k] in t {
        if k < i {
          assert t[k] == s[k];
        } else {
          assert t[k - 1] == s[k];
        }
      }
    case None =>
  }

  /** Selecting an unselected card and selecting it again restores the list. */
  lemma ToggledTwice<T>(s: seq<T>, x: T)
    requires x !in s
    ensures Toggled(Toggled(s, x), x) == s
  {
    var t := s + [x];
    assert Toggled(s, x) == t;
    assert forall k :: 0 <= k < |s| ==> t[k] == s[k] != x;
    assert t[|s|] == x;
    assert FirstIndex(t, x) == Some(|s|);
    assert t[..|s|] == s;
  }

  // ---------------------------------------------------------------------
  // The per-card tween record

  /** The retreating flag is set exactly while a retreat tween runs. */
  predicate Consistent(info: TweenInfo) {
    info.retreating <==> (info.tween.Some? && info.tween.value.kind == Retreat)
  }

  /** `tween.stop()` on the record's tween: a stopped retreat clears the
      flag through its stop handler; a rise has no handler. */
  function Stopped(info: TweenInfo): TweenInfo {
    if info.tween.Some? && info.tween.value.kind == Retreat then info.(retreating := false) else info
  }

  /** The record after a hover-enter on an unselected card: an existing
      record keeps its original position, a new one takes the card's
      current position; the running tween is replaced by a rise to
      `riseOffset` above the original position. */
  function RiseFrom(existing: Option<TweenInfo>, position: Point, cfg: PickConfig): (r: TweenInfo)
    ensures r.originalPosition == if existing.Some? then existing.value.originalPosition else position
    ensures r.tween.Some? && r.tween.value.kind == Rise && r.tween.value.duration == cfg.durationRise
    ensures r.tween.value.target == Point(r.originalPosition.x, r.originalPosition.y - cfg.riseOffset)
    ensures existing.Some? && Consistent(existing.value) ==> Consistent(r)
    ensures existing.None? ==> Consistent(r)
  {
    var base := Stopped(existing.GetOr(TweenInfo(position, None, false)));
    var o := base.originalPosition;
    base.(tween := Some(CardTween(Rise, Point(o.x, o.y - cfg.riseOffset), cfg.durationRise)))
  }

  /** The record once a retreat starts: flagged, and moving back to the
      original position. */
  function Retreated(info: TweenInfo, cfg: PickConfig): (r: TweenInfo)
    ensures r.originalPosition == info.originalPosition
    ensures Consistent(info) && !info.retreating ==> r.retreating && Consistent(r)
    ensures r.tween == Some(CardTween(Retreat, info.originalPosition, cfg.durationRetreat))
  {
    Stopped(info.(retreating := true)).(tween := Some(CardTween(Retreat, info.originalPosition, cfg.durationRetreat)))
  }

  /** The record once its tween completes or is stopped: no tween runs and
      the flag is clear. */
  function Ended(info: TweenInfo): (r: TweenInfo)
    ensures r.originalPosition == info.originalPosition && r.tween.None?
    ensures Consistent(info) ==> !r.retreating && Consistent(r)
  {
    Stopped(info).(tween := None)
  }

  /** `tryRetreatCard`'s effect on the records: nothing when the card is
      selected, was never hovered, or is already retreating. */
  function RetreatRecords(tweens: map<Card, TweenInfo>, selected: seq<Card>, card: Card, cfg: PickConfig): (r: map<Card, TweenInfo>)
    ensures r.Keys == tweens.Keys
    ensures forall c :: c in tweens && c != card ==> r[c] == tweens[c]
    ensures card in selected || card !in tweens || tweens[card].retreating ==> r == tweens
    ensures card !in selected && card in tweens && !tweens[card].retreating ==>
      r[card].tween == Some(CardTween(Retreat, tweens[card].originalPosition, cfg.durationRetreat)) &&
      r[card].originalPosition == tweens[card].originalPosition &&
      (Consistent(tweens[card]) ==> r[card].retreating)
  {
    if card in selected || card !in tweens || tweens[card].retreating then tweens
    else tweens[card := Retreated(tweens[card], cfg)]
  }

  /** Every record's flag agrees with its tween. */
  ghost predicate AllConsistent(tweens: map<Card, TweenInfo>) {
    forall c :: c in tweens ==> Consistent(tweens[c])
  }

  class CardPickController {
    const config: PickConfig
    /** The cards whose events the controller subscribed to. */
    const subscribed: seq<Card>
    var selectedList: seq<Card>
    var tweens: map<Card, TweenInfo>

    ghost predicate Valid()
      reads this
    {
      NoDup(selectedList) && AllConsistent(tweens)
    }

    /** Nothing selected, nothing hovered; subscribed to every card of the collection. */
    constructor (collection: GameCardCollections.GameCardCollection, newConfig: PickConfig)
      ensures Valid() && config == newConfig
      ensures subscribed == collection.Cards()
      ensures selectedList == [] && tweens == map[]
    {
      config := newConfig;
      subscribed := collection.cardList;
      selectedList := [];
      tweens := map[];
    }

    function IsCardSelected(card: Card): bool
      reads this
    {
      card in selectedList
    }

    method OnCardHoverEnter(card: Card)
      requires Valid()
      modifies this
      ensures Valid() && selectedList == old(selectedList)
      ensures old(IsCardSelected(card)) ==> tweens == old(tweens)
      ensures !old(IsCardSelected(card)) ==>
        tweens == old(tweens)[card := RiseFrom(if card in old(tweens) then Some(old(tweens)[card]) else None, card.Position(), config)]
    {
      if IsCardSelected(card) {
        return;
      }
      var info: TweenInfo;
      if card !in tweens {
        info := TweenInfo(card.Position(), None, false);
        tweens := tweens[card := info];
      } else {
        info := tweens[card];
      }
      info := Stopped(info);
      var o := info.originalPosition;
      info := info.(tween := Some(CardTween(Rise, Point(o.x, o.y - config.riseOffset), config.durationRise)));
      tweens := tweens[card := info];
    }

    method TryRetreatCard(card: Card)
      requires Valid()
      modifies this
      ensures Valid() && selectedList == old(selectedList)
      ensures tweens == RetreatRecords(old(tweens), old(selectedList), card, config)
    {
      if IsCardSelected(card) {
        return;
      }
      if card !in tweens {
        return;
      }
      var info := tweens[card];
      if info.retreating {
        return;
      }
      info := info.(retreating := true);
      info := Stopped(info);
      info := info.(tween := Some(CardTween(Retreat, info.originalPosition, config.durationRetreat)));
      tweens := tweens[card := info];
    }

    method OnCardHoverExit(card: Card)
      requires Valid()
      modifies this
      ensures Valid() && selectedList == old(selectedList)
      ensures tweens == RetreatRecords(old(tweens), old(selectedList), card, config)
    {
      TryRetreatCard(card);
    }

    /** A select event toggles the card in the list, highlights it exactly
        when it is now selected, and a deselected card always attempts a
        retreat. */
    method OnCardSelected(card: Card)
      requires Valid()
      modifies this, card
      ensures Valid()
      ensures selectedList == Toggled(old(selectedList), card)
      ensures IsCardSelected(card) == !old(IsCardSelected(card))
      ensures card.Highlighted() == IsCardSelected(card)
      ensures old(IsCardSelected(card)) ==> tweens == RetreatRecords(old(tweens), selectedList, card, config)
      ensures !old(IsCardSelected(card)) ==> tweens == old(tweens)
      ensures card.Position() == old(card.Position()) && card.currentHealth == old(card.currentHealth)
    {
      ToggledLength(selectedList, card);
      ToggledMembership(selectedList, card, card);
      var cardIndex := FirstIndex(selectedList, card);
      if cardIndex.Some? {
        selectedList := selectedList[..cardIndex.value] + selectedList[cardIndex.value + 1..];
        card.SetHighlighted(false);
        TryRetreatCard(card);
      } else {
        selectedList := selectedList + [card];
        card.SetHighlighted(true);
      }
    }

    /** The tween engine reports that a card's tween ran to its end: the
        card stands at the tween's target and the record is cleared. */
    method CompleteTween(card: Card)
      requires Valid() && card in tweens && tweens[card].tween.Some?
      modifies this, card
      ensures Valid() && selectedList == old(selectedList)
      ensures tweens == old(tweens)[card := Ended(old(tweens)[card])]
      ensures !tweens[card].retreating
      ensures card.Position() == old(tweens[card].tween.value.target)
      ensures card.Highlighted() == old(card.Highlighted()) && card.currentHealth == old(card.currentHealth)
    {
      card.SetPosition(tweens[card].tween.value.target);
      tweens := tweens[card := Ended(tweens[card])];
    }

    /** The tween engine stops a card's tween before its end: the card stays
        where it is and the record is cleared. */
    method StopTween(card: Card)
      requires Valid() && card in tweens
      modifies this
      ensures Valid() && selectedList == old(selectedList)
      ensures tweens == old(tweens)[card := Ended(old(tweens)[card])]
      ensures !tweens[card].retreating
    {
      tweens := tweens[card := Ended(tweens[card])];
    }
  }
}
