/** The picker's deck on screen (frontend-game/src/game/gameobjects/CardCollection.ts):
    one card per description, always in a single row. Unlike the battle
    scene's collection there is no spacing default and no grid, and each
    card is placed with `(i - 1)` gaps to its left rather than `i`, which
    shifts the whole row one gap to the left of its container. */
module GameCardCollections {
  import opened Util
  import opened Models
  import opened Cards
  import CardCollections

  datatype GameCollectionConfig = GameCollectionConfig(spacing: real, info: seq<CardInfo>, x: real, y: real)

  /** Centre x of card `i` in this row. */
  function GameRowX(w: real, s: real, i: nat): real {
    w * (i as real + 0.5) + s * ((i as real) - 1.0)
  }

  /** The row is the battle scene's row moved left by one gap. */
  lemma ShiftedByOneGap(w: real, s: real, i: nat)
    ensures GameRowX(w, s, i) == CardCollections.RowX(w, s, i) - s
  {
    assert s * ((i as real) - 1.0) == s * (i as real) - s;
  }

  /** Neighbouring cards are one card width plus one gap apart. */
  lemma GameRowNeighbours(w: real, s: real, i: nat)
    ensures GameRowX(w, s, i + 1) - GameRowX(w, s, i) == w + s
  {
    ShiftedByOneGap(w, s, i);
    ShiftedByOneGap(w, s, i + 1);
    CardCollections.RowNeighbours(w, s, i);
  }

  /** The first card's left edge is at `-s` and the last card's right edge
      at the container's width minus `s`. */
  lemma GameRowEdges(n: nat, w: real, s: real)
    requires n > 0
    ensures GameRowX(w, s, 0) - w / 2.0 == -s
    ensures GameRowX(w, s, n - 1) + w / 2.0 == CardCollections.RowWidth(n, w, s) - s
  {
    ShiftedByOneGap(w, s, 0);
    ShiftedByOneGap(w, s, n - 1);
    CardCollections.RowFillsContainer(n, w, s);
  }

  class GameCardCollection {
    const config: GameCollectionConfig
    var cardList: seq<Card>
    var width: real
    var height: real
    var innerX: real
    var innerY: real
    var originX: real
    var originY: real

    ghost predicate Valid()
      reads this
    {
      NoDup(cardList)
    }

    /** The cards sit in the shifted row, sized by the first card, and the
        inner container is sized to the row and centred on the origin. */
    ghost predicate LaidOut()
      reads this, cardList
      requires |cardList| > 0
    {
      var w, h := cardList[0].width, cardList[0].height;
      && width == CardCollections.RowWidth(|cardList|, w, config.spacing) && height == h
      && innerX == -width / 2.0 && innerY == -height / 2.0
      && forall i :: 0 <= i < |cardList| ==> cardList[i].Position() == Point(GameRowX(w, config.spacing, i), 0.0)
    }

    /** One fresh card per description, in order; laid out; the origin at
        the configured point. */
    constructor (config: GameCollectionConfig, backgroundWidth: real, backgroundHeight: real)
      ensures Valid() && this.config == config
      ensures |cardList| == |config.info|
      ensures forall i :: 0 <= i < |cardList| ==>
        fresh(cardList[i]) && cardList[i].info == config.info[i] && cardList[i].Valid()
      ensures |cardList| > 0 ==> LaidOut()
      ensures Position() == Point(config.x, config.y)
    {
      this.config := config;
      var list := CardCollections.MakeCards(config.info, backgroundWidth, backgroundHeight);
      cardList := list;
      width, height, innerX, innerY := 0.0, 0.0, 0.0, 0.0;
      originX, originY := 0.0, 0.0;
      new;
      RealignContainer();
      originX := config.x;
      originY := config.y;
    }

    function Cards(): seq<Card>
      reads this
    {
      cardList
    }

    function Position(): Point
      reads this
    {
      Point(originX, originY)
    }

    method SetPosition(p: Point)
      modifies this
      ensures Position() == p
      ensures cardList == old(cardList) && width == old(width) && height == old(height)
      ensures innerX == old(innerX) && innerY == old(innerY)
    {
      originX, originY := p.x, p.y;
    }

    method RealignContainer()
      requires Valid()
      modifies this, set c | c in cardList
      ensures Valid() && cardList == old(cardList) && Position() == old(Position())
      ensures |cardList| == 0 ==>
        width == old(width) && height == old(height) && innerX == old(innerX) && innerY == old(innerY)
      ensures |cardList| > 0 ==> LaidOut()
      ensures forall i :: 0 <= i < |cardList| ==>
        cardList[i].currentHealth == old(cardList[i].currentHealth) &&
        cardList[i].healthText == old(cardList[i].healthText) &&
        cardList[i].Highlighted() == old(cardList[i].Highlighted()) &&
        cardList[i].highlightVisible == old(cardList[i].highlightVisible) &&
        cardList[i].healthTweens == old(cardList[i].healthTweens)
    {
      if |cardList| == 0 {
        return;
      }
      var cards := cardList;
      var w, h := cards[0].width, cards[0].height;
      width := CardCollections.RowWidth(|cards|, w, config.spacing);
      height := h;
      innerX, innerY := -width / 2.0, -height / 2.0;
      var i := 0;
      while i < |cards|
        invariant 0 <= i <= |cards| && cards == cardList
        invariant width == CardCollections.RowWidth(|cards|, w, config.spacing) && height == h
        invariant innerX == -width / 2.0 && innerY == -height / 2.0
        invariant originX == old(originX) && originY == old(originY)
        invariant forall j :: 0 <= j < i ==> cards[j].Position() == Point(GameRowX(w, config.spacing, j), 0.0)
        invariant forall j :: 0 <= j < |cards| ==>
          cards[j].currentHealth == old(cards[j].currentHealth) &&
          cards[j].healthText == old(cards[j].healthText) &&
          cards[j].highlightActive == old(cards[j].highlightActive) &&
          cards[j].highlightVisible == old(cards[j].highlightVisible) &&
          cards[j].healthTweens == old(cards[j].healthTweens)
      {
        cards[i].SetPosition(Point(GameRowX(w, config.spacing, i), 0.0));
        i := i + 1;
      }
    }
  }
}
