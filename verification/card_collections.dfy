/** A deck laid out on screen (frontend/src/game/gameobjects/CardCollection.ts):
    one card per description, placed in a single row or, when a column
    count is configured, in a grid; an inner container sized to fit the
    cards and centred on an origin placed at the configured point.
    Coordinates are exact reals. */
module CardCollections {
  import opened Util
  import opened Models
  import opened Cards

  datatype CollectionConfig = CollectionConfig(
    spacing: Option<real>,
    columns: Option<int>,
    info: seq<CardInfo>,
    x: real,
    y: real)

  /** `config.spacing || 10`: an absent or zero spacing falls back to 10. */
  function Spacing(config: CollectionConfig): (s: real)
    ensures s != 0.0
    ensures config.spacing.Some? && config.spacing.value != 0.0 ==> s == config.spacing.value
  {
    if config.spacing.Some? && config.spacing.value != 0.0 then config.spacing.value else 10.0
  }

  /** `config.columns && config.columns > 0`. */
  predicate IsGrid(config: CollectionConfig) {
    config.columns.Some? && config.columns.value > 0
  }

  // ---------------------------------------------------------------------
  // Row layout

  /** Centre x of card `i` in a row of cards `w` wide with gaps `s`. */
  function RowX(w: real, s: real, i: nat): real {
    w * (i as real + 0.5) + s * (i as real)
  }

  function RowWidth(n: nat, w: real, s: real): real {
    (n as real) * w + s * ((n as real) - 1.0)
  }

  /** Neighbouring cards in a row are one card width plus one gap apart. */
  lemma RowNeighbours(w: real, s: real, i: nat)
    ensures RowX(w, s, i + 1) - RowX(w, s, i) == w + s
  {
    assert w * ((i + 1) as real + 0.5) == w * (i as real + 0.5) + w;
    assert s * ((i + 1) as real) == s * (i as real) + s;
  }

  /** The row fills its container exactly: the first card's left edge is at 0
      and the last card's right edge at the container's width. */
  lemma RowFillsContainer(n: nat, w: real, s: real)
    requires n > 0
    ensures RowX(w, s, 0) - w / 2.0 == 0.0
    ensures RowX(w, s, n - 1) + w / 2.0 == RowWidth(n, w, s)
  {
    var m := (n - 1) as real;
    assert (n - 1) as real + 0.5 == m + 0.5;
    assert w * (m + 0.5) + w / 2.0 == w * (m + 1.0);
    assert (n as real) - 1.0 == m;
  }

  // ---------------------------------------------------------------------
  // Grid layout

  /** `Math.ceil(n / columns)` for a positive column count. */
  function Rows(n: nat, columns: int): nat
    requires columns > 0
  {
    (n + columns - 1) / columns
  }

  /** `Rows` is the ceiling of the quotient: every card fits in `Rows` rows,
      and one row fewer would not hold them all. */
  lemma RowsIsCeiling(n: nat, columns: int)
    requires columns > 0
    ensures n <= Rows(n, columns) * columns
    ensures n > 0 ==> (Rows(n, columns) - 1) * columns < n
    ensures n == 0 ==> Rows(n, columns) == 0
  {
    var q, r := (n + columns - 1) / columns, (n + columns - 1) % columns;
    assert n + columns - 1 == q * columns + r && 0 <= r < columns;
    assert q * columns >= n;
    assert (q - 1) * columns == q * columns - columns;
  }

  /** Centre of card `i` in a grid with `columns` columns. */
  function GridCell(w: real, h: real, s: real, columns: int, i: nat): Point
    requires columns > 0
  {
    Point(((i % columns) as real) * (w + s) + w / 2.0, ((i / columns) as real) * (h + s) + h / 2.0)
  }

  function GridWidth(columns: int, w: real, s: real): real {
    (columns as real) * w + ((columns as real) - 1.0) * s
  }

  function GridHeight(rows: nat, h: real, s: real): real {
    (rows as real) * h + ((rows as real) - 1.0) * s
  }

  /** Card `i` goes to column `i mod columns` of row `i div columns`, so two
      different cards never share a cell. */
  lemma GridCellsDistinct(columns: int, i: nat, j: nat)
    requires columns > 0 && i != j
    ensures (i % columns, i / columns) != (j % columns, j / columns)
  {
    assert i == (i / columns) * columns + i % columns;
    assert j == (j / columns) * columns + j % columns;
  }

  lemma NonNegProduct(a: real, b: real)
    requires a >= 0.0 && b >= 0.0
    ensures a * b >= 0.0
  {
  }

  lemma MulMonotone(a: int, b: int, c: int)
    requires a >= b && c >= 0
    ensures a * c >= b * c
  {
  }

  /** Along one axis: the `k`-th of `count` cells of size `size` with gaps `s`
      lies inside a span of `count * size + (count - 1) * s`. */
  lemma CellInSpan(k: nat, count: nat, size: real, s: real)
    requires k < count && size >= 0.0 && size + s >= 0.0
    ensures 0.0 <= (k as real) * (size + s)
    ensures (k as real) * (size + s) + size <= (count as real) * size + ((count as real) - 1.0) * s
  {
    var rest := (count - 1 - k) as real;
    NonNegProduct(k as real, size + s);
    NonNegProduct(rest, size + s);
    assert (k as real) * (size + s) + size + rest * (size + s)
      == (count as real) * size + ((count as real) - 1.0) * s;
  }

  /** Card `i` of `n` lies in a row below the row count. */
  lemma RowBelowRows(n: nat, columns: int, i: nat)
    requires columns > 0 && i < n
    ensures i / columns < Rows(n, columns)
  {
    RowsIsCeiling(n, columns);
    var row := i / columns;
    assert row * columns <= i by {
      assert i == row * columns + i % columns;
    }
    if row >= Rows(n, columns) {
      MulMonotone(row, Rows(n, columns), columns);
    }
  }

  /** With non-negative sizes and `w + s`, `h + s` non-negative, every card of
      the collection lies inside the grid container. */
  lemma GridCellInside(n: nat, columns: int, w: real, h: real, s: real, i: nat)
    requires columns > 0 && i < n
    requires w >= 0.0 && h >= 0.0 && w + s >= 0.0 && h + s >= 0.0
    ensures 0.0 <= GridCell(w, h, s, columns, i).x - w / 2.0
    ensures GridCell(w, h, s, columns, i).x + w / 2.0 <= GridWidth(columns, w, s)
    ensures 0.0 <= GridCell(w, h, s, columns, i).y - h / 2.0
    ensures GridCell(w, h, s, columns, i).y + h / 2.0 <= GridHeight(Rows(n, columns), h, s)
  {
    RowBelowRows(n, columns, i);
    CellInSpan(i % columns, columns, w, s);
    CellInSpan(i / columns, Rows(n, columns), h, s);
  }

  // ---------------------------------------------------------------------
  // The collection

  /** Where card `i` of `n` goes, for card size `w` by `h`. */
  function Slot(config: CollectionConfig, w: real, h: real, i: nat): Point {
    if IsGrid(config) then GridCell(w, h, Spacing(config), config.columns.value, i)
    else Point(RowX(w, Spacing(config), i), 0.0)
  }

  /** Size of the inner container holding `n` cards of size `w` by `h`. */
  function ContainerSize(config: CollectionConfig, n: nat, w: real, h: real): Point {
    if IsGrid(config) then
      Point(GridWidth(config.columns.value, w, Spacing(config)),
            GridHeight(Rows(n, config.columns.value), h, Spacing(config)))
    else Point(RowWidth(n, w, Spacing(config)), h)
  }

  /** `info.map(cardInfo => new Card(...))`: one fresh card per description,
      in order. */
  method MakeCards(info: seq<CardInfo>, backgroundWidth: real, backgroundHeight: real) returns (list: seq<Card>)
    ensures |list| == |info| && NoDup(list)
    ensures forall i :: 0 <= i < |list| ==> fresh(list[i]) && list[i].info == info[i] && list[i].Valid()
  {
    list := [];
    var k := 0;
    while k < |info|
      invariant 0 <= k <= |info| && |list| == k && NoDup(list)
      invariant forall i :: 0 <= i < k ==> fresh(list[i]) && list[i].info == info[i] && list[i].Valid()
    {
      var card := new Card(info[k], backgroundWidth, backgroundHeight);
      list := list + [card];
      k := k + 1;
    }
  }

  class CardCollection {
    const config: CollectionConfig
    var cardList: seq<Card>
    var width: real
    var height: real
    var innerX: real
    var innerY: real
    var originX: real
    var originY: real

    ghost predicate Valid()
      reads this
    {
      NoDup(cardList)
    }

    /** The cards sit in their slots, sized by the first card, and the inner
        container is sized to them and centred on the origin. */
    ghost predicate LaidOut()
      reads this, cardList
      requires |cardList| > 0
    {
      var w, h := cardList[0].width, cardList[0].height;
      && Point(width, height) == ContainerSize(config, |cardList|, w, h)
      && innerX == -width / 2.0 && innerY == -height / 2.0
      && forall i :: 0 <= i < |cardList| ==> cardList[i].Position() == Slot(config, w, h, i)
    }

    /** One fresh card per description, in order; laid out; the origin at
        the configured point. */
    constructor (config: CollectionConfig, backgroundWidth: real, backgroundHeight: real)
      ensures Valid() && this.config == config
      ensures |cardList| == |config.info|
      ensures forall i :: 0 <= i < |cardList| ==>
        fresh(cardList[i]) && cardList[i].info == config.info[i] && cardList[i].Valid()
      ensures |cardList| > 0 ==> LaidOut()
      ensures originX == config.x && originY == config.y
    {
      this.config := config;
      var list := MakeCards(config.info, backgroundWidth, backgroundHeight);
      cardList := list;
      width, height, innerX, innerY := 0.0, 0.0, 0.0, 0.0;
      originX, originY := 0.0, 0.0;
      new;
      RealignContainer();
      originX := config.x;
      originY := config.y;
    }

    function Cards(): seq<Card>
      reads this
    {
      cardList
    }

    method RealignContainer()
      requires Valid()
      modifies this, set c | c in cardList
      ensures Valid() && cardList == old(cardList) && originX == old(originX) && originY == old(originY)
      ensures |cardList| == 0 ==>
        width == old(width) && height == old(height) && innerX == old(innerX) && innerY == old(innerY)
      ensures |cardList| > 0 ==> LaidOut()
      ensures forall i :: 0 <= i < |cardList| ==>
        cardList[i].currentHealth == old(cardList[i].currentHealth) &&
        cardList[i].healthText == old(cardList[i].healthText) &&
        cardList[i].Highlighted() == old(cardList[i].Highlighted()) &&
        cardList[i].highlightVisible == old(cardList[i].highlightVisible) &&
        cardList[i].healthTweens == old(cardList[i].healthTweens)
    {
      if |cardList| == 0 {
        return;
      }
      var cards := cardList;
      var w, h := cards[0].width, cards[0].height;
      var size := ContainerSize(config, |cards|, w, h);
      width, height := size.x, size.y;
      innerX, innerY := -size.x / 2.0, -size.y / 2.0;
      var i := 0;
      while i < |cards|
        invariant 0 <= i <= |cards| && cards == cardList
        invariant width == size.x && height == size.y && innerX == -size.x / 2.0 && innerY == -size.y / 2.0
        invariant originX == old(originX) && originY == old(originY)
        invariant forall j :: 0 <= j < i ==> cards[j].Position() == Slot(config, w, h, j)
        invariant forall j :: 0 <= j < |cards| ==>
          cards[j].currentHealth == old(cards[j].currentHealth) &&
          cards[j].healthText == old(cards[j].healthText) &&
          cards[j].highlightActive == old(cards[j].highlightActive) &&
          cards[j].highlightVisible == old(cards[j].highlightVisible) &&
          cards[j].healthTweens == old(cards[j].healthTweens)
      {
        cards[i].SetPosition(Slot(config, w, h, i));
        i := i + 1;
      }
    }
  }
}
