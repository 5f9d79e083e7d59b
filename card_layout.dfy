/**
 * Values, placement rules and scroll clamping of the card-stack layout manager.
 *
 * The layout manager shows at most three overlapping cards. The card for
 * adapter position i is anchored near the bottom-right corner of the
 * viewport and pushed a further 40 px right and down per position, so the
 * card for position 0 is the one nearest the corner. A horizontal scroll
 * does not move the cards sideways; it only raises or lowers all of them.
 */
module CardLayout {

  /** Largest number of cards attached at once (MAX_CARD). */
  const MaxCard: nat := 3
  /** Distance of the position-0 card's bottom-right corner from the viewport's. */
  const EdgeMargin: int := 100
  /** Extra offset, right and down, for each position further back. */
  const Stagger: int := 40
  /** Fixed margin kept between the last card and the end edge when scrolling. */
  const EndMargin: int := 20

  datatype Option<T> = None | Some(value: T)

  /**
   * Measured size of an item view, its layout margins included, together with
   * its right margin (part of `width`).
   */
  datatype Size = Size(width: int, height: int, rightMargin: int)

  datatype Rect = Rect(left: int, top: int, right: int, bottom: int)

  /**
   * An attached item view: its adapter position, the box it was laid out in
   * with its margins included, and its right margin.
   */
  datatype Child = Child(position: nat, rect: Rect, rightMargin: int)

  /** Right edge of the view's decorated bounds: its box without the right margin. */
  function DecoratedRight(c: Child): int
  {
    c.rect.right - c.rightMargin
  }

  /** Number of cards the first layout pass attaches for `itemCount` items. */
  function CardCount(itemCount: nat): (n: nat)
    ensures n <= MaxCard && n <= itemCount
    ensures n == MaxCard || n == itemCount
  {
    if itemCount < MaxCard then itemCount else MaxCard
  }

  /**
   * The margin-inclusive box of the card for position `i`, measured as
   * `size`, in a viewport of `width` x `height`.
   */
  function PlaceCard(i: nat, size: Size, width: int, height: int): (c: Child)
    ensures c.position == i && c.rightMargin == size.rightMargin
    ensures c.rect.right - c.rect.left == size.width
    ensures c.rect.bottom - c.rect.top == size.height
    ensures c.rect.right == width - EdgeMargin + Stagger * i
    ensures c.rect.bottom == height - EdgeMargin + Stagger * i
  {
    var dx := width - EdgeMargin + Stagger * i;
    var dy := height - EdgeMargin + Stagger * i;
    Child(i, Rect(dx - size.width, dy - size.height, dx, dy), size.rightMargin)
  }

  /**
   * The children attached by the loop of the first layout pass once it has
   * run for positions `count - 1` down to `low`, in attachment order.
   */
  function AttachedDownTo(items: seq<Size>, count: nat, low: nat, width: int, height: int): (cs: seq<Child>)
    requires low <= count <= |items|
    ensures |cs| == count - low
    decreases count - low
  {
    if low == count then []
    else AttachedDownTo(items, count, low + 1, width, height) + [PlaceCard(low, items[low], width, height)]
  }

  /** The children the first layout pass leaves attached. */
  function InitialDeck(items: seq<Size>, width: int, height: int): (cs: seq<Child>)
    ensures |cs| == CardCount(|items|)
  {
    AttachedDownTo(items, CardCount(|items|), 0, width, height)
  }

  /** Children in attachment order: positions `|cs| - 1`, ..., 1, 0. */
  ghost predicate AttachOrder(cs: seq<Child>)
  {
    forall j :: 0 <= j < |cs| ==> cs[j].position == |cs| - 1 - j
  }

  /** The `k`-th attached card is the one placed for position `count - 1 - k`. */
  lemma {:induction false} AttachedAt(items: seq<Size>, count: nat, low: nat, width: int, height: int, k: nat)
    requires low <= count <= |items|
    requires k < count - low
    ensures AttachedDownTo(items, count, low, width, height)[k]
            == PlaceCard(count - 1 - k, items[count - 1 - k], width, height)
    decreases count - low
  {
    if k < count - low - 1 {
      AttachedAt(items, count, low + 1, width, height, k);
    }
  }

  /**
   * The first layout pass attaches min(3, itemCount) cards, positions
   * count-1 down to 0, each placed by PlaceCard from its own measured size.
   */
  lemma InitialDeckShape(items: seq<Size>, width: int, height: int)
    ensures var cs := InitialDeck(items, width, height);
      |cs| == CardCount(|items|) &&
      AttachOrder(cs) &&
      (forall j :: 0 <= j < |cs| ==>
         cs[j] == PlaceCard(cs[j].position, items[cs[j].position], width, height))
  {
    var cs := InitialDeck(items, width, height);
    forall j | 0 <= j < |cs|
      ensures cs[j].position == |cs| - 1 - j
      ensures cs[j] == PlaceCard(cs[j].position, items[cs[j].position], width, height)
    {
      AttachedAt(items, CardCount(|items|), 0, width, height, j);
    }
  }

  /**
   * Every child's right edge sits 100 px in from the viewport's plus 40 px per
   * position, and its bottom edge likewise, moved vertically by `drift`: all
   * cards have been moved up or down together, never sideways.
   */
  ghost predicate Anchored(cs: seq<Child>, width: int, height: int, drift: int)
  {
    forall j :: 0 <= j < |cs| ==>
      cs[j].rect.right == width - EdgeMargin + Stagger * cs[j].position &&
      cs[j].rect.bottom == height - EdgeMargin + Stagger * cs[j].position + drift
  }

  /** The first layout pass leaves its cards anchored, not yet moved. */
  lemma InitialDeckAnchored(items: seq<Size>, width: int, height: int)
    ensures Anchored(InitialDeck(items, width, height), width, height, 0)
  {
    InitialDeckShape(items, width, height);
  }

  /**
   * Neighbouring cards of the first layout are 40 px apart at their right and
   * bottom edges, and at every edge when their measured sizes are equal.
   */
  lemma InitialDeckStagger(items: seq<Size>, width: int, height: int, j: nat)
    requires j + 1 < |InitialDeck(items, width, height)|
    ensures var cs := InitialDeck(items, width, height);
      cs[j].position == cs[j + 1].position + 1 &&
      cs[j].rect.right == cs[j + 1].rect.right + Stagger &&
      cs[j].rect.bottom == cs[j + 1].rect.bottom + Stagger &&
      (items[cs[j].position] == items[cs[j + 1].position] ==>
         cs[j].rect.left == cs[j + 1].rect.left + Stagger &&
         cs[j].rect.top == cs[j + 1].rect.top + Stagger)
  {
    var count := CardCount(|items|);
    AttachedAt(items, count, 0, width, height, j);
    AttachedAt(items, count, 0, width, height, j + 1);
  }

  /** The most recently attached child, if any (getChildAt(getChildCount() - 1)). */
  function LastChild(cs: seq<Child>): (last: Option<Child>)
    ensures last.None? <==> cs == []
    ensures last.Some? ==> last.value in cs
  {
    if cs == [] then None else Some(cs[|cs| - 1])
  }

  /** Children attached in attachment order always end with position 0. */
  lemma LastChildIsFront(cs: seq<Child>)
    requires AttachOrder(cs) && cs != []
    ensures LastChild(cs) == Some(cs[|cs| - 1]) && cs[|cs| - 1].position == 0
  {
  }

  /** The last child is the adapter's last item, so the end edge can be reached. */
  predicate AtEnd(last: Option<Child>, itemCount: int)
  {
    last.Some? && last.value.position == itemCount - 1
  }

  /**
   * Room left between the last card's decorated right edge and the end edge,
   * less the fixed margin.
   */
  function Gap(last: Child, viewportEnd: int): int
  {
    viewportEnd - DecoratedRight(last) - EndMargin
  }

  /**
   * The distance a non-rejected scroll of `dx` actually consumes, with the
   * current offset `offset`, last attached child `last`, `itemCount` items
   * and the end edge at `viewportEnd` (width minus end padding).
   */
  function ClampDelta(dx: int, offset: int, last: Option<Child>, itemCount: int, viewportEnd: int): (r: int)
    // a scroll that would pass the start lands exactly on offset 0
    ensures offset + dx < 0 ==> offset + r == 0
    // scrolling back within range, or forward when the end is not attached, is not clamped
    ensures offset + dx >= 0 && (dx <= 0 || !AtEnd(last, itemCount)) ==> r == dx
    // forward at the end: never more than requested nor past the end; nothing when resting
    ensures offset + dx >= 0 && dx > 0 && AtEnd(last, itemCount) && Gap(last.value, viewportEnd) <= 0 ==>
      0 <= r <= dx && r <= -Gap(last.value, viewportEnd) &&
      (r == dx || r == -Gap(last.value, viewportEnd))
    // forward at the end with room left: consumes minus the gap (a move backwards)
    ensures offset + dx >= 0 && dx > 0 && AtEnd(last, itemCount) && Gap(last.value, viewportEnd) > 0 ==>
      r < 0 && r == -Gap(last.value, viewportEnd)
  {
    if offset + dx < 0 then -offset
    else if dx > 0 && AtEnd(last, itemCount) then
      var gap := Gap(last.value, viewportEnd);
      if gap > 0 then -gap
      else if gap == 0 then 0
      else if dx < -gap then dx else -gap
    else dx
  }

  /**
   * The end-edge clamp needs the last child to be the adapter's last item;
   * since cards are attached back to front that child is position 0, so the
   * clamp can only apply when the adapter holds exactly one item.
   */
  lemma EndClampNeedsSingleItem(cs: seq<Child>, itemCount: int)
    requires AttachOrder(cs)
    requires AtEnd(LastChild(cs), itemCount)
    ensures itemCount == 1
  {
    LastChildIsFront(cs);
  }

  /**
   * With more than one item, a forward scroll is never clamped at the end:
   * it consumes the whole request unless it would pass the start.
   */
  lemma ScrollUnclampedWithManyItems(dx: int, offset: int, cs: seq<Child>, itemCount: int, viewportEnd: int)
    requires AttachOrder(cs) && itemCount != 1
    ensures ClampDelta(dx, offset, LastChild(cs), itemCount, viewportEnd)
            == if offset + dx < 0 then -offset else dx
  {
    if AtEnd(LastChild(cs), itemCount) {
      EndClampNeedsSingleItem(cs, itemCount);
    }
  }

  /** With a single item, the first layout pass attaches just its card, for position 0. */
  lemma SingleItemDeck(s: Size, width: int, height: int)
    ensures InitialDeck([s], width, height) == [PlaceCard(0, s, width, height)]
  {
    assert AttachedDownTo([s], 1, 1, width, height) == [];
  }

  /**
   * With a single item, in any state where the children are in attachment
   * order and anchored, the card's gap to the end edge is 80 px minus the end
   * padding plus its right margin, whatever its size, the viewport's width and
   * how far it has been moved. When that gap is positive, every forward scroll
   * that does not pass the start consumes minus the gap: the offset drops by
   * the gap, below 0 when it starts below the gap, and keeps dropping on
   * larger drags.
   */
  lemma SingleCardForwardScroll(cs: seq<Child>, width: int, height: int, drift: int,
                                paddingEnd: int, offset: int, dx: int)
    requires cs != [] && AttachOrder(cs) && Anchored(cs, width, height, drift)
    requires dx > 0 && offset + dx >= 0
    ensures var last := LastChild(cs);
      var gap := EdgeMargin - EndMargin - paddingEnd + last.value.rightMargin;
      AtEnd(last, 1) &&
      Gap(last.value, width - paddingEnd) == gap &&
      (gap > 0 ==> offset + ClampDelta(dx, offset, last, 1, width - paddingEnd) == offset - gap)
  {
    LastChildIsFront(cs);
    var front := cs[|cs| - 1];
    assert front.rect.right == width - EdgeMargin + Stagger * front.position;
  }

  /** Moves a child vertically by `dy`. */
  function ShiftVertical(c: Child, dy: int): Child
  {
    Child(c.position, Rect(c.rect.left, c.rect.top + dy, c.rect.right, c.rect.bottom + dy), c.rightMargin)
  }

  /** Every child moved vertically by `dy` (offsetChildrenVertical). */
  function OffsetAll(cs: seq<Child>, dy: int): (moved: seq<Child>)
    ensures |moved| == |cs|
  {
    seq(|cs|, j requires 0 <= j < |cs| => ShiftVertical(cs[j], dy))
  }

  /**
   * Offsetting keeps the number of children, their positions and their left
   * and right edges, and moves every top and bottom edge by exactly `dy`.
   */
  lemma OffsetAllMovesVertically(cs: seq<Child>, dy: int)
    ensures var moved := OffsetAll(cs, dy);
      |moved| == |cs| &&
      forall j :: 0 <= j < |cs| ==>
        moved[j].position == cs[j].position && moved[j].rightMargin == cs[j].rightMargin &&
        moved[j].rect.left == cs[j].rect.left && moved[j].rect.right == cs[j].rect.right &&
        moved[j].rect.top == cs[j].rect.top + dy && moved[j].rect.bottom == cs[j].rect.bottom + dy
  {
  }

  /** Two vertical offsets add up, and an offset of 0 moves nothing. */
  lemma OffsetAllCompose(cs: seq<Child>, a: int, b: int, sum: int)
    requires sum == a + b
    ensures OffsetAll(OffsetAll(cs, a), b) == OffsetAll(cs, sum)
    ensures OffsetAll(cs, 0) == cs
  {
  }

  /** Offsetting keeps the attachment order. */
  lemma OffsetAllKeepsOrder(cs: seq<Child>, dy: int)
    requires AttachOrder(cs)
    ensures AttachOrder(OffsetAll(cs, dy))
  {
  }

  /** Offsetting anchored children by `dy` leaves them anchored, moved by `dy` more. */
  lemma OffsetAllKeepsAnchor(cs: seq<Child>, width: int, height: int, drift: int, dy: int)
    requires Anchored(cs, width, height, drift)
    ensures Anchored(OffsetAll(cs, dy), width, height, drift + dy)
  {
    OffsetAllMovesVertically(cs, dy);
  }
}
