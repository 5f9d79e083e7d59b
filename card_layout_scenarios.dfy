/**
 * Scenarios of the layout manager, written as clients that only rely on
 * the contracts of its methods.
 */
module CardLayoutScenarios {
  import opened CardLayout
  import opened Manager

  /**
   * Five 500 x 800 items in a 1000 x 1000 viewport: three cards are attached,
   * the position-0 card is last at (400, 100, 900, 900), and since three
   * cards are attached a scroll consumes nothing.
   */
  method FiveItemsScenario() returns (attached: nat, front: Child, consumed: int)
    ensures attached == 3
    ensures front == Child(0, Rect(400, 100, 900, 900), 0)
    ensures consumed == 0
  {
    var m := new CardLayoutManager(1000, 1000, 0);
    var items := seq(5, _ => Size(500, 800, 0));
    m.OnLayoutChildren(items, false);
    InitialDeckShape(items, 1000, 1000);
    attached := |m.children|;
    front := m.children[2];
    consumed := m.ScrollHorizontallyBy(50, items);
  }

  /**
   * One item and no end padding: the card's gap to the end is 80 px, so a
   * forward scroll of 10 consumes -80 and leaves the offset at -80; the next
   * one would pass the start and is clamped back to offset 0.
   */
  method SingleItemScenario() returns (first: int, offsetAfterFirst: int, second: int, offsetAfterSecond: int)
    ensures first == -80 && offsetAfterFirst == -80
    ensures second == 80 && offsetAfterSecond == 0
  {
    var m := new CardLayoutManager(1000, 1000, 0);
    var items := [Size(500, 800, 0)];
    m.OnLayoutChildren(items, false);
    SingleItemDeck(Size(500, 800, 0), 1000, 1000);
    assert m.children == [Child(0, Rect(400, 100, 900, 900), 0)];
    first := m.ScrollHorizontallyBy(10, items);
    assert first == -80;
    offsetAfterFirst := m.horizontalOffset;
    assert offsetAfterFirst == -80 && |m.children| == 1;
    second := m.ScrollHorizontallyBy(10, items);
    offsetAfterSecond := m.horizontalOffset;
  }

  /**
   * One item whose card rests exactly at the end (gap 0, end padding 80): a
   * forward scroll consumes nothing; with end padding 100 the card overshoots
   * by 20 and a scroll of 50 consumes 20.
   */
  method EndBoundaryScenario() returns (atRest: int, overshoot: int)
    ensures atRest == 0 && overshoot == 20
  {
    var items := [Size(500, 800, 0)];
    var m := new CardLayoutManager(1000, 1000, 80);
    m.OnLayoutChildren(items, false);
    SingleItemDeck(Size(500, 800, 0), 1000, 1000);
    assert m.children == [Child(0, Rect(400, 100, 900, 900), 0)];
    atRest := m.ScrollHorizontallyBy(50, items);
    var n := new CardLayoutManager(1000, 1000, 100);
    n.OnLayoutChildren(items, false);
    assert n.children == [Child(0, Rect(400, 100, 900, 900), 0)];
    overshoot := n.ScrollHorizontallyBy(50, items);
  }

  /**
   * One 500 x 800 item with a 20 px right margin and end padding 100: the
   * card's box ends at 900, its decorated right edge at 880, so the gap is 0
   * and a forward scroll consumes nothing (with no margin it would consume 20).
   */
  method RightMarginScenario() returns (consumed: int)
    ensures consumed == 0
  {
    var items := [Size(500, 800, 20)];
    var m := new CardLayoutManager(1000, 1000, 100);
    m.OnLayoutChildren(items, false);
    SingleItemDeck(Size(500, 800, 20), 1000, 1000);
    assert m.children == [Child(0, Rect(400, 100, 900, 900), 20)];
    consumed := m.ScrollHorizontallyBy(50, items);
  }
}
