/**
 * The card-stack layout manager as an object: the attached children and the
 * horizontal offset are fields that its layout and scroll entry points update
 * in place. The item provider is the sequence of measured item sizes (one per
 * adapter position); the viewport's width, height and end padding are fields
 * owned by the host.
 */
module Manager {
  import opened CardLayout

  class CardLayoutManager {
    const width: int
    const height: int
    const paddingEnd: int

    /** The attached children, in attachment order. */
    var children: seq<Child>
    /** Total horizontal distance consumed by scrolls (mHorizontalOffset). */
    var horizontalOffset: int

    /** How far every attached card has moved vertically since it was placed. */
    ghost var Drift: int

    /**
     * At most three children, attached back to front, each with its right edge
     * where the layout pass put it and its bottom edge moved by the common
     * `Drift`.
     */
    ghost predicate Valid()
      reads this
    {
      |children| <= MaxCard &&
      AttachOrder(children) &&
      Anchored(children, width, height, Drift)
    }

    constructor (width: int, height: int, paddingEnd: int)
      ensures Valid()
      ensures this.width == width && this.height == height && this.paddingEnd == paddingEnd
      ensures children == [] && horizontalOffset == 0
    {
      this.width, this.height, this.paddingEnd := width, height, paddingEnd;
      children, horizontalOffset := [], 0;
      Drift := 0;
    }

    /**
     * Full layout pass. `items` gives the measured size of every adapter item
     * and `preLayout` says whether the pass is the pre-layout of an animation.
     */
    method OnLayoutChildren(items: seq<Size>, preLayout: bool)
      requires Valid()
      modifies this`children, this`Drift
      ensures Valid()
      ensures horizontalOffset == old(horizontalOffset)
      ensures |items| == 0 ==> children == []
      ensures |items| > 0 && old(children) == [] && preLayout ==> children == old(children)
      ensures |items| > 0 && !(old(children) == [] && preLayout) ==>
        children == InitialDeck(items, width, height) && Drift == 0
    {
      if |items| == 0 {
        children := [];
        Drift := 0;
        return;
      }
      if |children| == 0 && preLayout {
        return;
      }
      children := [];
      Drift := 0;
      var _ := Layout(items, 0);
    }

    /**
     * Attaches and places the first cards when nothing is attached; otherwise
     * leaves every child where it is. Returns `offset` unchanged.
     */
    method Layout(items: seq<Size>, offset: int) returns (r: int)
      requires Valid()
      modifies this`children, this`Drift
      ensures Valid()
      ensures r == offset
      ensures old(children) != [] ==> children == old(children)
      ensures old(children) != [] ==> Drift == old(Drift)
      ensures old(children) == [] ==> children == InitialDeck(items, width, height) && Drift == 0
    {
      if |children| == 0 {
        var count := CardCount(|items|);
        var i := count as int - 1;
        while i >= 0
          invariant -1 <= i < count
          invariant children == AttachedDownTo(items, count, i + 1, width, height)
        {
          children := children + [PlaceCard(i, items[i], width, height)];
          i := i - 1;
        }
        InitialDeckShape(items, width, height);
        InitialDeckAnchored(items, width, height);
        Drift := 0;
      }
      r := offset;
    }

    /**
     * Consumes a horizontal scroll of `dx`; returns the distance actually
     * consumed, which is also added to the offset and used to move every
     * child up.
     */
    method ScrollHorizontallyBy(dx: int, items: seq<Size>) returns (r: int)
      requires Valid()
      modifies this`children, this`horizontalOffset, this`Drift
      ensures Valid()
      ensures dx == 0 || |old(children)| == MaxCard ==>
        r == 0 && children == old(children) && horizontalOffset == old(horizontalOffset)
      ensures dx != 0 && |old(children)| != MaxCard ==>
        r == ClampDelta(dx, old(horizontalOffset), LastChild(old(children)), |items|, width - paddingEnd) &&
        horizontalOffset == old(horizontalOffset) + r &&
        children == OffsetAll(if old(children) == [] then InitialDeck(items, width, height) else old(children), -r) &&
        Drift == (if old(children) == [] then 0 else old(Drift)) - r
    {
      if dx == 0 || |children| == MaxCard {
        return 0;
      }
      var realOffset := ClampScroll(dx, items);
      realOffset := Layout(items, realOffset);
      ghost var laidOut := children;
      assert laidOut == if old(children) == [] then InitialDeck(items, width, height) else old(children);
      horizontalOffset := horizontalOffset + realOffset;
      OffsetChildrenVertical(-realOffset);
      OffsetAllKeepsOrder(laidOut, -realOffset);
      OffsetAllKeepsAnchor(laidOut, width, height, Drift, -realOffset);
      Drift := Drift - realOffset;
      r := realOffset;
    }

    /**
     * The distance a non-rejected scroll of `dx` may consume: clamped so the
     * offset does not pass the start, and by the gap to the end edge when the
     * adapter's last item is the last attached child.
     */
    method ClampScroll(dx: int, items: seq<Size>) returns (realOffset: int)
      ensures realOffset == ClampDelta(dx, horizontalOffset, LastChild(children), |items|, width - paddingEnd)
    {
      realOffset := dx;
      if horizontalOffset + realOffset < 0 {
        realOffset := -horizontalOffset;
      } else if realOffset > 0 {
        if |children| > 0 && children[|children| - 1].position == |items| - 1 {
          var end := DecoratedRight(children[|children| - 1]);
          var gap := width - paddingEnd - end - EndMargin;
          if gap > 0 {
            realOffset := -gap;
          } else if gap == 0 {
            realOffset := 0;
          } else {
            realOffset := if realOffset < -gap then realOffset else -gap;
          }
        }
      }
    }

    /** Moves every attached child vertically by `dy`, one child at a time. */
    method OffsetChildrenVertical(dy: int)
      modifies this`children
      ensures children == OffsetAll(old(children), dy)
    {
      var j := 0;
      while j < |children|
        invariant 0 <= j <= |children| == |old(children)|
        invariant forall k :: 0 <= k < j ==> children[k] == ShiftVertical(old(children)[k], dy)
        invariant forall k :: j <= k < |children| ==> children[k] == old(children)[k]
      {
        children := children[j := ShiftVertical(children[j], dy)];
        j := j + 1;
      }
    }
  }
}
