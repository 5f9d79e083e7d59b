# Card-stack layout manager, modelled in Dafny

This project models `CardLayoutManager`. It is a RecyclerView layout manager that shows at most three
overlapping cards. The model covers its two jobs:

- **First layout pass.** When nothing is attached, it attaches `min(3, itemCount)` cards, for positions
  `count-1` down to `0`. The card for position `i` is placed from its measured size (margins included),
  100 px in from the viewport's bottom-right corner, and moved `40*i` px further right and down.
- **Horizontal scroll.** A scroll of `dx` is rejected when `dx == 0` or when exactly three cards are
  attached. Otherwise it is clamped:
  - at the start, so that the offset lands exactly on 0;
  - at the end, when the last attached card is the adapter's last item, by the gap
    `width - paddingEnd - decoratedRight(last) - 20`. The decorated right edge is the card's box
    without its right margin.

  The consumed distance is added to `mHorizontalOffset`, and every attached card moves up by it. Cards
  never move sideways.

Files:

- `card_layout.dfy` (module `CardLayout`): the values (`Size`, `Rect`, `Child`) and the constants
  (`MaxCard` = 3, margins 100 and 20, stagger 40). It also holds the placement of the first layout pass
  (`PlaceCard`, `AttachedDownTo`, `InitialDeck`), the clamp of a scroll (`ClampDelta`), the vertical
  shift (`OffsetAll`), and the lemmas about them.
- `card_layout_manager.dfy` (module `Manager`): the class `CardLayoutManager`.
  - `children` is a sequence field and `horizontalOffset` an int field. The methods update both in place.
  - `Layout` attaches cards in a counting-down loop. `ClampScroll` runs the clamp branches of the scroll.
    `OffsetChildrenVertical` moves the children one at a time.
  - Each method's `ensures` ties the new state to the functions of `CardLayout`.
  - The object invariant `Valid()` says three things. At most three children are attached. They are in
    attachment order (positions `n-1, …, 0`). Every child is anchored (`Anchored`): its right edge is
    `width - 100 + 40*position`, and its bottom edge is `height - 100 + 40*position` plus one vertical
    drift `Drift` shared by all children.
  - Layout resets `Drift` to 0 when it attaches cards. Each scroll that consumes `r` lowers it by `r`.
- `card_layout_scenarios.dfy` (module `CardLayoutScenarios`): scenarios written as client methods and
  proved from the method contracts alone.

The item provider is abstracted as `items: seq<Size>`. Its length is the adapter's item count.
`items[i]` gives the measured size of the view for position `i`, margins included, and that view's right
margin. A `Child` keeps the margin-inclusive box it was laid out in and its right margin. The viewport's width,
height and end padding are constructor arguments. "Detach and scrap all views" empties `children`.

The model follows the code as written, including where it departs from what the class comment and a
scrollable layout would suggest:

- The "children already attached" branch of `layout` (lines 81-83) does nothing. Cards are never moved
  horizontally.
- The offset is not kept non-negative. With a single item and a positive gap, a forward scroll consumes
  minus the gap, so the offset can drop below 0 (see `SingleCardForwardScroll` and `SingleItemScenario`).
- The offset is not reset when the item count drops to 0. `onLayoutChildren` only detaches the views.
- Scrolling is disabled whenever exactly three children are attached (line 106). The comment on
  line 105 speaks of fewer than three item views, but the code tests for equality, and the model follows
  the code. Because cards are attached back to
  front, the last child is always position 0. So the end clamp can only apply when the adapter holds one
  item (`EndClampNeedsSingleItem`).

## Model

| member | source | states |
|---|---|---|
| `CardLayout.CardCount` | flowlayoutmanager/src/main/java/com/mycroft/flowlayoutmanager/CardLayoutManager.java:56-65 | the first pass attaches min(MAX_CARD, itemCount) cards: at most 3, at most itemCount, and one of the two |
| `CardLayout.PlaceCard` | flowlayoutmanager/src/main/java/com/mycroft/flowlayoutmanager/CardLayoutManager.java:75-78 | the margin-inclusive box of the card for position i keeps its measured width and height; its right and bottom edges are 100 px in from the viewport's, plus 40*i; the card keeps its own right margin |
| `CardLayout.AttachedDownTo` | flowlayoutmanager/src/main/java/com/mycroft/flowlayoutmanager/CardLayoutManager.java:66-79 | after the loop has run from count-1 down to low, exactly count-low children are attached |
| `CardLayout.InitialDeck` | flowlayoutmanager/src/main/java/com/mycroft/flowlayoutmanager/CardLayoutManager.java:63-79 | the first layout pass leaves exactly min(3, itemCount) children attached |
| `CardLayout.AttachedAt` | flowlayoutmanager/src/main/java/com/mycroft/flowlayoutmanager/CardLayoutManager.java:66-78 | the k-th attached child is the card placed for position count-1-k from that position's measured size |
| `CardLayout.InitialDeckShape` | flowlayoutmanager/src/main/java/com/mycroft/flowlayoutmanager/CardLayoutManager.java:63-79 | the first pass attaches min(3, itemCount) children in order count-1, ..., 0, each placed from its own position's measured size |
| `CardLayout.InitialDeckAnchored` | flowlayoutmanager/src/main/java/com/mycroft/flowlayoutmanager/CardLayoutManager.java:66-78 | after the first pass every card's right edge is width-100+40*position and its bottom edge height-100+40*position |
| `CardLayout.InitialDeckStagger` | flowlayoutmanager/src/main/java/com/mycroft/flowlayoutmanager/CardLayoutManager.java:78 | neighbouring children differ by one position and by exactly 40 px at their right and bottom edges, and at every edge when their sizes are equal |
| `CardLayout.LastChild` | flowlayoutmanager/src/main/java/com/mycroft/flowlayoutmanager/CardLayoutManager.java:118 | the last child is absent exactly when no child is attached, and otherwise is one of the attached children |
| `CardLayout.LastChildIsFront` | flowlayoutmanager/src/main/java/com/mycroft/flowlayoutmanager/CardLayoutManager.java:66-69 | with children in attachment order, the last child is position 0 |
| `CardLayout.ClampDelta` | flowlayoutmanager/src/main/java/com/mycroft/flowlayoutmanager/CardLayoutManager.java:110-132 | passing the start lands the offset exactly on 0; otherwise a backward scroll, or a forward one with the adapter's last item not attached, consumes dx; at the end a forward scroll consumes min(dx, -gap) when gap <= 0 (0 when resting), and -gap, a negative value, when gap > 0 |
| `CardLayout.EndClampNeedsSingleItem` | flowlayoutmanager/src/main/java/com/mycroft/flowlayoutmanager/CardLayoutManager.java:118-119 | with children in attachment order, the end clamp's condition holds only when itemCount == 1 |
| `CardLayout.ScrollUnclampedWithManyItems` | flowlayoutmanager/src/main/java/com/mycroft/flowlayoutmanager/CardLayoutManager.java:111-132 | with itemCount != 1, a scroll consumes -offset if it would pass the start and dx otherwise |
| `CardLayout.SingleItemDeck` | flowlayoutmanager/src/main/java/com/mycroft/flowlayoutmanager/CardLayoutManager.java:63-79 | with one item, the first pass attaches exactly one child: the card for position 0 |
| `CardLayout.SingleCardForwardScroll` | flowlayoutmanager/src/main/java/com/mycroft/flowlayoutmanager/CardLayoutManager.java:111-136 | with a single item, in any state whose children are in attachment order and anchored (however far scrolled), the gap is 80 - paddingEnd + the card's right margin, whatever its size; when it is positive, every forward scroll that does not pass the start lowers the offset by that gap, below 0 when the offset started under it |
| `CardLayout.OffsetAll` | flowlayoutmanager/src/main/java/com/mycroft/flowlayoutmanager/CardLayoutManager.java:138 | the vertical shift keeps the number of children |
| `CardLayout.OffsetAllMovesVertically` | flowlayoutmanager/src/main/java/com/mycroft/flowlayoutmanager/CardLayoutManager.java:138 | the vertical shift keeps positions, right margins, left and right edges, and moves every top and bottom by exactly dy |
| `CardLayout.OffsetAllCompose` | flowlayoutmanager/src/main/java/com/mycroft/flowlayoutmanager/CardLayoutManager.java:136-138 | a shift by a then by b is the shift by a + b, and a shift of 0 changes nothing |
| `CardLayout.OffsetAllKeepsOrder` | flowlayoutmanager/src/main/java/com/mycroft/flowlayoutmanager/CardLayoutManager.java:138 | a shift keeps the children in attachment order |
| `CardLayout.OffsetAllKeepsAnchor` | flowlayoutmanager/src/main/java/com/mycroft/flowlayoutmanager/CardLayoutManager.java:136-138 | shifting anchored children by dy keeps their right edges and adds dy to their common drift |
| `Manager.CardLayoutManager.constructor` | flowlayoutmanager/src/main/java/com/mycroft/flowlayoutmanager/CardLayoutManager.java:19-23 | a new manager has no children, offset 0, and satisfies the object invariant |
| `Manager.CardLayoutManager.OnLayoutChildren` | flowlayoutmanager/src/main/java/com/mycroft/flowlayoutmanager/CardLayoutManager.java:36-51 | no items: no children; nothing attached during pre-layout: no change; otherwise the children are the first layout pass's, with drift 0; the offset never changes |
| `Manager.CardLayoutManager.Layout` | flowlayoutmanager/src/main/java/com/mycroft/flowlayoutmanager/CardLayoutManager.java:58-88 | returns its offset argument unchanged; attaches the first pass's children (drift 0) when none are attached, and otherwise changes no child and no drift |
| `Manager.CardLayoutManager.ScrollHorizontallyBy` | flowlayoutmanager/src/main/java/com/mycroft/flowlayoutmanager/CardLayoutManager.java:104-141 | dx == 0 or 3 children attached: returns 0 and changes nothing; otherwise returns the clamped delta, adds it to the offset, and moves every child (after a first layout if none were attached) up by it, lowering the common drift by it and keeping the invariant |
| `Manager.CardLayoutManager.ClampScroll` | flowlayoutmanager/src/main/java/com/mycroft/flowlayoutmanager/CardLayoutManager.java:110-132 | the branch-by-branch clamp, reading the last child's decorated right edge, computes exactly the consumed distance specified by `ClampDelta` for the current offset and last child |
| `Manager.CardLayoutManager.OffsetChildrenVertical` | flowlayoutmanager/src/main/java/com/mycroft/flowlayoutmanager/CardLayoutManager.java:138 | after the loop every child is its old self moved vertically by dy |
| `CardLayoutScenarios.FiveItemsScenario` | flowlayoutmanager/src/main/java/com/mycroft/flowlayoutmanager/CardLayoutManager.java:104-108 | five 500x800 items in 1000x1000: 3 children, position 0 last at (400,100,900,900), and a scroll then consumes 0 |
| `CardLayoutScenarios.SingleItemScenario` | flowlayoutmanager/src/main/java/com/mycroft/flowlayoutmanager/CardLayoutManager.java:111-136 | one item, no end padding: a scroll of 10 returns -80 and leaves offset -80; the next returns 80 and brings the offset back to 0 |
| `CardLayoutScenarios.EndBoundaryScenario` | flowlayoutmanager/src/main/java/com/mycroft/flowlayoutmanager/CardLayoutManager.java:119-130 | one item resting at the end (gap 0): a scroll of 50 consumes 0; overshooting by 20: it consumes 20 |
| `CardLayoutScenarios.RightMarginScenario` | flowlayoutmanager/src/main/java/com/mycroft/flowlayoutmanager/CardLayoutManager.java:120-127 | a 20 px right margin moves the decorated right edge 20 px in, so with end padding 100 the gap is 0 and a scroll consumes 0 |

## Left out

- Android framework calls are replaced by inputs. This covers `getViewForPosition`, `addView`, `measureChildWithMargins`, the decorated-measurement helpers (lines 159-175), layout-parameter margins and recycler/scrap bookkeeping. Each item's measured size with margins and its right margin are inputs, and the views are reduced to their position, margin-inclusive box and right margin. The left, top and bottom margins only enter through the measured size; decoration insets are taken as already inside the measured size.
- `isAutoMeasureEnabled`, `generateDefaultLayoutParams`, `canScrollHorizontally` and `canScrollVertically` (lines 25-33, 143-151) are constant flags with no logic.
- Java's 32-bit `int` arithmetic is not modelled. All coordinates are unbounded integers, so overflow on huge viewports or offsets is not captured.
- Viewport resizes are not modelled. Width, height and end padding are fixed for one manager's lifetime.
- The demo activities, adapters and `FlowLayoutManager` are not part of this model.
