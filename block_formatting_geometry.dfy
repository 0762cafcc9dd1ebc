/** Geometry of block-level boxes in a block formatting context (CSS 2.2): the used width
    and horizontal margins of in-flow non-replaced boxes (section 10.3.3), their auto
    height (section 10.6.3), the quirks-mode stretch to the viewport, the static position
    and the offsets of relative positioning (section 9.4.3).

    Layout units are integers (the engine's fixed-point raw values); a computed length is
    `Some(value)` and `auto` is `None`. */
module BlockFormattingGeometry {
  import opened Wrappers

  // ---------------------------------------------------------------------------------
  // Stretching to the viewport
  // ---------------------------------------------------------------------------------

  /** What isStretchedToViewport looks at. */
  datatype StretchContext = StretchContext(inQuirksMode: bool, isDocumentBox: bool, isBodyBox: bool, heightIsAuto: bool)

  /** In quirks mode the document and body boxes with an auto height stretch to the viewport. */
  predicate IsStretchedToViewport(s: StretchContext) {
    s.inQuirksMode && (s.isDocumentBox || s.isBodyBox) && s.heightIsAuto
  }

  /** A size stretched towards the initial containing block: it grows to the block's size
      minus the margins when it is short of it, and never shrinks. */
  function Stretched(size: int, margins: int, initialContainingBlockSize: int): (r: int)
    ensures r >= size
    ensures r + margins >= initialContainingBlockSize
    ensures r == size || r + margins == initialContainingBlockSize
  {
    if size + margins < initialContainingBlockSize then initialContainingBlockSize - margins else size
  }

  /** The containing-block links of a box tree, boxes numbered in tree order: a box's
      containing block comes before it. */
  predicate TreeOrdered(containingBlock: seq<Option<nat>>) {
    forall i :: 0 <= i < |containingBlock| && containingBlock[i].Some? ==> containingBlock[i].value < i
  }

  /** The top of the chain of containing blocks that starts at box i. */
  function RootOf(containingBlock: seq<Option<nat>>, i: nat): (r: nat)
    requires TreeOrdered(containingBlock) && i < |containingBlock|
    ensures r <= i && containingBlock[r].None?
    decreases i
  {
    if containingBlock[i].None? then i else RootOf(containingBlock, containingBlock[i].value)
  }

  /** initialContainingBlock: walk up from the box's containing block to the block that
      has none. */
  method InitialContainingBlock(containingBlock: seq<Option<nat>>, box: nat) returns (icb: nat)
    requires TreeOrdered(containingBlock) && box < |containingBlock| && containingBlock[box].Some?
    ensures icb < box && containingBlock[icb].None?
    ensures icb == RootOf(containingBlock, containingBlock[box].value)
  {
    icb := containingBlock[box].value;
    while containingBlock[icb].Some?
      invariant icb < box
      invariant RootOf(containingBlock, icb) == RootOf(containingBlock, containingBlock[box].value)
      decreases icb
    {
      icb := containingBlock[icb].value;
    }
  }

  /** Every box has the same initial containing block as its containing block. */
  lemma InitialContainingBlockShared(containingBlock: seq<Option<nat>>, box: nat)
    requires TreeOrdered(containingBlock) && box < |containingBlock| && containingBlock[box].Some?
    requires containingBlock[containingBlock[box].value].Some?
    ensures RootOf(containingBlock, containingBlock[box].value)
         == RootOf(containingBlock, containingBlock[containingBlock[box].value].value)
  {
  }

  // ---------------------------------------------------------------------------------
  // Width and horizontal margins (CSS 2.2 section 10.3.3)
  // ---------------------------------------------------------------------------------

  /** The horizontal properties of a box: width and margins resolved against the
      containing block (or auto), borders and paddings. */
  datatype HorizontalBox = HorizontalBox(
    width: Option<int>, marginLeft: Option<int>, marginRight: Option<int>,
    borderLeft: int, paddingLeft: int, paddingRight: int, borderRight: int)

  datatype WidthAndMargin = WidthAndMargin(width: int, marginLeft: int, marginRight: int)

  function BorderAndPadding(b: HorizontalBox): int {
    b.borderLeft + b.paddingLeft + b.paddingRight + b.borderRight
  }

  /** The seven terms add up to the containing block's width. */
  predicate Balanced(b: HorizontalBox, r: WidthAndMargin, containingBlockWidth: int) {
    r.marginLeft + BorderAndPadding(b) + r.width + r.marginRight == containingBlockWidth
  }

  /** Rule 1: a fixed width whose box, with the specified margins, is wider than the
      containing block. */
  predicate Overflows(b: HorizontalBox, containingBlockWidth: int) {
    b.width.Some? &&
    b.marginLeft.GetOr(0) + BorderAndPadding(b) + b.width.value + b.marginRight.GetOr(0) > containingBlockWidth
  }

  /** Division by two of a layout unit, truncating towards zero as the engine's integer
      division does. */
  function HalfTowardZero(x: int): int {
    if x >= 0 then x / 2 else -((-x) / 2)
  }

  /** The used width and margins, rule by rule. */
  function UsedWidthAndMargin(b: HorizontalBox, containingBlockWidth: int, leftToRight: bool): (r: WidthAndMargin)
    // a fixed width is kept
    ensures b.width.Some? ==> r.width == b.width.value
    // rule 4: an auto width takes what the margins (auto ones as 0) leave
    ensures b.width.None? ==>
      && r.marginLeft == b.marginLeft.GetOr(0) && r.marginRight == b.marginRight.GetOr(0)
      && Balanced(b, r, containingBlockWidth)
    // rule 2: over-constrained, margin-right (ltr) or margin-left (rtl) gives way
    ensures b.width.Some? && b.marginLeft.Some? && b.marginRight.Some? ==>
      && Balanced(b, r, containingBlockWidth)
      && (if leftToRight then r.marginLeft == b.marginLeft.value else r.marginRight == b.marginRight.value)
    // rule 1: with an overflowing fixed width the auto margins are 0
    ensures Overflows(b, containingBlockWidth) && (b.marginLeft.None? || b.marginRight.None?) ==>
      r.marginLeft == b.marginLeft.GetOr(0) && r.marginRight == b.marginRight.GetOr(0)
    // rule 3: exactly one auto margin follows from the equality
    ensures b.width.Some? && !Overflows(b, containingBlockWidth) && (b.marginLeft.None? != b.marginRight.None?) ==>
      && Balanced(b, r, containingBlockWidth)
      && (b.marginLeft.Some? ==> r.marginLeft == b.marginLeft.value)
      && (b.marginRight.Some? ==> r.marginRight == b.marginRight.value)
    // rule 5: two auto margins are equal and share the free space (up to one unit of rounding)
    ensures b.width.Some? && !Overflows(b, containingBlockWidth) && b.marginLeft.None? && b.marginRight.None? ==>
      var space := containingBlockWidth - (BorderAndPadding(b) + b.width.value);
      r.marginLeft == r.marginRight && 0 <= space - 2 * r.marginLeft <= 1
  {
    var bp := BorderAndPadding(b);
    match b.width
    case None =>
      WidthAndMargin(containingBlockWidth - (b.marginLeft.GetOr(0) + bp + b.marginRight.GetOr(0)),
                     b.marginLeft.GetOr(0), b.marginRight.GetOr(0))
    case Some(w) =>
      if b.marginLeft.Some? && b.marginRight.Some? then
        if leftToRight then WidthAndMargin(w, b.marginLeft.value, containingBlockWidth - (b.marginLeft.value + bp + w))
        else WidthAndMargin(w, containingBlockWidth - (bp + w + b.marginRight.value), b.marginRight.value)
      else if Overflows(b, containingBlockWidth) then
        WidthAndMargin(w, b.marginLeft.GetOr(0), b.marginRight.GetOr(0))
      else if b.marginRight.Some? then
        WidthAndMargin(w, containingBlockWidth - (bp + w + b.marginRight.value), b.marginRight.value)
      else if b.marginLeft.Some? then
        WidthAndMargin(w, b.marginLeft.value, containingBlockWidth - (b.marginLeft.value + bp + w))
      else
        var half := HalfTowardZero(containingBlockWidth - (bp + w));
        WidthAndMargin(w, half, half)
  }

  /** The case the steps leave open: an auto width with exactly one auto margin. */
  predicate LeavesMarginUnset(b: HorizontalBox) {
    b.width.None? && (b.marginLeft.None? != b.marginRight.None?)
  }

  /** The compute lambda of inFlowNonReplacedWidthAndMargin as written: each step may fill
      in one of the optional values. With an auto width and exactly one auto margin no
      step fills that margin in; everywhere else the result is the rule-by-rule one. */
  method ComputeWidthAndMarginAsWritten(b: HorizontalBox, containingBlockWidth: int, leftToRight: bool)
    returns (width: int, marginLeft: Option<int>, marginRight: Option<int>)
    ensures width == UsedWidthAndMargin(b, containingBlockWidth, leftToRight).width
    ensures !LeavesMarginUnset(b) ==>
      && marginLeft == Some(UsedWidthAndMargin(b, containingBlockWidth, leftToRight).marginLeft)
      && marginRight == Some(UsedWidthAndMargin(b, containingBlockWidth, leftToRight).marginRight)
    ensures LeavesMarginUnset(b) ==>
      && (marginLeft.None? <==> b.marginLeft.None?) && (marginRight.None? <==> b.marginRight.None?)
      && marginLeft.GetOr(0) == UsedWidthAndMargin(b, containingBlockWidth, leftToRight).marginLeft
      && marginRight.GetOr(0) == UsedWidthAndMargin(b, containingBlockWidth, leftToRight).marginRight
  {
    var bp := BorderAndPadding(b);
    width := 0;
    marginLeft := b.marginLeft;
    marginRight := b.marginRight;
    // #1
    if b.width.Some? {
      width := b.width.value;
      var space := containingBlockWidth - (marginLeft.GetOr(0) + bp + width + marginRight.GetOr(0));
      if space < 0 {
        if marginLeft.None? {
          marginLeft := Some(0);
        }
        if marginRight.None? {
          marginRight := Some(0);
        }
      }
    }
    // #2
    if b.width.Some? && b.marginLeft.Some? && b.marginRight.Some? {
      if leftToRight {
        marginRight := Some(containingBlockWidth - (marginLeft.value + bp + width));
      } else {
        marginLeft := Some(containingBlockWidth - (bp + width + marginRight.value));
      }
    }
    // #3
    if marginLeft.None? && b.marginRight.Some? && b.width.Some? {
      marginLeft := Some(containingBlockWidth - (bp + width + marginRight.value));
    } else if marginRight.None? && b.marginLeft.Some? && b.width.Some? {
      marginRight := Some(containingBlockWidth - (marginLeft.value + bp + width));
    }
    // #4
    if b.width.None? {
      width := containingBlockWidth - (marginLeft.GetOr(0) + bp + marginRight.GetOr(0));
    }
    // #5
    if marginLeft.None? && marginRight.None? {
      var space := containingBlockWidth - (bp + width);
      marginLeft := Some(HalfTowardZero(space));
      marginRight := marginLeft;
    }
  }

  /** The compute lambda with rule 4 applied in full: when the width is auto, every margin
      still auto becomes 0 before the width is derived, so every value ends up set. */
  method ComputeWidthAndMargin(b: HorizontalBox, containingBlockWidth: int, leftToRight: bool)
    returns (r: WidthAndMargin)
    ensures r == UsedWidthAndMargin(b, containingBlockWidth, leftToRight)
  {
    var bp := BorderAndPadding(b);
    var width := 0;
    var marginLeft := b.marginLeft;
    var marginRight := b.marginRight;
    // #1
    if b.width.Some? {
      width := b.width.value;
      var space := containingBlockWidth - (marginLeft.GetOr(0) + bp + width + marginRight.GetOr(0));
      if space < 0 {
        if marginLeft.None? {
          marginLeft := Some(0);
        }
        if marginRight.None? {
          marginRight := Some(0);
        }
      }
    }
    // #2
    if b.width.Some? && b.marginLeft.Some? && b.marginRight.Some? {
      if leftToRight {
        marginRight := Some(containingBlockWidth - (marginLeft.value + bp + width));
      } else {
        marginLeft := Some(containingBlockWidth - (bp + width + marginRight.value));
      }
    }
    // #3
    if marginLeft.None? && b.marginRight.Some? && b.width.Some? {
      marginLeft := Some(containingBlockWidth - (bp + width + marginRight.value));
    } else if marginRight.None? && b.marginLeft.Some? && b.width.Some? {
      marginRight := Some(containingBlockWidth - (marginLeft.value + bp + width));
    }
    // #4
    if b.width.None? {
      if marginLeft.None? {
        marginLeft := Some(0);
      }
      if marginRight.None? {
        marginRight := Some(0);
      }
      width := containingBlockWidth - (marginLeft.value + bp + marginRight.value);
    }
    // #5
    if marginLeft.None? && marginRight.None? {
      var space := containingBlockWidth - (bp + width);
      marginLeft := Some(HalfTowardZero(space));
      marginRight := marginLeft;
    }
    r := WidthAndMargin(width, marginLeft.value, marginRight.value);
  }

  /** inFlowNonReplacedWidthAndMargin: the used width and margins, with the width then
      stretched to the initial containing block when the box stretches to the viewport. */
  method InFlowNonReplacedWidthAndMargin(b: HorizontalBox, containingBlockWidth: int, leftToRight: bool,
                                         stretch: StretchContext, initialContainingBlockWidth: int)
    returns (r: WidthAndMargin)
    ensures var used := UsedWidthAndMargin(b, containingBlockWidth, leftToRight);
      && r.marginLeft == used.marginLeft && r.marginRight == used.marginRight
      && r.width == if IsStretchedToViewport(stretch) then
           Stretched(used.width, used.marginLeft + used.marginRight, initialContainingBlockWidth)
         else used.width
  {
    r := ComputeWidthAndMargin(b, containingBlockWidth, leftToRight);
    if !IsStretchedToViewport(stretch) {
      return;
    }
    var horizontalMargins := r.marginLeft + r.marginRight;
    if r.width + horizontalMargins < initialContainingBlockWidth {
      r := r.(width := initialContainingBlockWidth - horizontalMargins);
    }
  }

  // ---------------------------------------------------------------------------------
  // Height (CSS 2.2 section 10.6.3)
  // ---------------------------------------------------------------------------------

  /** An in-flow child as its parent's height computation sees it. */
  datatype ChildBox = ChildBox(
    top: int, borderBoxHeight: int, bottom: int, marginBottom: int,
    marginBottomCollapsesWithParent: bool, marginTopCollapsesWithParentMarginBottom: bool)

  /** The vertical properties of a box: its height (auto = None) and, for a container,
      its in-flow children in order. */
  datatype VerticalBox = VerticalBox(
    height: Option<int>, isContainer: bool, establishesInlineFormattingContext: bool,
    inFlowChildren: seq<ChildBox>)

  datatype HeightAndMargin = HeightAndMargin(height: int, marginTop: int, marginBottom: int)

  /** The last child whose top margin does not collapse with the parent's bottom margin. */
  function LastUncollapsedTop(children: seq<ChildBox>): (r: Option<nat>)
    ensures r.Some? ==>
      && r.value < |children| && !children[r.value].marginTopCollapsesWithParentMarginBottom
      && forall j :: r.value < j < |children| ==> children[j].marginTopCollapsesWithParentMarginBottom
    ensures r.None? ==> forall j :: 0 <= j < |children| ==> children[j].marginTopCollapsesWithParentMarginBottom
  {
    if |children| == 0 then None
    else if !children[|children| - 1].marginTopCollapsesWithParentMarginBottom then Some(|children| - 1)
    else LastUncollapsedTop(children[..|children| - 1])
  }

  /** The used height, rule by rule: a fixed height is kept; an auto height is 0 for a box
      without in-flow children or with an inline formatting context (line boxes are not
      modelled), else reaches the bottom margin edge of the last child when that margin
      does not collapse through, else the bottom border edge of the last child whose top
      margin does not collapse with the parent's bottom margin, else 0. */
  function ContentHeightOf(b: VerticalBox): (h: int)
    ensures b.height.Some? ==> h == b.height.value
    ensures b.height.None? && (!b.isContainer || |b.inFlowChildren| == 0 || b.establishesInlineFormattingContext) ==>
      h == 0
    ensures b.height.None? && b.isContainer && |b.inFlowChildren| > 0 && !b.establishesInlineFormattingContext ==>
      var children := b.inFlowChildren;
      var last := children[|children| - 1];
      && (!last.marginBottomCollapsesWithParent ==> h == last.bottom + last.marginBottom)
      && (last.marginBottomCollapsesWithParent ==>
            || ((forall j :: 0 <= j < |children| ==> children[j].marginTopCollapsesWithParentMarginBottom) && h == 0)
            || exists i :: 0 <= i < |children| && !children[i].marginTopCollapsesWithParentMarginBottom
                 && (forall j :: i < j < |children| ==> children[j].marginTopCollapsesWithParentMarginBottom)
                 && h == children[i].top + children[i].borderBoxHeight)
  {
    if b.height.Some? then b.height.value
    else if !b.isContainer || |b.inFlowChildren| == 0 || b.establishesInlineFormattingContext then 0
    else
      var last := b.inFlowChildren[|b.inFlowChildren| - 1];
      if !last.marginBottomCollapsesWithParent then last.bottom + last.marginBottom
      else match LastUncollapsedTop(b.inFlowChildren)
        case Some(i) => b.inFlowChildren[i].top + b.inFlowChildren[i].borderBoxHeight
        case None => 0
  }

  /** The child that decides an auto height, when the last one's bottom margin collapses:
      only the later children have collapsing top margins. */
  lemma {:induction false} LastUncollapsedTopUnique(children: seq<ChildBox>, i: nat)
    requires i < |children| && !children[i].marginTopCollapsesWithParentMarginBottom
    requires forall j :: i < j < |children| ==> children[j].marginTopCollapsesWithParentMarginBottom
    ensures LastUncollapsedTop(children) == Some(i)
    decreases |children|
  {
    if i < |children| - 1 {
      var front := children[..|children| - 1];
      assert forall j :: i < j < |front| ==> front[j] == children[j];
      LastUncollapsedTopUnique(front, i);
    }
  }

  /** The compute lambda of inFlowNonReplacedHeightAndMargin, with the backward walk over
      the children whose top margin collapses through. */
  method ComputeHeight(b: VerticalBox) returns (height: int)
    ensures height == ContentHeightOf(b)
  {
    if b.height.Some? {
      return b.height.value;
    }
    var children := b.inFlowChildren;
    if !b.isContainer || |children| == 0 {
      return 0;
    }
    if b.establishesInlineFormattingContext {
      return 0;
    }
    var last := |children| - 1;
    if !children[last].marginBottomCollapsesWithParent {
      return children[last].bottom + children[last].marginBottom;
    }
    var child: int := last;
    while child >= 0 && children[child].marginTopCollapsesWithParentMarginBottom
      invariant -1 <= child <= last
      invariant forall j :: child < j < |children| ==> children[j].marginTopCollapsesWithParentMarginBottom
      decreases child
    {
      child := child - 1;
    }
    if child >= 0 {
      LastUncollapsedTopUnique(children, child);
      return children[child].top + children[child].borderBoxHeight;
    }
    return 0;
  }

  /** inFlowNonReplacedHeightAndMargin: the height with the collapsed vertical margins
      (inputs here), stretched to the initial containing block when the box stretches to
      the viewport. */
  method InFlowNonReplacedHeightAndMargin(b: VerticalBox, marginTop: int, marginBottom: int,
                                          stretch: StretchContext, initialContainingBlockHeight: int)
    returns (r: HeightAndMargin)
    ensures r.marginTop == marginTop && r.marginBottom == marginBottom
    ensures r.height == if IsStretchedToViewport(stretch) then
        Stretched(ContentHeightOf(b), marginTop + marginBottom, initialContainingBlockHeight)
      else ContentHeightOf(b)
  {
    var height := ComputeHeight(b);
    if !IsStretchedToViewport(stretch) {
      return HeightAndMargin(height, marginTop, marginBottom);
    }
    if height + marginTop + marginBottom < initialContainingBlockHeight {
      height := initialContainingBlockHeight - marginTop - marginBottom;
    }
    r := HeightAndMargin(height, marginTop, marginBottom);
  }

  // ---------------------------------------------------------------------------------
  // Positions
  // ---------------------------------------------------------------------------------

  /** A layout point: x is the horizontal coordinate, y the vertical one. */
  datatype Point = Point(x: int, y: int)

  /** The bottom edge and bottom margin of a previous in-flow sibling. */
  datatype SiblingBox = SiblingBox(bottom: int, marginBottom: int)

  /** The top of the static position: below the previous in-flow sibling's bottom margin,
      or the top of the containing block's content box when there is none. */
  function StaticTop(contentTop: int, previousInFlowSibling: Option<SiblingBox>): (top: int)
    ensures previousInFlowSibling.None? ==> top == contentTop
    ensures previousInFlowSibling.Some? ==>
      top - previousInFlowSibling.value.marginBottom == previousInFlowSibling.value.bottom
  {
    match previousInFlowSibling
    case None => contentTop
    case Some(s) => s.bottom + s.marginBottom
  }

  /** staticPosition as written: the point is built from (top, left), so the top lands in
      the horizontal coordinate. */
  function StaticPositionAsWritten(contentTop: int, contentLeft: int, previousInFlowSibling: Option<SiblingBox>): (p: Point)
    ensures p.x == StaticTop(contentTop, previousInFlowSibling) && p.y == contentLeft
    ensures p == StaticPosition(contentTop, contentLeft, previousInFlowSibling) <==> p.x == p.y
  {
    Point(StaticTop(contentTop, previousInFlowSibling), contentLeft)
  }

  /** staticPosition: each box's left outer edge at the containing block's content-box left
      edge, and its top at StaticTop. */
  function StaticPosition(contentTop: int, contentLeft: int, previousInFlowSibling: Option<SiblingBox>): (p: Point)
    ensures p.x == contentLeft
    ensures previousInFlowSibling.None? ==> p.y == contentTop
    ensures previousInFlowSibling.Some? ==>
      p.y - previousInFlowSibling.value.marginBottom == previousInFlowSibling.value.bottom
  {
    Point(contentLeft, StaticTop(contentTop, previousInFlowSibling))
  }

  /** The offsets of a relatively positioned box (auto = None). */
  datatype Offsets = Offsets(top: Option<int>, bottom: Option<int>, left: Option<int>, right: Option<int>)

  /** The horizontal delta: 0 when both are auto, minus right when only left is auto, and
      left otherwise (left wins when both are set; direction is not consulted). */
  function LeftDelta(o: Offsets): (d: int)
    ensures o.left.None? && o.right.None? ==> d == 0
    ensures o.left.None? && o.right.Some? ==> d == -o.right.value
    ensures o.left.Some? ==> d == o.left.value
  {
    if o.left.None? && o.right.None? then 0
    else if o.left.None? then -o.right.value
    else if o.right.None? then o.left.value
    else o.left.value
  }

  /** The vertical delta as written: the branch for both top and bottom set is missing, so
      the delta keeps its initial 0 there. */
  function TopDeltaAsWritten(o: Offsets): (d: int)
    ensures o.top.None? && o.bottom.None? ==> d == 0
    ensures o.top.None? && o.bottom.Some? ==> d == -o.bottom.value
    ensures o.top.Some? && o.bottom.None? ==> d == o.top.value
    ensures o.top.Some? && o.bottom.Some? ==> d == 0
  {
    var d := 0;
    if o.top.None? && o.bottom.None? then d
    else if o.top.None? then -o.bottom.value
    else if o.bottom.None? then o.top.value
    else d
  }

  /** The vertical delta of section 9.4.3: top, with bottom ignored when both are set. */
  function TopDelta(o: Offsets): (d: int)
    ensures o.top.None? && o.bottom.None? ==> d == 0
    ensures o.top.None? && o.bottom.Some? ==> d == -o.bottom.value
    ensures o.top.Some? ==> d == o.top.value
  {
    if o.top.None? && o.bottom.None? then 0
    else if o.top.None? then -o.bottom.value
    else o.top.value
  }

  /** The two top deltas differ exactly when both top and bottom are set and top is not 0. */
  lemma TopDeltaAsWrittenDiffers(o: Offsets)
    ensures TopDeltaAsWritten(o) != TopDelta(o) <==> o.top.Some? && o.bottom.Some? && o.top.value != 0
  {
  }

  /** inFlowPositionedPosition: the box moves right by `left` (or left by `right` when
      `left` is auto) and down by `top` (or up by `bottom` when `top` is auto); an auto
      pair leaves that coordinate where the box is. */
  function InFlowPositionedPosition(boxLeft: int, boxTop: int, o: Offsets): (p: Point)
    ensures o.left.Some? ==> p.x == boxLeft + o.left.value
    ensures o.left.None? && o.right.Some? ==> p.x == boxLeft - o.right.value
    ensures o.left.None? && o.right.None? ==> p.x == boxLeft
    ensures o.top.Some? ==> p.y == boxTop + o.top.value
    ensures o.top.None? && o.bottom.Some? ==> p.y == boxTop - o.bottom.value
    ensures o.top.None? && o.bottom.None? ==> p.y == boxTop
  {
    Point(boxLeft + LeftDelta(o), boxTop + TopDelta(o))
  }

  /** inFlowPositionedPosition as written. */
  function InFlowPositionedPositionAsWritten(boxLeft: int, boxTop: int, o: Offsets): (p: Point)
    ensures p.x - boxLeft == LeftDelta(o) && p.y - boxTop == TopDeltaAsWritten(o)
    ensures o.top.Some? && o.bottom.Some? && o.top.value != 0 ==> p != InFlowPositionedPosition(boxLeft, boxTop, o)
  {
    TopDeltaAsWrittenDiffers(o);
    Point(boxLeft + LeftDelta(o), boxTop + TopDeltaAsWritten(o))
  }
}
