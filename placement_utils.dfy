/**
 * The placement decision of `PlacementUtils.get_optimal_placement`
 * (src/pyqttooltip/placement_utils.py): four available-space values, the
 * largest of them, and a fixed tie-break order RIGHT, LEFT, TOP, BOTTOM.
 */
module PlacementUtils {
  import opened Enums

  /**
   * The integers the Qt calls deliver: the anchor widget's global position
   * (`top_level_parent.mapToGlobal(widget.pos())`) and size, the top-level
   * parent's position (`pos()`) and the right and bottom edges of its
   * `geometry()`.
   */
  datatype Geometry = Geometry(
    anchorX: int, anchorY: int,
    anchorWidth: int, anchorHeight: int,
    parentX: int, parentY: int,
    parentRight: int, parentBottom: int)

  /** Distance from each edge of the anchor to the matching edge of the top-level parent. */
  datatype Spaces = Spaces(left: int, right: int, top: int, bottom: int)

  function AvailableSpaces(g: Geometry): Spaces
  {
    Spaces(g.anchorX - g.parentX,
           g.parentRight - (g.anchorX + g.anchorWidth),
           g.anchorY - g.parentY,
           g.parentBottom - (g.anchorY + g.anchorHeight))
  }

  /** The space in the direction of a concrete placement. */
  function SpaceFor(s: Spaces, p: TooltipPlacement): int
    requires p != AUTO
  {
    match p
    case LEFT => s.left
    case RIGHT => s.right
    case TOP => s.top
    case BOTTOM => s.bottom
  }

  function Max(a: int, b: int): int
  {
    if a >= b then a else b
  }

  /** Python's `max(left_space, right_space, top_space, bottom_space)`. */
  function MaxSpace(s: Spaces): (m: int)
    ensures m >= s.left && m >= s.right && m >= s.top && m >= s.bottom
    ensures m == s.left || m == s.right || m == s.top || m == s.bottom
  {
    Max(Max(Max(s.left, s.right), s.top), s.bottom)
  }

  /** The direction with the most space; never AUTO. */
  function OptimalPlacement(g: Geometry): (p: TooltipPlacement)
    ensures p != AUTO
    ensures SpaceFor(AvailableSpaces(g), p) == MaxSpace(AvailableSpaces(g))
    ensures forall q :: q != AUTO ==> SpaceFor(AvailableSpaces(g), q) <= SpaceFor(AvailableSpaces(g), p)
  {
    var s := AvailableSpaces(g);
    var maxSpace := MaxSpace(s);
    if s.right == maxSpace then RIGHT
    else if s.left == maxSpace then LEFT
    else if s.top == maxSpace then TOP
    else BOTTOM
  }

  // ---------------------------------------------------------------------
  // An independent description of the choice: order the four directions by
  // space, descending, and break ties by a fixed priority.
  // ---------------------------------------------------------------------

  /** Rank in the tie-break order RIGHT, LEFT, TOP, BOTTOM. */
  function Priority(p: TooltipPlacement): nat
    requires p != AUTO
  {
    match p
    case RIGHT => 0
    case LEFT => 1
    case TOP => 2
    case BOTTOM => 3
  }

  /** p is at least as good as q: more space, or equal space and no later in the order. */
  predicate Beats(s: Spaces, p: TooltipPlacement, q: TooltipPlacement)
    requires p != AUTO && q != AUTO
  {
    SpaceFor(s, p) > SpaceFor(s, q) || (SpaceFor(s, p) == SpaceFor(s, q) && Priority(p) <= Priority(q))
  }

  predicate IsBest(s: Spaces, p: TooltipPlacement)
  {
    p != AUTO && forall q :: q != AUTO ==> Beats(s, p, q)
  }

  /** At most one direction is best. */
  lemma BestIsUnique(s: Spaces, p: TooltipPlacement, q: TooltipPlacement)
    requires IsBest(s, p) && IsBest(s, q)
    ensures p == q
  {
    assert Beats(s, p, q) && Beats(s, q, p);
  }

  /** The if/elif chain returns exactly the best direction. */
  lemma OptimalPlacementIsBest(g: Geometry, p: TooltipPlacement)
    ensures OptimalPlacement(g) == p <==> IsBest(AvailableSpaces(g), p)
  {
    var s := AvailableSpaces(g);
    var o := OptimalPlacement(g);
    assert IsBest(s, o) by {
      forall q | q != AUTO
        ensures Beats(s, o, q)
      {
      }
    }
    if IsBest(s, p) {
      BestIsUnique(s, o, p);
    }
  }

  /** The tie-break follows the order of the if/elif chain; BOTTOM needs strictly the most space. */
  lemma TieBreakOrder(g: Geometry)
    ensures var s := AvailableSpaces(g); var m := MaxSpace(s); var p := OptimalPlacement(g);
      && (p == RIGHT <==> s.right == m)
      && (p == LEFT <==> s.left == m && s.right != m)
      && (p == TOP <==> s.top == m && s.right != m && s.left != m)
      && (p == BOTTOM <==> s.bottom > s.right && s.bottom > s.left && s.bottom > s.top)
  {
  }

  /** A direction with strictly more space than each of the other three is the one chosen. */
  lemma StrictMaximumChosen(g: Geometry, p: TooltipPlacement)
    requires p != AUTO
    requires forall q :: q != AUTO && q != p ==> SpaceFor(AvailableSpaces(g), q) < SpaceFor(AvailableSpaces(g), p)
    ensures OptimalPlacement(g) == p
  {
  }

  // ---------------------------------------------------------------------
  // Each space is a difference of coordinates.
  // ---------------------------------------------------------------------

  /** Anchor and parent moved together by (dx, dy). */
  function Translated(g: Geometry, dx: int, dy: int): Geometry
  {
    Geometry(g.anchorX + dx, g.anchorY + dy, g.anchorWidth, g.anchorHeight,
             g.parentX + dx, g.parentY + dy, g.parentRight + dx, g.parentBottom + dy)
  }

  /** Moving the whole window leaves every space, and so the decision, unchanged. */
  lemma TranslationInvariant(g: Geometry, dx: int, dy: int)
    ensures AvailableSpaces(Translated(g, dx, dy)) == AvailableSpaces(g)
    ensures OptimalPlacement(Translated(g, dx, dy)) == OptimalPlacement(g)
  {
  }

  /** Moving only the anchor by (dx, dy) moves space from one side to the opposite one. */
  lemma AnchorShift(g: Geometry, dx: int, dy: int)
    ensures var s := AvailableSpaces(g);
      var s' := AvailableSpaces(g.(anchorX := g.anchorX + dx, anchorY := g.anchorY + dy));
      && s'.left == s.left + dx && s'.right == s.right - dx
      && s'.top == s.top + dy && s'.bottom == s.bottom - dy
  {
  }

  /** Left space, anchor width and right space together span the parent horizontally; likewise vertically. */
  lemma SpacesSpanParent(g: Geometry)
    ensures var s := AvailableSpaces(g);
      && s.left + g.anchorWidth + s.right == g.parentRight - g.parentX
      && s.top + g.anchorHeight + s.bottom == g.parentBottom - g.parentY
  {
  }
}
