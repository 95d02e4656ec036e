/**
 * The parent-chain walk of `Utils.get_top_level_parent`
 * (src/pyqttooltip/utils.py). Widgets are ids; the Qt object tree is a map
 * from each widget to its parent, or None for a widget without one.
 */
module Utils {
  import opened Wrappers

  /** Identity of a Qt widget. */
  type WidgetId = nat

  /**
   * A closed, finite, acyclic parent relation. Qt's object tree is acyclic;
   * `rank` is a proof-only witness of that: a parent's rank is below its child's.
   */
  ghost predicate Ranked(parents: map<WidgetId, Option<WidgetId>>, rank: map<WidgetId, nat>)
  {
    && parents.Keys <= rank.Keys
    && forall w :: w in parents && parents[w].Some? ==>
         parents[w].value in parents && rank[parents[w].value] < rank[w]
  }

  /** a is w itself or is reached from w by following parent links. */
  ghost predicate IsAncestorOrSelf(parents: map<WidgetId, Option<WidgetId>>, rank: map<WidgetId, nat>,
                                   w: WidgetId, a: WidgetId)
    requires Ranked(parents, rank) && w in parents
    decreases rank[w]
  {
    w == a || (parents[w].Some? && IsAncestorOrSelf(parents, rank, parents[w].value, a))
  }

  /** a is reached from w by following at least one parent link. */
  ghost predicate IsStrictAncestor(parents: map<WidgetId, Option<WidgetId>>, rank: map<WidgetId, nat>,
                                   w: WidgetId, a: WidgetId)
    requires Ranked(parents, rank) && w in parents
  {
    parents[w].Some? && IsAncestorOrSelf(parents, rank, parents[w].value, a)
  }

  /** The end of the parent chain starting at w: the reference the loop is proved against. */
  ghost function TopLevel(parents: map<WidgetId, Option<WidgetId>>, rank: map<WidgetId, nat>,
                          w: WidgetId): (top: WidgetId)
    requires Ranked(parents, rank) && w in parents
    ensures top in parents && parents[top].None?
    decreases rank[w]
  {
    match parents[w]
    case None => w
    case Some(p) => TopLevel(parents, rank, p)
  }

  /** The top-level parent lies on the chain, strictly above w when w has a parent. */
  lemma {:induction false} TopLevelIsAncestor(parents: map<WidgetId, Option<WidgetId>>, rank: map<WidgetId, nat>,
                                              w: WidgetId)
    requires Ranked(parents, rank) && w in parents
    ensures IsAncestorOrSelf(parents, rank, w, TopLevel(parents, rank, w))
    ensures parents[w].Some? ==> IsStrictAncestor(parents, rank, w, TopLevel(parents, rank, w))
    decreases rank[w]
  {
    if parents[w].Some? {
      TopLevelIsAncestor(parents, rank, parents[w].value);
    }
  }

  /** A parentless widget on the chain of w is the top-level parent of w: the chain has one end. */
  lemma {:induction false} TopLevelUnique(parents: map<WidgetId, Option<WidgetId>>, rank: map<WidgetId, nat>,
                                          w: WidgetId, a: WidgetId)
    requires Ranked(parents, rank) && w in parents
    requires IsAncestorOrSelf(parents, rank, w, a) && a in parents && parents[a].None?
    ensures a == TopLevel(parents, rank, w)
    decreases rank[w]
  {
    if w != a {
      TopLevelUnique(parents, rank, parents[w].value, a);
    }
  }

  /** Every widget on the chain of w has the same top-level parent as w. */
  lemma {:induction false} TopLevelSharedAlongChain(parents: map<WidgetId, Option<WidgetId>>, rank: map<WidgetId, nat>,
                                                    w: WidgetId, a: WidgetId)
    requires Ranked(parents, rank) && w in parents
    requires IsAncestorOrSelf(parents, rank, w, a)
    ensures a in parents && TopLevel(parents, rank, a) == TopLevel(parents, rank, w)
    decreases rank[w]
  {
    if w != a {
      TopLevelSharedAlongChain(parents, rank, parents[w].value, a);
    }
  }

  /** The top-level parent of the top-level parent is itself. */
  lemma TopLevelIdempotent(parents: map<WidgetId, Option<WidgetId>>, rank: map<WidgetId, nat>, w: WidgetId)
    requires Ranked(parents, rank) && w in parents
    ensures TopLevel(parents, rank, TopLevel(parents, rank, w)) == TopLevel(parents, rank, w)
  {
  }

  /**
   * `Utils.get_top_level_parent`: a widget without a parent is returned as
   * is; otherwise the walk starts at its parent and follows parent links
   * until one has none.
   */
  method GetTopLevelParent(parents: map<WidgetId, Option<WidgetId>>, ghost rank: map<WidgetId, nat>,
                           widget: WidgetId) returns (top: WidgetId)
    requires Ranked(parents, rank) && widget in parents
    ensures top == TopLevel(parents, rank, widget)
    ensures top in parents && parents[top].None?
    ensures parents[widget].None? ==> top == widget
    ensures parents[widget].Some? ==> IsStrictAncestor(parents, rank, widget, top)
  {
    if parents[widget].None? {
      return widget;
    }
    var parent := parents[widget].value;
    while parents[parent].Some?
      invariant parent in parents
      invariant TopLevel(parents, rank, parent) == TopLevel(parents, rank, widget)
      decreases rank[parent]
    {
      parent := parents[parent].value;
    }
    top := parent;
    TopLevelIsAncestor(parents, rank, widget);
  }

  /**
   * The widget tree of tests/utils_test.py: a window (0) holding a widget (1)
   * holding a button (2), and a button (3) without a parent.
   */
  method TestTreeTopLevels() returns (ofButton1: WidgetId, ofButton2: WidgetId)
    ensures ofButton1 == 0 && ofButton2 == 3
  {
    var parents := map[0 := None, 1 := Some(0), 2 := Some(1), 3 := None];
    ghost var rank := map[0 := 0, 1 := 1, 2 := 2, 3 := 0];
    ofButton1 := GetTopLevelParent(parents, rank, 2);
    ofButton2 := GetTopLevelParent(parents, rank, 3);
  }
}
