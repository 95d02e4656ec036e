# pyqttooltip core, modelled in Dafny

A model of the core of an early version of pyqttooltip, a floating tooltip
widget for Qt applications written in Python. Qt types become plain values:
`QPoint` an integer pair, `QMargins` a small object with four integer sides,
`QColor` and `QFont` opaque values, widgets integer ids. Four pieces are
modelled.

- **Placement decision** (`PlacementUtils`, pure). `get_optimal_placement`
  computes the space between each edge of the anchor widget and the matching
  edge of its top-level parent, and returns the direction with the most
  space, ties broken in the order RIGHT, LEFT, TOP, BOTTOM. The Qt queries
  (`mapToGlobal`, `pos`, `geometry`) become the integer fields of
  `Geometry`. Besides the function's own contract, the choice is shown equal
  to an independent definition: the unique best direction when directions
  are ordered by space and then by tie-break priority.
- **Top-level parent lookup** (`Utils`, imperative). The parent chain is a
  map from widget id to its parent or `None`. `GetTopLevelParent` is the
  source's `while` loop, proved against the recursive `TopLevel` function.
  Its termination uses a proof-only rank map whose value drops from child
  to parent, which stands for the acyclicity of Qt's object tree.
- **Tooltip configuration** (`Tooltip`, imperative). A class with the
  private fields of `Tooltip`, plain getter functions (`GetText`,
  `GetTriangleSize`, ...) and setter methods. Each setter states the
  round-trip and, through the `Snapshot` of all state, that nothing else
  changes. The margins are a separate `Margins` object, held by reference
  and changed in place by `setMarginLeft` and the rest, so aliasing with a
  caller's object is kept. The two setters that write the wrong field are
  modelled as written. The field `filterInstalledOn` records the widget on
  which the constructor installed the event filter; it is Qt-side state,
  not a Python attribute.
- **Drop-shadow layers** (`DropShadow`, imperative). A class holding the
  list of layers. The constructor appends them in index order. `Resize`
  updates each one in a loop and is proved against the function `Resized`,
  whose lemmas state the geometry, the centring and the nesting.

## Model

| member | source | states |
|---|---|---|
| Enums.TooltipPlacement.Value | src/pyqttooltip/enums.py:4-9 | the enum values lie in 0..4 and only AUTO has value 0 |
| Enums.FromValue | src/pyqttooltip/enums.py:4-9 | Python's `Enum` lookup `TooltipPlacement(v)`, which no code in the package calls: it succeeds exactly for 0..4 and yields the member with that value |
| Enums.ValueRoundTrip | src/pyqttooltip/enums.py:4-9 | every member is found again from its value by that `Enum` lookup, so the five values are distinct |
| PlacementUtils.MaxSpace | src/pyqttooltip/placement_utils.py:20 | the maximum is at least each of the four spaces and equals one of them |
| PlacementUtils.OptimalPlacement | src/pyqttooltip/placement_utils.py:9-28 | the result is never AUTO, its space equals the maximum space and is at least the space of every concrete direction; the four spaces are those of `AvailableSpaces`, the subtractions of lines 16-19 |
| PlacementUtils.BestIsUnique | src/pyqttooltip/placement_utils.py:22-28 | ordering by space and then by the tie-break order RIGHT, LEFT, TOP, BOTTOM has exactly one best direction |
| PlacementUtils.OptimalPlacementIsBest | src/pyqttooltip/placement_utils.py:20-28 | the if/elif chain returns p if and only if p is the best direction under that ordering |
| PlacementUtils.TieBreakOrder | src/pyqttooltip/placement_utils.py:22-28 | RIGHT whenever right space is maximal; LEFT iff left is maximal and right is not; TOP iff top is maximal and neither right nor left is; BOTTOM iff bottom space is strictly greater than the other three |
| PlacementUtils.StrictMaximumChosen | src/pyqttooltip/placement_utils.py:20-28 | a direction with strictly more space than each other direction is the one returned |
| PlacementUtils.TranslationInvariant | src/pyqttooltip/placement_utils.py:16-19 | moving anchor and top-level parent by the same vector leaves all four spaces and the returned placement unchanged |
| PlacementUtils.AnchorShift | src/pyqttooltip/placement_utils.py:16-19 | moving the anchor by (dx, dy) raises left and top space by dx and dy and lowers right and bottom space by the same amounts |
| PlacementUtils.SpacesSpanParent | src/pyqttooltip/placement_utils.py:16-19 | left space + anchor width + right space spans the parent from its x to its right edge; likewise vertically |
| Utils.TopLevel | src/pyqttooltip/utils.py:7-15 | the end of the parent chain is in the tree and has no parent |
| Utils.TopLevelIsAncestor | src/pyqttooltip/utils.py:11-15 | the top-level parent is reachable from the widget by parent links, and is a strict ancestor when the widget has a parent |
| Utils.TopLevelUnique | src/pyqttooltip/utils.py:13-15 | any parentless widget reachable from w is the top-level parent of w |
| Utils.TopLevelSharedAlongChain | src/pyqttooltip/utils.py:13-14 | every widget on the chain of w has the top-level parent of w, which is what lets the loop replace the widget by its parent |
| Utils.TopLevelIdempotent | src/pyqttooltip/utils.py:8-15 | the top-level parent of the top-level parent is itself |
| Utils.GetTopLevelParent | src/pyqttooltip/utils.py:7-15 | the loop returns the end of the chain: a node with no parent, the widget itself when it has no parent, otherwise a strict ancestor; it terminates because the rank of the current node decreases |
| Utils.TestTreeTopLevels | tests/utils_test.py:5-14 | in the tree window > widget > button1 and a lone button2, the top-level parent of button1 is the window and that of button2 is button2 |
| Tooltip.Margins.constructor | src/pyqttooltip/tooltip.py:45 | a new margins object holds the four given sides |
| Tooltip.Margins.SetLeft | src/pyqttooltip/tooltip.py:227-228 | changes the left side of the object in place and keeps the other three |
| Tooltip.Margins.SetTop | src/pyqttooltip/tooltip.py:230-231 | changes the top side of the object in place and keeps the other three |
| Tooltip.Margins.SetRight | src/pyqttooltip/tooltip.py:233-234 | changes the right side of the object in place and keeps the other three |
| Tooltip.Margins.SetBottom | src/pyqttooltip/tooltip.py:236-237 | changes the bottom side of the object in place and keeps the other three |
| Tooltip.Tooltip.constructor | src/pyqttooltip/tooltip.py:15-45 | the given widget and text; duration 0, placement AUTO, empty fallback list, triangle enabled with size 7, offset (0,0), delays 250, fade durations 100, text centring on, not shown on disabled widgets, border radius and width 0, colours #000000/#FFFFFF/#403E41, Arial 9, a fresh margins object (0,0,0,0); the event filter is installed on the widget exactly when one is given (lines 64-66) |
| Tooltip.Tooltip.EventFilter | src/pyqttooltip/tooltip.py:68-78 | never consumes an event; shows the tooltip, bottom edge on the widget top edge, exactly on hover-enter of the watched widget, and hides it exactly on hover-leave of it |
| Tooltip.Tooltip.SetWidget | src/pyqttooltip/tooltip.py:83-84 | getWidget returns the new widget; nothing else changes, in particular not the widget the event filter is installed on |
| Tooltip.Tooltip.SetText | src/pyqttooltip/tooltip.py:89-90 | getText returns the value set; nothing else changes |
| Tooltip.Tooltip.SetDuration | src/pyqttooltip/tooltip.py:95-96 | getDuration returns the value set; nothing else changes |
| Tooltip.Tooltip.SetPlacement | src/pyqttooltip/tooltip.py:101-102 | getPlacement returns the value set; nothing else changes |
| Tooltip.Tooltip.SetFallbackPlacement | src/pyqttooltip/tooltip.py:107-108 | getFallbackPlacement returns the list set; nothing else changes |
| Tooltip.Tooltip.SetTriangleEnabled | src/pyqttooltip/tooltip.py:113-114 | isTriangleEnabled returns the value set; nothing else changes |
| Tooltip.Tooltip.SetTriangleSize | src/pyqttooltip/tooltip.py:116-120 | as written: the triangle-enabled field now holds the size (truthy iff non-zero), getTriangleSize is unchanged, nothing else changes |
| Tooltip.Tooltip.SetTriangleSizeIntended | src/pyqttooltip/tooltip.py:116-120 | corrected setter: getTriangleSize returns the value set; nothing else changes |
| Tooltip.Tooltip.SetOffset | src/pyqttooltip/tooltip.py:125-126 | getOffset returns the point set; nothing else changes |
| Tooltip.Tooltip.SetOffsetX | src/pyqttooltip/tooltip.py:128-132 | replaces the x component of the offset and keeps y |
| Tooltip.Tooltip.SetOffsetY | src/pyqttooltip/tooltip.py:134-138 | replaces the y component of the offset and keeps x |
| Tooltip.Tooltip.SetShowingDelay | src/pyqttooltip/tooltip.py:143-144 | getShowingDelay returns the value set; nothing else changes |
| Tooltip.Tooltip.SetHidingDelay | src/pyqttooltip/tooltip.py:149-150 | getHidingDelay returns the value set; nothing else changes |
| Tooltip.Tooltip.SetFadeInDuration | src/pyqttooltip/tooltip.py:155-156 | getFadeInDuration returns the value set; nothing else changes |
| Tooltip.Tooltip.SetFadeOutDuration | src/pyqttooltip/tooltip.py:152-162 | as written: getFadeInDuration returns the value set, getFadeOutDuration is unchanged, nothing else changes |
| Tooltip.Tooltip.SetFadeOutDurationIntended | src/pyqttooltip/tooltip.py:158-162 | corrected setter: getFadeOutDuration returns the value set; nothing else changes |
| Tooltip.Tooltip.SetTextCenteringEnabled | src/pyqttooltip/tooltip.py:167-168 | isTextCenteringEnabled returns the value set; nothing else changes |
| Tooltip.Tooltip.SetShowingOnDisabledWidgets | src/pyqttooltip/tooltip.py:173-174 | isShowingOnDisabledWidgets returns the value set; nothing else changes |
| Tooltip.Tooltip.SetBorderRadius | src/pyqttooltip/tooltip.py:179-180 | getBorderRadius returns the value set; nothing else changes |
| Tooltip.Tooltip.SetBorderWidth | src/pyqttooltip/tooltip.py:185-186 | getBorderWidth returns the value set; nothing else changes |
| Tooltip.Tooltip.SetBackgroundColor | src/pyqttooltip/tooltip.py:191-192 | getBackgroundColor returns the colour set; nothing else changes |
| Tooltip.Tooltip.SetTextColor | src/pyqttooltip/tooltip.py:197-198 | getTextColor returns the colour set; nothing else changes |
| Tooltip.Tooltip.SetBorderColor | src/pyqttooltip/tooltip.py:203-204 | getBorderColor returns the colour set; nothing else changes |
| Tooltip.Tooltip.SetFont | src/pyqttooltip/tooltip.py:218-219 | getFont returns the font set; nothing else changes |
| Tooltip.Tooltip.SetMargins | src/pyqttooltip/tooltip.py:224-225 | getMargins returns the very object passed in (shared, not copied); nothing else changes |
| Tooltip.Tooltip.SetMarginLeft | src/pyqttooltip/tooltip.py:227-228 | only the left side of the held margins object changes, in place; no tooltip field changes |
| Tooltip.Tooltip.SetMarginTop | src/pyqttooltip/tooltip.py:230-231 | only the top side of the held margins object changes, in place; no tooltip field changes |
| Tooltip.Tooltip.SetMarginRight | src/pyqttooltip/tooltip.py:233-234 | only the right side of the held margins object changes, in place; no tooltip field changes |
| Tooltip.Tooltip.SetMarginBottom | src/pyqttooltip/tooltip.py:236-237 | only the bottom side of the held margins object changes, in place; no tooltip field changes |
| Tooltip.TriangleSizeNotStored | src/pyqttooltip/tooltip.py:116-120 | on a new tooltip, setTriangleSize(12) leaves getTriangleSize at 7 and isTriangleEnabled at 12 |
| Tooltip.FadeOutDurationNotStored | src/pyqttooltip/tooltip.py:152-162 | on a new tooltip, setFadeOutDuration(40) leaves getFadeOutDuration at 100 and sets getFadeInDuration to 40 |
| Tooltip.IntendedSettersRoundTrip | src/pyqttooltip/tooltip.py:116-162 | with the corrected setters, triangle size 12 and fade-out 40 read back, and fade-in keeps its default 100 |
| Tooltip.SetMarginsShares | src/pyqttooltip/tooltip.py:224-228 | after setMargins(m) and setMarginLeft(5), the caller's own object m has left side 5 and its other sides untouched |
| DropShadow.DropShadow.constructor | src/pyqttooltip/drop_shadow.py:20-25 | exactly DROP_SHADOW_SIZE layers, layer i built with shade level i, in index order |
| DropShadow.DropShadow.Resize | src/pyqttooltip/drop_shadow.py:33-46 | the shadow takes the new size and its layers become the resized layers (below); nothing else changes |
| DropShadow.ResizedKeepsLayers | src/pyqttooltip/drop_shadow.py:44-46 | a resize keeps the number, the order and the shade level of the layers |
| DropShadow.ResizedGeometry | src/pyqttooltip/drop_shadow.py:44-46 | after resize(w, h), layer i is at (i, i) with size (w - 2i, h - 2i) |
| DropShadow.ResizedCentred | src/pyqttooltip/drop_shadow.py:45-46 | each layer is centred: left inset equals right inset, top inset equals bottom inset |
| DropShadow.ResizedNested | src/pyqttooltip/drop_shadow.py:44-46 | layer i+1 lies inside layer i, inset by one unit on every side |

The getters of `Tooltip.Tooltip` (`GetWidget`, `GetText`, `GetDuration`,
`GetPlacement`, `GetFallbackPlacement`, `IsTriangleEnabled`,
`GetTriangleSize`, `GetOffset`, `GetOffsetX`, `GetOffsetY`,
`GetShowingDelay`, `GetHidingDelay`, `GetFadeInDuration`,
`GetFadeOutDuration`, `IsTextCenteringEnabled`, `IsShowingOnDisabledWidgets`,
`GetBorderRadius`, `GetBorderWidth`, `GetBackgroundColor`, `GetTextColor`,
`GetBorderColor`, `GetFont`, `GetMargins`; src/pyqttooltip/tooltip.py:80-222)
are field reads. The setters above state their contracts in terms of them.

## Findings

| source | as written | input that shows it | evidently intended | confidence | as-written member | corrected member |
|---|---|---|---|---|---|---|
| src/pyqttooltip/tooltip.py:119-120 | `setTriangleSize` assigns `__triangle_enabled` | `setTriangleSize(12)` on a new tooltip: `getTriangleSize()` stays 7 and `isTriangleEnabled()` returns 12 (and `setTriangleSize(0)` disables the triangle) | assign `__triangle_size` | high; not executed | Tooltip.TriangleSizeNotStored (over Tooltip.Tooltip.SetTriangleSize) | Tooltip.Tooltip.SetTriangleSizeIntended |
| src/pyqttooltip/tooltip.py:161-162 | `setFadeOutDuration` assigns `__fade_in_duration` | `setFadeOutDuration(40)` on a new tooltip: `getFadeOutDuration()` stays 100 and `getFadeInDuration()` becomes 40 | assign `__fade_out_duration` | high; not executed | Tooltip.FadeOutDurationNotStored (over Tooltip.Tooltip.SetFadeOutDuration) | Tooltip.Tooltip.SetFadeOutDurationIntended |

`Tooltip.IntendedSettersRoundTrip` shows the corrected pair reading back
the values set.

## Left out

- Qt window set-up in the constructor (window flags, attributes, focus policy, the body widget's stylesheet, the triangle widget and its move; src/pyqttooltip/tooltip.py:47-62): these are widget plumbing with no state the getters expose.
- Tooltip.Tooltip.EventFilter: the `show()`, `move()` and `hide()` calls are returned as a `FilterAction` and not performed. The widget's global position (`parent().mapToGlobal(pos())`) and the tooltip's height are inputs. Python's crash when the watched widget has no parent is not modelled.
- `getOpacity`/`setOpacity` (src/pyqttooltip/tooltip.py:206-210): they go through Qt's floating-point `windowOpacity`.
- `font()` (src/pyqttooltip/tooltip.py:212-213) only returns `getFont()`. It is covered by `GetFont`.
- The `shown` and `hidden` signals (src/pyqttooltip/tooltip.py:12-13) are declared but never emitted in this code.
- Tooltip.Tooltip.SetFallbackPlacement: the list is held as a value. Python stores the caller's list object, so a later change to that list by the caller, or to the list `getFallbackPlacement` returns, would show in the tooltip. Nothing in the core mutates it.
- Tooltip.Tooltip.SetOffset, Tooltip.Tooltip.SetFont and the colour setters: `QPoint`, `QFont` and `QColor` are held as values. Python stores the caller's own Qt object and the getters return that object, so a later in-place change to it by a caller would show in the tooltip. Nothing in the core mutates these objects; `setOffsetX` and `setOffsetY` build a new `QPoint`.
- Python's dynamic typing: the setters accept values of any type. The model types every field, except the triangle-enabled field, which holds a bool or an int (`Truthy`) because `setTriangleSize` stores an int there. `isTextCenteringEnabled` is annotated `-> int` but returns the stored bool; it is modelled as bool.
- DropShadow: `update` and `__apply_layer_stylesheet` (src/pyqttooltip/drop_shadow.py:27-31, 48-59) build stylesheets from the float alpha `(index+1)*0.001*strength`. Only the shade index each layer's stylesheet uses is kept. The back reference to the owning tooltip is not modelled.
- DropShadow.DropShadow.Resize: layer sizes are the requested `w - 2i` and `h - 2i`. Qt bounds a widget's size below by its minimum size, so for a small shadow a requested negative size is stored as 0; that clamp is not modelled. The constant `DROP_SHADOW_SIZE` lives in a constants module that is not part of this model, so it is a constructor parameter. The geometry Qt gives a new child widget is also a parameter (`newWidget`).
- PlacementUtils.OptimalPlacement: Qt's `geometry().right()` and `bottom()` (which are `x + width - 1` and `y + height - 1`) and the frame position `pos()` are taken as given integers. Whether `mapToGlobal` on the top-level parent gives the anchor's true position for nested widgets is Qt's concern and is not modelled.
- Utils.GetTopLevelParent: `widget.parent()` becomes a lookup in a given parent map. The rank map is a proof device standing for Qt's guarantee that the object tree is finite and acyclic.
- src/pyqttooltip/tooltip_triangle.py (painting; its only arithmetic is the fixed size `size*2` by `size+1`), src/pyqttooltip/tooltip_interface.py (stubs returning None), the demo window and packaging: not part of the core.
- Behaviour the repository's tests (tests/tooltip_test.py, tests/placement_utils_test.py, tests/utils_test.py:17-26) expect but this code does not have: fallback placement, per-placement offsets, `get_parents`, show/hide timers and fade animations, and other defaults (triangle size 5 and 50 ms delays, tests/tooltip_test.py:20 and :31). Not modelled, since it would be invented; the model follows the code.
