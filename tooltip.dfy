/**
 * The configuration object of the tooltip (src/pyqttooltip/tooltip.py):
 * private fields set by the constructor, read by getters and replaced by
 * setters, a margins object changed in place, and the event filter that
 * never consumes an event.
 */
module Tooltip {
  import opened Wrappers
  import opened Enums
  import opened Utils

  /** Qt's `QPoint`. */
  datatype Point = Point(x: int, y: int)

  /** Qt's `QColor`, opaque here: known only by the name it was created from. */
  datatype Color = Color(name: string)

  /** Qt's `QFont`, opaque here: the family and point size it was created from. */
  datatype Font = Font(family: string, pointSize: int)

  /**
   * A Python value stored in a field meant for a bool. `setTriangleSize`
   * stores an int there, so the field holds either kind; `IsTrue` is
   * Python's truthiness of the stored value.
   */
  datatype Truthy = Bool(b: bool) | Int(n: int) {
    predicate IsTrue()
    {
      match this
      case Bool(b) => b
      case Int(n) => n != 0
    }
  }

  /** The four values of a `QMargins` object at one moment. */
  datatype MarginValues = MarginValues(left: int, top: int, right: int, bottom: int)

  /** The event types the filter distinguishes. */
  datatype EventType = HoverEnter | HoverLeave | OtherEvent

  /** What the event filter asks of the tooltip window besides its return value. */
  datatype FilterAction = NoAction | ShowAt(x: int, y: int) | HideTooltip

  /** Every piece of tooltip state at one moment, for "nothing else changes" postconditions. */
  datatype Settings = Settings(
    widget: Option<WidgetId>,
    text: string,
    duration: int,
    placement: TooltipPlacement,
    fallbackPlacement: seq<TooltipPlacement>,
    triangleEnabled: Truthy,
    triangleSize: int,
    offset: Point,
    showingDelay: int,
    hidingDelay: int,
    fadeInDuration: int,
    fadeOutDuration: int,
    textCenteringEnabled: bool,
    showingOnDisabledWidgets: bool,
    borderRadius: int,
    borderWidth: int,
    backgroundColor: Color,
    textColor: Color,
    borderColor: Color,
    font: Font,
    margins: Margins,
    marginValues: MarginValues,
    filterInstalledOn: Option<WidgetId>)

  /** Qt's `QMargins`: a mutable object that the tooltip holds by reference. */
  class Margins {
    var left: int
    var top: int
    var right: int
    var bottom: int

    function Values(): MarginValues
      reads this
    {
      MarginValues(left, top, right, bottom)
    }

    constructor (left: int, top: int, right: int, bottom: int)
      ensures Values() == MarginValues(left, top, right, bottom)
    {
      this.left, this.top, this.right, this.bottom := left, top, right, bottom;
    }

    method SetLeft(margin: int)
      modifies this
      ensures Values() == old(Values()).(left := margin)
    {
      left := margin;
    }

    method SetTop(margin: int)
      modifies this
      ensures Values() == old(Values()).(top := margin)
    {
      top := margin;
    }

    method SetRight(margin: int)
      modifies this
      ensures Values() == old(Values()).(right := margin)
    {
      right := margin;
    }

    method SetBottom(margin: int)
      modifies this
      ensures Values() == old(Values()).(bottom := margin)
    {
      bottom := margin;
    }
  }

  class Tooltip {
    var widget: Option<WidgetId>
    var text: string
    var duration: int
    var placement: TooltipPlacement
    var fallbackPlacement: seq<TooltipPlacement>
    var triangleEnabled: Truthy
    var triangleSize: int
    var offset: Point
    var showingDelay: int
    var hidingDelay: int
    var fadeInDuration: int
    var fadeOutDuration: int
    var textCenteringEnabled: bool
    var showingOnDisabledWidgets: bool
    var borderRadius: int
    var borderWidth: int
    var backgroundColor: Color
    var textColor: Color
    var borderColor: Color
    var font: Font
    var margins: Margins
    /** The widget whose events this tooltip filters (Qt's `installEventFilter`), if any. */
    var filterInstalledOn: Option<WidgetId>

    ghost function Snapshot(): Settings
      reads this, margins
    {
      Settings(widget, text, duration, placement, fallbackPlacement, triangleEnabled, triangleSize,
               offset, showingDelay, hidingDelay, fadeInDuration, fadeOutDuration,
               textCenteringEnabled, showingOnDisabledWidgets, borderRadius, borderWidth,
               backgroundColor, textColor, borderColor, font, margins, margins.Values(),
               filterInstalledOn)
    }

    /** `Tooltip(widget=None, text='')`: the defaults, and the event filter on a given widget. */
    constructor (widget: Option<WidgetId> := None, text: string := "")
      ensures fresh(margins)
      ensures Snapshot() == Settings(widget, text, 0, AUTO, [], Bool(true), 7, Point(0, 0),
                                     250, 250, 100, 100, true, false, 0, 0,
                                     Color("#000000"), Color("#FFFFFF"), Color("#403E41"),
                                     Font("Arial", 9), margins, MarginValues(0, 0, 0, 0), widget)
    {
      this.widget := widget;
      this.text := text;
      duration := 0;
      placement := AUTO;
      fallbackPlacement := [];
      triangleEnabled := Bool(true);
      triangleSize := 7;
      offset := Point(0, 0);
      showingDelay := 250;
      hidingDelay := 250;
      fadeInDuration := 100;
      fadeOutDuration := 100;
      textCenteringEnabled := true;
      showingOnDisabledWidgets := false;
      borderRadius := 0;
      borderWidth := 0;
      backgroundColor := Color("#000000");
      textColor := Color("#FFFFFF");
      borderColor := Color("#403E41");
      font := Font("Arial", 9);
      margins := new Margins(0, 0, 0, 0);
      new;
      if widget.Some? {
        filterInstalledOn := widget;
      } else {
        filterInstalledOn := None;
      }
    }

    /**
     * `eventFilter`: hovering into the watched widget shows the tooltip with
     * its bottom edge on the widget's top edge (widgetPos is the widget's
     * global position, height the tooltip's); leaving it hides the tooltip.
     * The event is never consumed.
     */
    method EventFilter(watched: WidgetId, event: EventType, widgetPos: Point, height: int)
      returns (consumed: bool, action: FilterAction)
      ensures !consumed
      ensures action.ShowAt? <==> widget == Some(watched) && event == HoverEnter
      ensures action.HideTooltip? <==> widget == Some(watched) && event == HoverLeave
      ensures action.ShowAt? ==> action.x == widgetPos.x && action.y + height == widgetPos.y
    {
      action := NoAction;
      if widget == Some(watched) {
        if event == HoverEnter {
          action := ShowAt(widgetPos.x, widgetPos.y - height);
        } else if event == HoverLeave {
          action := HideTooltip;
        }
      }
      consumed := false;
    }

    // ----- getters -----

    function GetWidget(): Option<WidgetId> reads this { widget }
    function GetText(): string reads this { text }
    function GetDuration(): int reads this { duration }
    function GetPlacement(): TooltipPlacement reads this { placement }
    function GetFallbackPlacement(): seq<TooltipPlacement> reads this { fallbackPlacement }
    function IsTriangleEnabled(): Truthy reads this { triangleEnabled }
    function GetTriangleSize(): int reads this { triangleSize }
    function GetOffset(): Point reads this { offset }
    function GetOffsetX(): int reads this { offset.x }
    function GetOffsetY(): int reads this { offset.y }
    function GetShowingDelay(): int reads this { showingDelay }
    function GetHidingDelay(): int reads this { hidingDelay }
    function GetFadeInDuration(): int reads this { fadeInDuration }
    function GetFadeOutDuration(): int reads this { fadeOutDuration }
    function IsTextCenteringEnabled(): bool reads this { textCenteringEnabled }
    function IsShowingOnDisabledWidgets(): bool reads this { showingOnDisabledWidgets }
    function GetBorderRadius(): int reads this { borderRadius }
    function GetBorderWidth(): int reads this { borderWidth }
    function GetBackgroundColor(): Color reads this { backgroundColor }
    function GetTextColor(): Color reads this { textColor }
    function GetBorderColor(): Color reads this { borderColor }
    function GetFont(): Font reads this { font }
    function GetMargins(): Margins reads this { margins }

    // ----- setters: each replaces one field and nothing else -----

    /** Replaces the stored widget only; the event filter stays where the constructor put it. */
    method SetWidget(widget: Option<WidgetId>)
      modifies this
      ensures GetWidget() == widget
      ensures Snapshot() == old(Snapshot()).(widget := widget)
    {
      this.widget := widget;
    }

    method SetText(text: string)
      modifies this
      ensures GetText() == text
      ensures Snapshot() == old(Snapshot()).(text := text)
    {
      this.text := text;
    }

    method SetDuration(duration: int)
      modifies this
      ensures GetDuration() == duration
      ensures Snapshot() == old(Snapshot()).(duration := duration)
    {
      this.duration := duration;
    }

    method SetPlacement(placement: TooltipPlacement)
      modifies this
      ensures GetPlacement() == placement
      ensures Snapshot() == old(Snapshot()).(placement := placement)
    {
      this.placement := placement;
    }

    method SetFallbackPlacement(fallbackPlacement: seq<TooltipPlacement>)
      modifies this
      ensures GetFallbackPlacement() == fallbackPlacement
      ensures Snapshot() == old(Snapshot()).(fallbackPlacement := fallbackPlacement)
    {
      this.fallbackPlacement := fallbackPlacement;
    }

    method SetTriangleEnabled(enabled: bool)
      modifies this
      ensures IsTriangleEnabled() == Bool(enabled)
      ensures Snapshot() == old(Snapshot()).(triangleEnabled := Bool(enabled))
    {
      triangleEnabled := Bool(enabled);
    }

    /** As written: the size lands in the triangle-enabled field; the triangle size is untouched. */
    method SetTriangleSize(size: int)
      modifies this
      ensures IsTriangleEnabled() == Int(size) && IsTriangleEnabled().IsTrue() == (size != 0)
      ensures GetTriangleSize() == old(GetTriangleSize())
      ensures Snapshot() == old(Snapshot()).(triangleEnabled := Int(size))
    {
      triangleEnabled := Int(size);
    }

    /** What setTriangleSize evidently means to do. */
    method SetTriangleSizeIntended(size: int)
      modifies this
      ensures GetTriangleSize() == size
      ensures Snapshot() == old(Snapshot()).(triangleSize := size)
    {
      triangleSize := size;
    }

    method SetOffset(offset: Point)
      modifies this
      ensures GetOffset() == offset
      ensures Snapshot() == old(Snapshot()).(offset := offset)
    {
      this.offset := offset;
    }

    /** Replaces the x component of the offset and keeps its y component. */
    method SetOffsetX(offset: int)
      modifies this
      ensures GetOffsetX() == offset && GetOffsetY() == old(GetOffsetY())
      ensures Snapshot() == old(Snapshot()).(offset := Point(offset, old(GetOffsetY())))
    {
      SetOffset(Point(offset, this.offset.y));
    }

    /** Replaces the y component of the offset and keeps its x component. */
    method SetOffsetY(offset: int)
      modifies this
      ensures GetOffsetY() == offset && GetOffsetX() == old(GetOffsetX())
      ensures Snapshot() == old(Snapshot()).(offset := Point(old(GetOffsetX()), offset))
    {
      SetOffset(Point(this.offset.x, offset));
    }

    method SetShowingDelay(delay: int)
      modifies this
      ensures GetShowingDelay() == delay
      ensures Snapshot() == old(Snapshot()).(showingDelay := delay)
    {
      showingDelay := delay;
    }

    method SetHidingDelay(delay: int)
      modifies this
      ensures GetHidingDelay() == delay
      ensures Snapshot() == old(Snapshot()).(hidingDelay := delay)
    {
      hidingDelay := delay;
    }

    method SetFadeInDuration(duration: int)
      modifies this
      ensures GetFadeInDuration() == duration
      ensures Snapshot() == old(Snapshot()).(fadeInDuration := duration)
    {
      fadeInDuration := duration;
    }

    /** As written: the duration lands in the fade-in field; the fade-out duration is untouched. */
    method SetFadeOutDuration(duration: int)
      modifies this
      ensures GetFadeInDuration() == duration
      ensures GetFadeOutDuration() == old(GetFadeOutDuration())
      ensures Snapshot() == old(Snapshot()).(fadeInDuration := duration)
    {
      fadeInDuration := duration;
    }

    /** What setFadeOutDuration evidently means to do. */
    method SetFadeOutDurationIntended(duration: int)
      modifies this
      ensures GetFadeOutDuration() == duration
      ensures Snapshot() == old(Snapshot()).(fadeOutDuration := duration)
    {
      fadeOutDuration := duration;
    }

    method SetTextCenteringEnabled(enabled: bool)
      modifies this
      ensures IsTextCenteringEnabled() == enabled
      ensures Snapshot() == old(Snapshot()).(textCenteringEnabled := enabled)
    {
      textCenteringEnabled := enabled;
    }

    method SetShowingOnDisabledWidgets(enabled: bool)
      modifies this
      ensures IsShowingOnDisabledWidgets() == enabled
      ensures Snapshot() == old(Snapshot()).(showingOnDisabledWidgets := enabled)
    {
      showingOnDisabledWidgets := enabled;
    }

    method SetBorderRadius(borderRadius: int)
      modifies this
      ensures GetBorderRadius() == borderRadius
      ensures Snapshot() == old(Snapshot()).(borderRadius := borderRadius)
    {
      this.borderRadius := borderRadius;
    }

    method SetBorderWidth(width: int)
      modifies this
      ensures GetBorderWidth() == width
      ensures Snapshot() == old(Snapshot()).(borderWidth := width)
    {
      borderWidth := width;
    }

    method SetBackgroundColor(color: Color)
      modifies this
      ensures GetBackgroundColor() == color
      ensures Snapshot() == old(Snapshot()).(backgroundColor := color)
    {
      backgroundColor := color;
    }

    method SetTextColor(color: Color)
      modifies this
      ensures GetTextColor() == color
      ensures Snapshot() == old(Snapshot()).(textColor := color)
    {
      textColor := color;
    }

    method SetBorderColor(color: Color)
      modifies this
      ensures GetBorderColor() == color
      ensures Snapshot() == old(Snapshot()).(borderColor := color)
    {
      borderColor := color;
    }

    method SetFont(font: Font)
      modifies this
      ensures GetFont() == font
      ensures Snapshot() == old(Snapshot()).(font := font)
    {
      this.font := font;
    }

    /** Stores the caller's margins object itself, so later in-place changes are shared with the caller. */
    method SetMargins(margins: Margins)
      modifies this
      ensures GetMargins() == margins
      ensures Snapshot() == old(Snapshot()).(margins := margins, marginValues := margins.Values())
    {
      this.margins := margins;
    }

    /** Changes the left side of the held margins object in place; the other sides stay. */
    method SetMarginLeft(margin: int)
      modifies margins
      ensures Snapshot() == old(Snapshot()).(marginValues := old(margins.Values()).(left := margin))
    {
      margins.SetLeft(margin);
    }

    /** Changes the top side of the held margins object in place; the other sides stay. */
    method SetMarginTop(margin: int)
      modifies margins
      ensures Snapshot() == old(Snapshot()).(marginValues := old(margins.Values()).(top := margin))
    {
      margins.SetTop(margin);
    }

    /** Changes the right side of the held margins object in place; the other sides stay. */
    method SetMarginRight(margin: int)
      modifies margins
      ensures Snapshot() == old(Snapshot()).(marginValues := old(margins.Values()).(right := margin))
    {
      margins.SetRight(margin);
    }

    /** Changes the bottom side of the held margins object in place; the other sides stay. */
    method SetMarginBottom(margin: int)
      modifies margins
      ensures Snapshot() == old(Snapshot()).(marginValues := old(margins.Values()).(bottom := margin))
    {
      margins.SetBottom(margin);
    }
  }

  // ----- what the two misdirected setters do to a fresh tooltip -----

  /** setTriangleSize(12) does not change getTriangleSize(), and leaves the triangle "enabled" as 12. */
  method TriangleSizeNotStored() returns (size: int, enabled: Truthy)
    ensures size == 7 && size != 12
    ensures enabled == Int(12)
  {
    var t := new Tooltip();
    t.SetTriangleSize(12);
    size := t.GetTriangleSize();
    enabled := t.IsTriangleEnabled();
  }

  /** setFadeOutDuration(40) leaves getFadeOutDuration() at 100 and turns getFadeInDuration() into 40. */
  method FadeOutDurationNotStored() returns (fadeIn: int, fadeOut: int)
    ensures fadeOut == 100 && fadeOut != 40
    ensures fadeIn == 40
  {
    var t := new Tooltip(None, "");
    t.SetFadeOutDuration(40);
    fadeIn := t.GetFadeInDuration();
    fadeOut := t.GetFadeOutDuration();
  }

  /** With the intended setters both values round-trip on a fresh tooltip. */
  method IntendedSettersRoundTrip() returns (size: int, fadeIn: int, fadeOut: int)
    ensures size == 12 && fadeOut == 40 && fadeIn == 100
  {
    var t := new Tooltip(None, "");
    t.SetTriangleSizeIntended(12);
    t.SetFadeOutDurationIntended(40);
    size := t.GetTriangleSize();
    fadeIn := t.GetFadeInDuration();
    fadeOut := t.GetFadeOutDuration();
  }

  /** A margins object handed to setMargins is shared: changing a side through the tooltip shows in it. */
  method SetMarginsShares() returns (left: int, top: int)
    ensures left == 5 && top == 2
  {
    var m := new Margins(1, 2, 3, 4);
    var t := new Tooltip(Some(0), "tip");
    t.SetMargins(m);
    t.SetMarginLeft(5);
    left := m.left;
    top := m.top;
  }
}
