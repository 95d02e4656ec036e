/** The placement enumeration of the tooltip (src/pyqttooltip/enums.py). */
module Enums {
  import opened Wrappers

  /** Where the tooltip is drawn around its widget; AUTO asks the placement code to decide. */
  datatype TooltipPlacement = AUTO | LEFT | RIGHT | TOP | BOTTOM {

    /** The integer value Python's `Enum` associates with the member. */
    function Value(): (v: nat)
      ensures v <= 4
      ensures v == 0 <==> this == AUTO
    {
      match this
      case AUTO => 0
      case LEFT => 1
      case RIGHT => 2
      case TOP => 3
      case BOTTOM => 4
    }
  }

  /** Lookup by value, as `TooltipPlacement(v)` does; an unknown value is an error (None). */
  function FromValue(v: int): (r: Option<TooltipPlacement>)
    ensures r.Some? <==> 0 <= v <= 4
    ensures r.Some? ==> r.value.Value() == v
  {
    if v == 0 then Some(AUTO)
    else if v == 1 then Some(LEFT)
    else if v == 2 then Some(RIGHT)
    else if v == 3 then Some(TOP)
    else if v == 4 then Some(BOTTOM)
    else None
  }

  /** Every member is found again from its value, so the values are distinct. */
  lemma ValueRoundTrip(p: TooltipPlacement)
    ensures FromValue(p.Value()) == Some(p)
  {
  }
}
