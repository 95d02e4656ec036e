/**
 * The layer geometry of the hand-drawn drop shadow
 * (src/pyqttooltip/drop_shadow.py): a list of layer widgets, one per shade
 * level, each resized and moved in place so that the layers nest one unit
 * apart on every side.
 */
module DropShadow {

  /** A widget's geometry: position in its parent and size. */
  datatype Rect = Rect(x: int, y: int, width: int, height: int)

  /**
   * One layer widget: the index its stylesheet was built from (the shade
   * level) and its geometry.
   */
  datatype Layer = Layer(shade: nat, geometry: Rect)

  /** The geometry layer i is given by a resize to (w, h). */
  function LayerRect(i: nat, w: int, h: int): Rect
  {
    Rect(i, i, w - i * 2, h - i * 2)
  }

  /** The layers after a resize to (w, h): same layers, in the same order, with new geometry. */
  function Resized(layers: seq<Layer>, w: int, h: int): seq<Layer>
  {
    seq(|layers|, i requires 0 <= i < |layers| => layers[i].(geometry := LayerRect(i, w, h)))
  }

  /** A resize keeps the number, order and shade of the layers. */
  lemma ResizedKeepsLayers(layers: seq<Layer>, w: int, h: int)
    ensures |Resized(layers, w, h)| == |layers|
    ensures forall i :: 0 <= i < |layers| ==> Resized(layers, w, h)[i].shade == layers[i].shade
  {
  }

  /** After a resize, layer i sits at (i, i) with size (w - 2i, h - 2i). */
  lemma ResizedGeometry(layers: seq<Layer>, w: int, h: int, i: nat)
    requires i < |layers|
    ensures var g := Resized(layers, w, h)[i].geometry;
      g.x == i && g.y == i && g.width == w - 2 * i && g.height == h - 2 * i
  {
  }

  /** Every layer is centred in the shadow: equal insets left and right, top and bottom. */
  lemma ResizedCentred(layers: seq<Layer>, w: int, h: int, i: nat)
    requires i < |layers|
    ensures var g := Resized(layers, w, h)[i].geometry;
      g.x == w - (g.x + g.width) && g.y == h - (g.y + g.height)
  {
  }

  /** Layer i+1 lies inside layer i, one unit in from each of its four edges. */
  lemma ResizedNested(layers: seq<Layer>, w: int, h: int, i: nat)
    requires i + 1 < |layers|
    ensures var outer := Resized(layers, w, h)[i].geometry;
      var inner := Resized(layers, w, h)[i + 1].geometry;
      && inner.x == outer.x + 1 && inner.y == outer.y + 1
      && inner.x + inner.width == outer.x + outer.width - 1
      && inner.y + inner.height == outer.y + outer.height - 1
  {
  }

  class DropShadow {
    /** The shadow widget's own geometry. */
    var geometry: Rect
    var layers: seq<Layer>

    /**
     * Creates `dropShadowSize` layers (the `DROP_SHADOW_SIZE` constant),
     * appended in index order. `newWidget` is the geometry Qt gives a newly
     * created child widget; no geometry is set before the first resize.
     */
    constructor (dropShadowSize: nat, newWidget: Rect)
      ensures geometry == newWidget
      ensures |layers| == dropShadowSize
      ensures forall i :: 0 <= i < |layers| ==> layers[i] == Layer(i, newWidget)
    {
      geometry := newWidget;
      layers := [];
      new;
      for i := 0 to dropShadowSize
        invariant geometry == newWidget
        invariant |layers| == i
        invariant forall k :: 0 <= k < i ==> layers[k] == Layer(k, newWidget)
      {
        layers := layers + [Layer(i, newWidget)];
      }
    }

    /** `resize(size)`: the shadow takes the new size; each layer is resized and then moved. */
    method Resize(width: int, height: int)
      modifies this
      ensures geometry == old(geometry).(width := width, height := height)
      ensures layers == Resized(old(layers), width, height)
    {
      geometry := geometry.(width := width, height := height);
      for i := 0 to |layers|
        invariant geometry == old(geometry).(width := width, height := height)
        invariant |layers| == |old(layers)|
        invariant forall k :: 0 <= k < i ==> layers[k] == Resized(old(layers), width, height)[k]
        invariant forall k :: i <= k < |layers| ==> layers[k] == old(layers)[k]
      {
        var g := layers[i].geometry.(width := width - i * 2, height := height - i * 2);
        g := g.(x := i, y := i);
        layers := layers[i := layers[i].(geometry := g)];
      }
    }
  }
}
