// A layer of the LAYER table: its name, colour, line type and on/off state.
module Layers {
  import opened Results
  import opened Text

  datatype Layer = Layer(name: string, color: int, lineType: string, on: bool)

  /** FastMath.abs on an int: the magnitude, except that the most negative
      int has none and comes back unchanged. */
  function Abs32(x: int): (r: int)
    requires IsInt32(x)
    ensures x != MinInt ==> r >= 0 && (r == x || r == -x)
    ensures x == MinInt ==> r == x
  {
    if x == MinInt then x else if x < 0 then -x else x
  }

  /** The DxfLayer constructor: a negative colour switches the layer off and
      is stored as its magnitude; the line-type name is stored upper-cased
      (a null one throws). The flags argument is not used. */
  function NewLayer(name: string, flags: int, color: int, lineType: Option<string>): (r: Outcome<Layer>)
    requires IsInt32(color)
    ensures r.Fail? <==> lineType.None?
    ensures r.Ok? ==> r.value.name == name && r.value.lineType == Upper(lineType.value)
    ensures r.Ok? ==> (r.value.on <==> color >= 0)
    ensures r.Ok? && color != MinInt ==> r.value.color >= 0 && (r.value.color == color || r.value.color == -color)
  {
    if lineType.None? then Fail(NullReference)
    else Ok(Layer(name, Abs32(color), Upper(lineType.value), color >= 0))
  }

  /** The flags never influence the layer. */
  lemma NewLayerIgnoresFlags(name: string, f1: int, f2: int, color: int, lineType: Option<string>)
    requires IsInt32(color)
    ensures NewLayer(name, f1, color, lineType) == NewLayer(name, f2, color, lineType)
  {
  }

  /** A layer whose colour was written with either sign keeps the same
      colour; only its state differs. */
  lemma NewLayerSignOnlySwitches(name: string, color: int, lineType: string)
    requires 0 < color <= MaxInt
    ensures var on := NewLayer(name, 0, color, Some(lineType)).value;
            var off := NewLayer(name, 0, -color, Some(lineType)).value;
            on.color == off.color == color && on.on && !off.on
  {
  }

  predicate IsLayerOn(l: Layer)
  {
    l.on
  }

  /** setLayerOn: the state follows the argument; name, colour and line type
      are kept. */
  function SetLayerOn(l: Layer, on: bool): (r: Layer)
    ensures IsLayerOn(r) == on
    ensures r.name == l.name && r.color == l.color && r.lineType == l.lineType
  {
    l.(on := on)
  }

  /** The layer returned for a name the table does not hold. */
  const DefaultLayer: Layer := NewLayer("", 0, 7, Some("CONTINUOUS")).value

  lemma DefaultLayerIsOnContinuous()
    ensures DefaultLayer == Layer("", 7, "CONTINUOUS", true)
  {
    assert Upper("CONTINUOUS") == "CONTINUOUS";
  }
}
