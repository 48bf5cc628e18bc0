/**
 * `Qgs3DAxisSettings`: the display mode of the 3D axis and the horizontal and vertical anchor of its
 * viewport, with copy, assignment, comparison and XML attributes `mode`, `horizontal`, `vertical`.
 */
module AxisSettings {
  import opened Dom

  /** `Qgs3DAxis::Mode`. */
  datatype Mode = Off | Crs | Cube

  /** `Qgs3DAxisRenderView::AxisViewportPosition`. */
  datatype AxisViewportPosition = Begin | Middle | End

  /** The three fields the settings object holds. */
  datatype AxisValues = AxisValues(mode: Mode, horizontal: AxisViewportPosition, vertical: AxisViewportPosition)

  /** The `writeXml` switch on the mode; the `default` arm shares the `Off` spelling. */
  function ModeName(m: Mode): string {
    match m
    case Crs => "Crs"
    case Cube => "Cube"
    case Off => "Off"
  }

  /** The `writeXml` switch on a position; the `default` arm shares the `End` spelling. */
  function PositionName(p: AxisViewportPosition): string {
    match p
    case Begin => "Begin"
    case Middle => "Middle"
    case End => "End"
  }

  /** The `readXml` test chain for the mode: an unrecognised string keeps `current`. */
  function ParseMode(s: string, current: Mode): (r: Mode)
    ensures (exists m :: s == ModeName(m)) ==> ModeName(r) == s
    ensures (forall m :: s != ModeName(m)) ==> r == current
  {
    if s == "Off" then Off
    else if s == "Crs" then Crs
    else if s == "Cube" then Cube
    else current
  }

  /** The `readXml` test chain for a position: an unrecognised string keeps `current`. */
  function ParsePosition(s: string, current: AxisViewportPosition): (r: AxisViewportPosition)
    ensures (exists p :: s == PositionName(p)) ==> PositionName(r) == s
    ensures (forall p :: s != PositionName(p)) ==> r == current
  {
    if s == "Begin" then Begin
    else if s == "Middle" then Middle
    else if s == "End" then End
    else current
  }

  /** The fields after `readXml(element)` on settings holding `v`. */
  function ReadFields(v: AxisValues, e: Element<string>): AxisValues {
    AxisValues(ParseMode(Attribute(e, "mode", ""), v.mode),
               ParsePosition(Attribute(e, "horizontal", ""), v.horizontal),
               ParsePosition(Attribute(e, "vertical", ""), v.vertical))
  }

  /** The element after `writeXml(element)` on settings holding `v`. */
  function WriteFields(v: AxisValues, e: Element<string>): Element<string> {
    var e1 := SetAttribute(e, "mode", ModeName(v.mode));
    var e2 := SetAttribute(e1, "horizontal", PositionName(v.horizontal));
    SetAttribute(e2, "vertical", PositionName(v.vertical))
  }

  /** Writing then reading restores all three fields, whatever the reader held before. */
  lemma ReadWriteRoundTrip(v: AxisValues, before: AxisValues, e: Element<string>)
    requires e.Node?
    ensures ReadFields(before, WriteFields(v, e)) == v
  {
    var w := WriteFields(v, e);
    assert Attribute(w, "mode", "") == ModeName(v.mode);
    assert Attribute(w, "horizontal", "") == PositionName(v.horizontal);
    assert Attribute(w, "vertical", "") == PositionName(v.vertical);
    match v.mode {
      case Off =>
      case Crs =>
      case Cube =>
    }
  }

  /** A missing or unrecognised attribute leaves its field as it was. */
  lemma ReadKeepsUnrecognised(v: AxisValues, e: Element<string>)
    ensures (forall m :: Attribute(e, "mode", "") != ModeName(m)) ==> ReadFields(v, e).mode == v.mode
    ensures (forall p :: Attribute(e, "horizontal", "") != PositionName(p)) ==> ReadFields(v, e).horizontal == v.horizontal
    ensures (forall p :: Attribute(e, "vertical", "") != PositionName(p)) ==> ReadFields(v, e).vertical == v.vertical
    ensures e.Null? ==> ReadFields(v, e) == v
  {
    if e.Null? {
      assert forall m :: "" != ModeName(m);
      assert forall p :: "" != PositionName(p);
    }
  }

  class Qgs3DAxisSettings {
    var mode: Mode
    var horizontalPosition: AxisViewportPosition
    var verticalPosition: AxisViewportPosition

    function Value(): AxisValues
      reads this
    {
      AxisValues(mode, horizontalPosition, verticalPosition)
    }

    /** The copy constructor copies all three fields. */
    constructor Copy(other: Qgs3DAxisSettings)
      ensures Value() == other.Value()
    {
      mode := other.mode;
      horizontalPosition := other.horizontalPosition;
      verticalPosition := other.verticalPosition;
    }

    /** `operator=` copies all three fields. */
    method Assign(rhs: Qgs3DAxisSettings)
      modifies this
      ensures Value() == old(rhs.Value())
    {
      mode := rhs.mode;
      horizontalPosition := rhs.horizontalPosition;
      verticalPosition := rhs.verticalPosition;
    }

    /** `operator==`: the AND of the three field comparisons. */
    function Equals(rhs: Qgs3DAxisSettings): (same: bool)
      reads this, rhs
      ensures same <==> Value() == rhs.Value()
    {
      var out := true;
      var out := out && mode == rhs.mode;
      var out := out && horizontalPosition == rhs.horizontalPosition;
      out && verticalPosition == rhs.verticalPosition
    }

    /** `operator!=`. */
    function NotEquals(rhs: Qgs3DAxisSettings): (differ: bool)
      reads this, rhs
      ensures differ <==> Value() != rhs.Value()
    {
      !Equals(rhs)
    }

    /** `readXml`: each attribute, when recognised, replaces its field. */
    method ReadXml(element: Element<string>)
      modifies this
      ensures Value() == ReadFields(old(Value()), element)
    {
      var modeStr := Attribute(element, "mode", "");
      if modeStr == "Off" {
        mode := Off;
      } else if modeStr == "Crs" {
        mode := Crs;
      } else if modeStr == "Cube" {
        mode := Cube;
      }
      var horizontalStr := Attribute(element, "horizontal", "");
      if horizontalStr == "Begin" {
        horizontalPosition := Begin;
      } else if horizontalStr == "Middle" {
        horizontalPosition := Middle;
      } else if horizontalStr == "End" {
        horizontalPosition := End;
      }
      var verticalStr := Attribute(element, "vertical", "");
      if verticalStr == "Begin" {
        verticalPosition := Begin;
      } else if verticalStr == "Middle" {
        verticalPosition := Middle;
      } else if verticalStr == "End" {
        verticalPosition := End;
      }
    }

    /** `writeXml`: sets the three attributes on the element (nothing on a null element). */
    function WriteXml(element: Element<string>): (written: Element<string>)
      reads this
      ensures element.Null? ==> written.Null?
      ensures element.Node? ==> written.Node? && written.attributes.Keys == element.attributes.Keys + {"mode", "horizontal", "vertical"}
      ensures element.Node? ==> forall before :: ReadFields(before, written) == Value()
    {
      if element.Node? then
        forall before | true
          ensures ReadFields(before, WriteFields(Value(), element)) == Value()
        {
          ReadWriteRoundTrip(Value(), before, element);
        }
        WriteFields(Value(), element)
      else
        WriteFields(Value(), element)
    }
  }
}
