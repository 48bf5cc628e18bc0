/**
 * The contract of `QgsVectorLayerElevationProperties` that its unit test states: defaults, setters
 * read back by their getters, `hasElevation`, the three profile symbols and the XML round trip.
 * The class body is not part of this model, so the XML layout below (attribute names, symbols as
 * child values keyed by role) is the model's own; what is fixed is that reading what was written
 * restores every field, and that a missing value falls back to its default.
 */
module ElevationProperties {
  import opened Dom
  import opened VectorProfile

  datatype SymbolKind = LineSymbol | FillSymbol | MarkerSymbol

  /** A profile symbol, seen through its kind and `color().name()` (`#rrggbb`). */
  datatype Symbol = Symbol(kind: SymbolKind, color: string)

  /** The observable state of the properties object. */
  datatype Props = Props(
    zScale: real,
    zOffset: real,
    clamping: AltitudeClamping,
    binding: AltitudeBinding,
    extrusionEnabled: bool,
    extrusionHeight: real,
    lineSymbol: Symbol,
    fillSymbol: Symbol,
    markerSymbol: Symbol)

  /** A value stored in the XML element. */
  datatype XmlValue = Number(n: real) | Flag(b: bool) | Key(s: string) | SymbolNode(symbol: Symbol)

  /** The scalar defaults of a fresh object, with the host's default symbols. */
  function Defaults(line: Symbol, fill: Symbol, marker: Symbol): Props {
    Props(1.0, 0.0, Terrain, Centroid, false, 0.0, line, fill, marker)
  }

  /**
   * `hasElevation()`: some elevation setting differs from its default. The class's own rule is not
   * part of the model; this one agrees with every case the unit test asserts.
   */
  predicate HasElevation(p: Props) {
    p.zScale != 1.0 || p.zOffset != 0.0 || p.clamping != Terrain || p.extrusionEnabled
  }

  function ClampingKey(c: AltitudeClamping): string {
    match c
    case Absolute => "Absolute"
    case Relative => "Relative"
    case Terrain => "Terrain"
  }

  function BindingKey(b: AltitudeBinding): string {
    match b
    case Vertex => "Vertex"
    case Centroid => "Centroid"
  }

  /** Reads an enum key back; an unknown key or a missing attribute gives the default. */
  function ClampingFromKey(v: XmlValue, default: AltitudeClamping): AltitudeClamping {
    if v == Key("Absolute") then Absolute
    else if v == Key("Relative") then Relative
    else if v == Key("Terrain") then Terrain
    else default
  }

  function BindingFromKey(v: XmlValue, default: AltitudeBinding): AltitudeBinding {
    if v == Key("Vertex") then Vertex else if v == Key("Centroid") then Centroid else default
  }

  function NumberOr(v: XmlValue, default: real): real {
    if v.Number? then v.n else default
  }

  function FlagOr(v: XmlValue, default: bool): bool {
    if v.Flag? then v.b else default
  }

  /** A symbol element of the right kind replaces the current symbol; anything else keeps it. */
  function SymbolOr(v: XmlValue, current: Symbol): Symbol {
    if v.SymbolNode? && v.symbol.kind == current.kind then v.symbol else current
  }

  /** The attributes `writeXml` stores, one per field. */
  function Written(p: Props): map<string, XmlValue> {
    map[
      "zscale" := Number(p.zScale),
      "zoffset" := Number(p.zOffset),
      "clamping" := Key(ClampingKey(p.clamping)),
      "binding" := Key(BindingKey(p.binding)),
      "extrusionEnabled" := Flag(p.extrusionEnabled),
      "extrusion" := Number(p.extrusionHeight),
      "profileLineSymbol" := SymbolNode(p.lineSymbol),
      "profileFillSymbol" := SymbolNode(p.fillSymbol),
      "profileMarkerSymbol" := SymbolNode(p.markerSymbol)]
  }

  /**
   * `writeXml( element, document, context )`: every field is written into the element, replacing
   * an attribute of the same name and keeping the others.
   */
  function WriteXml(p: Props, element: Element<XmlValue>): (e: Element<XmlValue>)
    ensures element.Node? <==> e.Node?
    ensures e.Node? ==> e.attributes.Keys == element.attributes.Keys + Written(p).Keys
  {
    if element.Null? then Null else Node(element.attributes + Written(p))
  }

  /**
   * `readXml( element, context )` into an object in state `current`: every scalar is read with its
   * default as fallback, and every symbol that is present replaces the current one.
   */
  function ReadXml(element: Element<XmlValue>, current: Props): Props {
    var missing := Key("");
    Props(
      NumberOr(Attribute(element, "zscale", missing), 1.0),
      NumberOr(Attribute(element, "zoffset", missing), 0.0),
      ClampingFromKey(Attribute(element, "clamping", missing), Terrain),
      BindingFromKey(Attribute(element, "binding", missing), Centroid),
      FlagOr(Attribute(element, "extrusionEnabled", missing), false),
      NumberOr(Attribute(element, "extrusion", missing), 0.0),
      SymbolOr(Attribute(element, "profileLineSymbol", missing), current.lineSymbol),
      SymbolOr(Attribute(element, "profileFillSymbol", missing), current.fillSymbol),
      SymbolOr(Attribute(element, "profileMarkerSymbol", missing), current.markerSymbol))
  }

  /** Symbols of the kinds their roles expect. */
  predicate SymbolsFitRoles(p: Props) {
    p.lineSymbol.kind == LineSymbol && p.fillSymbol.kind == FillSymbol && p.markerSymbol.kind == MarkerSymbol
  }

  /**
   * Writing into an element and reading it back into any object (a fresh one in particular)
   * reproduces every scalar field and every symbol, colour included.
   */
  lemma XmlRoundTrip(p: Props, element: Element<XmlValue>, target: Props)
    requires element.Node? && SymbolsFitRoles(p) && SymbolsFitRoles(target)
    ensures ReadXml(WriteXml(p, element), target) == p
  {
    var e := WriteXml(p, element);
    ReadsWritten(p, element, "zscale");
    ReadsWritten(p, element, "zoffset");
    ReadsWritten(p, element, "clamping");
    ReadsWritten(p, element, "binding");
    ReadsWritten(p, element, "extrusionEnabled");
    ReadsWritten(p, element, "extrusion");
    ReadsWritten(p, element, "profileLineSymbol");
    ReadsWritten(p, element, "profileFillSymbol");
    ReadsWritten(p, element, "profileMarkerSymbol");
    var r := ReadXml(e, target);
    assert r.clamping == p.clamping by {
      assert Attribute(e, "clamping", Key("")) == Key(ClampingKey(p.clamping));
    }
    assert r.binding == p.binding by {
      assert Attribute(e, "binding", Key("")) == Key(BindingKey(p.binding));
    }
  }

  /** A written attribute reads back as written, whatever the element held before. */
  lemma ReadsWritten(p: Props, element: Element<XmlValue>, name: string)
    requires element.Node? && name in Written(p)
    ensures Attribute(WriteXml(p, element), name, Key("")) == Written(p)[name]
  {
  }

  /** Reading an element that holds nothing restores the defaults and keeps the object's symbols. */
  lemma ReadEmptyGivesDefaults(current: Props)
    ensures ReadXml(Node(map[]), current)
      == Defaults(current.lineSymbol, current.fillSymbol, current.markerSymbol)
    ensures !HasElevation(ReadXml(Node(map[]), current))
  {
  }

  class QgsVectorLayerElevationProperties {
    var zScale: real
    var zOffset: real
    var clamping: AltitudeClamping
    var binding: AltitudeBinding
    var extrusionEnabled: bool
    var extrusionHeight: real
    var lineSymbol: Symbol
    var fillSymbol: Symbol
    var markerSymbol: Symbol

    function Value(): Props
      reads this
    {
      Props(zScale, zOffset, clamping, binding, extrusionEnabled, extrusionHeight, lineSymbol, fillSymbol, markerSymbol)
    }

    /** The constructor: the scalar defaults and the host's default profile symbols. */
    constructor (line: Symbol, fill: Symbol, marker: Symbol)
      ensures Value() == Defaults(line, fill, marker)
      ensures !HasElevation(Value())
    {
      zScale := 1.0;
      zOffset := 0.0;
      clamping := Terrain;
      binding := Centroid;
      extrusionEnabled := false;
      extrusionHeight := 0.0;
      lineSymbol := line;
      fillSymbol := fill;
      markerSymbol := marker;
    }

    method SetZScale(scale: real)
      modifies this
      ensures Value() == old(Value()).(zScale := scale)
    {
      zScale := scale;
    }

    method SetZOffset(offset: real)
      modifies this
      ensures Value() == old(Value()).(zOffset := offset)
    {
      zOffset := offset;
    }

    method SetClamping(mode: AltitudeClamping)
      modifies this
      ensures Value() == old(Value()).(clamping := mode)
    {
      clamping := mode;
    }

    method SetBinding(mode: AltitudeBinding)
      modifies this
      ensures Value() == old(Value()).(binding := mode)
    {
      binding := mode;
    }

    method SetExtrusionEnabled(enabled: bool)
      modifies this
      ensures Value() == old(Value()).(extrusionEnabled := enabled)
      ensures enabled ==> HasElevation(Value())
    {
      extrusionEnabled := enabled;
    }

    method SetExtrusionHeight(height: real)
      modifies this
      ensures Value() == old(Value()).(extrusionHeight := height)
    {
      extrusionHeight := height;
    }

    /** `setProfileLineSymbol`: the old symbol is replaced wholesale. */
    method SetProfileLineSymbol(symbol: Symbol)
      modifies this
      ensures Value() == old(Value()).(lineSymbol := symbol)
    {
      lineSymbol := symbol;
    }

    method SetProfileFillSymbol(symbol: Symbol)
      modifies this
      ensures Value() == old(Value()).(fillSymbol := symbol)
    {
      fillSymbol := symbol;
    }

    method SetProfileMarkerSymbol(symbol: Symbol)
      modifies this
      ensures Value() == old(Value()).(markerSymbol := symbol)
    {
      markerSymbol := symbol;
    }

    /** `writeXml`: leaves the object as it is. */
    method WriteTo(element: Element<XmlValue>) returns (e: Element<XmlValue>)
      ensures e == WriteXml(Value(), element)
    {
      e := WriteXml(Value(), element);
    }

    /** `readXml`. */
    method ReadFrom(element: Element<XmlValue>)
      modifies this
      ensures Value() == ReadXml(element, old(Value()))
    {
      var p := ReadXml(element, Value());
      zScale, zOffset, clamping, binding := p.zScale, p.zOffset, p.clamping, p.binding;
      extrusionEnabled, extrusionHeight := p.extrusionEnabled, p.extrusionHeight;
      lineSymbol, fillSymbol, markerSymbol := p.lineSymbol, p.fillSymbol, p.markerSymbol;
    }
  }

  /**
   * The scenario of the unit test: the six settings read back, `hasElevation` turns true, the
   * symbols read back with their colours, and a write followed by a read into a fresh object
   * restores all of it.
   */
  method BasicScenario() returns (props: QgsVectorLayerElevationProperties, props2: QgsVectorLayerElevationProperties)
    ensures props.zScale == 2.0 && props.zOffset == 0.5 && props.extrusionHeight == 10.0
    ensures props.extrusionEnabled && HasElevation(props.Value())
    ensures props.clamping == Relative && props.binding == Vertex
    ensures props.lineSymbol.color == "#ff4433" && props.fillSymbol.color == "#ff4455"
    ensures props.markerSymbol.color == "#ff1122"
    ensures props2.Value() == props.Value()
  {
    var line := Symbol(LineSymbol, "#000000");
    var fill := Symbol(FillSymbol, "#000000");
    var marker := Symbol(MarkerSymbol, "#000000");
    props := new QgsVectorLayerElevationProperties(line, fill, marker);
    props.SetZOffset(0.5);
    props.SetZScale(2.0);
    props.SetClamping(Relative);
    props.SetBinding(Vertex);
    props.SetExtrusionHeight(10.0);
    props.SetExtrusionEnabled(true);
    props.SetProfileLineSymbol(Symbol(LineSymbol, "#ff4433"));
    props.SetProfileFillSymbol(Symbol(FillSymbol, "#ff4455"));
    props.SetProfileMarkerSymbol(Symbol(MarkerSymbol, "#ff1122"));
    var elem := props.WriteTo(Node(map[]));
    props2 := new QgsVectorLayerElevationProperties(line, fill, marker);
    props2.ReadFrom(elem);
    XmlRoundTrip(props.Value(), Node(map[]), Defaults(line, fill, marker));
  }
}
