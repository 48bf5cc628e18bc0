/**
 * Height rules of the vector-layer elevation profile (`QgsVectorLayerProfileGenerator` and
 * `QgsVectorLayerProfileResults`): how a feature z becomes a profile height under the three
 * clamping modes, the in-place rewrite of a polygon's vertex z values, the visitors that identify
 * and snap to features near a profile point, and the `minZ`/`maxZ` bookkeeping of point features.
 *
 * Doubles are reals. A NaN z, the z of a 2D point and an unknown terrain height are all `None`.
 */
module VectorProfile {
  import opened Wrappers

  datatype AltitudeClamping = Absolute | Relative | Terrain
  datatype AltitudeBinding = Vertex | Centroid

  /** `std::numeric_limits<double>::max()`; `lowest()` is its negation. */
  const DoubleMax: real := 1.7976931348623157e308

  /** A `QgsPoint`: x, y and a z that may be NaN or missing. */
  datatype Point = Point(x: real, y: real, z: Option<real>)

  /** A `QgsProfilePoint`: a distance along the profile curve and an elevation. */
  datatype ProfilePoint = ProfilePoint(distance: real, elevation: real)

  /**
   * The terrain provider of the request: none, or one whose `heightAt` (after the point is
   * transformed into the provider's CRS) yields a height or NaN. A failed transformation also
   * yields NaN, so it is folded into `heightAt`.
   */
  datatype TerrainProvider = NoProvider | Provider(heightAt: (real, real) -> Option<real>)

  /** The generator's `mClamping`, `mBinding`, `mScale`, `mExtrusionEnabled` and terrain provider. */
  datatype Settings = Settings(
    clamping: AltitudeClamping,
    binding: AltitudeBinding,
    scale: real,
    extrusionEnabled: bool,
    terrain: TerrainProvider)

  /** A z scaled by `mScale` and shifted by the offset. */
  function Scaled(z: real, scale: real, offset: real): real { z * scale + offset }

  function Min(a: real, b: real): real { if b < a then b else a }
  function Max(a: real, b: real): real { if a < b then b else a }
  function Abs(x: real): real { if x < 0.0 then -x else x }

  // ---------------------------------------------------------------------------------------------
  // featureZToHeight

  /** `terrainHeight`: NaN when there is no terrain provider. */
  function TerrainHeight(terrain: TerrainProvider, x: real, y: real): Option<real> {
    match terrain
    case NoProvider => None
    case Provider(heightAt) => heightAt(x, y)
  }

  /**
   * `featureZToHeight`: Relative adds a known terrain height to z (or takes it when z is NaN),
   * Terrain replaces z by a known terrain height, Absolute and an unknown terrain keep z; a NaN z
   * then reads as 0 before scale and offset.
   */
  function FeatureZToHeight(s: Settings, x: real, y: real, z: Option<real>, offset: real): real {
    var clampedZ :=
      if s.clamping == Absolute then z
      else
        var terrainZ := TerrainHeight(s.terrain, x, y);
        if terrainZ.None? then z
        else if s.clamping == Relative then (if z.None? then terrainZ else Some(z.value + terrainZ.value))
        else terrainZ;
    Scaled(clampedZ.GetOr(0.0), s.scale, offset)
  }

  /** Absolute clamping never consults the terrain: any provider gives the same height. */
  lemma AbsoluteIgnoresTerrain(s: Settings, other: TerrainProvider, x: real, y: real, z: Option<real>, offset: real)
    requires s.clamping == Absolute
    ensures FeatureZToHeight(s, x, y, z, offset) == FeatureZToHeight(s.(terrain := other), x, y, z, offset)
    ensures FeatureZToHeight(s, x, y, z, offset) == Scaled(z.GetOr(0.0), s.scale, offset)
  {
  }

  /** Where the terrain height is unknown (no provider, NaN), every mode reads like Absolute. */
  lemma UnknownTerrainReadsAbsolute(s: Settings, x: real, y: real, z: Option<real>, offset: real)
    requires TerrainHeight(s.terrain, x, y).None?
    ensures FeatureZToHeight(s, x, y, z, offset) == FeatureZToHeight(s.(clamping := Absolute), x, y, z, offset)
  {
  }

  /**
   * With a known terrain height `t`, Relative is Absolute on `z + t` (on `t` alone for a NaN z),
   * and Terrain is Absolute on `t` whatever z was.
   */
  lemma KnownTerrainShifts(s: Settings, x: real, y: real, z: Option<real>, offset: real, t: real)
    requires TerrainHeight(s.terrain, x, y) == Some(t)
    ensures s.clamping == Relative ==>
      FeatureZToHeight(s, x, y, z, offset)
        == FeatureZToHeight(s.(clamping := Absolute), x, y, Some(z.GetOr(0.0) + t), offset)
        == Scaled(z.GetOr(0.0) + t, s.scale, offset)
    ensures s.clamping == Terrain ==>
      FeatureZToHeight(s, x, y, z, offset) == Scaled(t, s.scale, offset)
  {
    if z.None? {
      assert z.GetOr(0.0) + t == t;
    }
  }

  // ---------------------------------------------------------------------------------------------
  // clampAltitudes

  /** The terrain term of one vertex: 0 for Absolute, else sampled at the vertex or the centroid. */
  function ClampTerrainZ(s: Settings, p: Point, centroid: Point): Option<real> {
    if s.clamping == Absolute then Some(0.0)
    else if s.binding == Vertex then TerrainHeight(s.terrain, p.x, p.y)
    else TerrainHeight(s.terrain, centroid.x, centroid.y)
  }

  /** The geometry term of one vertex: its z (NaN read as 0), or 0 in Terrain mode. */
  function ClampGeomZ(s: Settings, p: Point): real {
    if s.clamping == Terrain then 0.0 else p.z.GetOr(0.0)
  }

  /** One vertex after `clampAltitudes`: a NaN terrain height makes the new z NaN. */
  function ClampedVertex(s: Settings, p: Point, centroid: Point, offset: real): Point {
    var terrainZ := ClampTerrainZ(s, p, centroid);
    Point(p.x, p.y, if terrainZ.None? then None else Some(Scaled(terrainZ.value + ClampGeomZ(s, p), s.scale, offset)))
  }

  /** A line string's vertices after `clampAltitudes`. */
  function Clamped(s: Settings, points: seq<Point>, centroid: Point, offset: real): (r: seq<Point>)
    ensures |r| == |points|
  {
    seq(|points|, i requires 0 <= i < |points| => ClampedVertex(s, points[i], centroid, offset))
  }

  /** Clamping rewrites z only: every vertex keeps its x and y, in order. */
  lemma ClampKeepsPlan(s: Settings, points: seq<Point>, centroid: Point, offset: real, i: int)
    requires 0 <= i < |points|
    ensures Clamped(s, points, centroid, offset)[i].x == points[i].x
    ensures Clamped(s, points, centroid, offset)[i].y == points[i].y
  {
  }

  /**
   * Where the terrain is sampled at the vertex itself and known there (or not consulted at all),
   * clamping a vertex gives it exactly the height `featureZToHeight` computes for it.
   */
  lemma ClampAgreesWithFeatureZ(s: Settings, p: Point, centroid: Point, offset: real)
    requires s.clamping == Absolute || (s.binding == Vertex && TerrainHeight(s.terrain, p.x, p.y).Some?)
    ensures ClampedVertex(s, p, centroid, offset).z == Some(FeatureZToHeight(s, p.x, p.y, p.z, offset))
  {
    if s.clamping != Absolute {
      var t := TerrainHeight(s.terrain, p.x, p.y).value;
      if s.clamping == Relative {
        assert t + p.z.GetOr(0.0) == p.z.GetOr(0.0) + t;
      } else {
        assert t + 0.0 == t;
      }
    } else {
      assert 0.0 + p.z.GetOr(0.0) == p.z.GetOr(0.0);
    }
  }

  /** Terrain clamping bound to the centroid drapes every vertex at one and the same height. */
  lemma CentroidTerrainIsFlat(s: Settings, points: seq<Point>, centroid: Point, offset: real, i: int, j: int)
    requires s.clamping == Terrain && s.binding == Centroid
    requires 0 <= i < |points| && 0 <= j < |points|
    ensures Clamped(s, points, centroid, offset)[i].z == Clamped(s, points, centroid, offset)[j].z
  {
    var clamped := Clamped(s, points, centroid, offset);
    assert clamped[i] == ClampedVertex(s, points[i], centroid, offset);
    assert clamped[j] == ClampedVertex(s, points[j], centroid, offset);
  }

  /**
   * Unlike `featureZToHeight`, which keeps z when the terrain is unknown, `clampAltitudes` turns
   * the vertex z into NaN.
   */
  lemma ClampUnknownTerrainIsNaN(s: Settings, p: Point, centroid: Point, offset: real)
    requires s.clamping != Absolute
    requires s.binding == Vertex && TerrainHeight(s.terrain, p.x, p.y).None?
    ensures ClampedVertex(s, p, centroid, offset).z.None?
    ensures FeatureZToHeight(s, p.x, p.y, p.z, offset) == Scaled(p.z.GetOr(0.0), s.scale, offset)
  {
  }

  /** A `QgsLineString` whose vertices are rewritten in place through `setZAt`. */
  class LineString {
    var points: seq<Point>

    constructor (points: seq<Point>)
      ensures this.points == points
    {
      this.points := points;
    }
  }

  /** `clampAltitudes( QgsLineString *, centroid, offset )`: one `setZAt` per vertex, in order. */
  method ClampLineAltitudes(s: Settings, line: LineString, centroid: Point, offset: real)
    modifies line
    ensures line.points == Clamped(s, old(line.points), centroid, offset)
  {
    ghost var original := line.points;
    var i := 0;
    while i < |line.points|
      invariant 0 <= i <= |line.points| == |original|
      invariant forall k | 0 <= k < i :: line.points[k] == ClampedVertex(s, original[k], centroid, offset)
      invariant forall k | i <= k < |line.points| :: line.points[k] == original[k]
    {
      var terrainZ: Option<real> := Some(0.0);
      if s.clamping != Absolute {
        if s.binding == Vertex {
          terrainZ := TerrainHeight(s.terrain, line.points[i].x, line.points[i].y);
        } else {
          terrainZ := TerrainHeight(s.terrain, centroid.x, centroid.y);
        }
      }
      var geomZ: Option<real> := Some(0.0);
      if s.clamping != Terrain {
        geomZ := line.points[i].z;
      }
      var z := if terrainZ.None? then None else Some(Scaled(terrainZ.value + geomZ.GetOr(0.0), s.scale, offset));
      line.points := line.points[i := Point(line.points[i].x, line.points[i].y, z)];
      assert ClampGeomZ(s, original[i]) == geomZ.GetOr(0.0);
      assert line.points[i] == ClampedVertex(s, original[i], centroid, offset);
      i := i + 1;
    }
  }

  /** Every vertex given the z `value` (`addZValue` on a 2D geometry). */
  function WithZ(points: seq<Point>, value: real): (r: seq<Point>)
    ensures |r| == |points|
  {
    seq(|points|, i requires 0 <= i < |points| => Point(points[i].x, points[i].y, Some(value)))
  }

  /** A polygon ring: a line string, or another kind of curve whose vertices are not modelled. */
  datatype Ring = LineRing(line: LineString) | CurveRing

  /** The number of leading rings that are line strings. */
  function LeadingLines(rings: seq<Ring>): (n: nat)
    ensures n <= |rings|
    ensures forall j | 0 <= j < n :: rings[j].LineRing?
    ensures n < |rings| ==> rings[n].CurveRing?
  {
    if rings == [] || rings[0].CurveRing? then 0 else 1 + LeadingLines(rings[1..])
  }

  /** A `QgsPolygon`: an exterior ring and interior rings, each owned by the polygon. */
  class Polygon {
    var is3D: bool
    var exterior: Ring
    var interiors: seq<Ring>

    /** The line-string objects of the rings. */
    function Lines(): set<LineString>
      reads this
    {
      (if exterior.LineRing? then {exterior.line} else {})
        + set j | 0 <= j < |interiors| && interiors[j].LineRing? :: interiors[j].line
    }

    /** Every ring is a separate object. */
    predicate Valid()
      reads this
    {
      (exterior.LineRing? ==> forall j | 0 <= j < |interiors| && interiors[j].LineRing? :: interiors[j].line != exterior.line)
      && (forall j, k | 0 <= j < k < |interiors| && interiors[j].LineRing? && interiors[k].LineRing? ::
            interiors[j].line != interiors[k].line)
    }

    constructor (is3D: bool, exterior: Ring, interiors: seq<Ring>)
      ensures this.is3D == is3D && this.exterior == exterior && this.interiors == interiors
    {
      this.is3D := is3D;
      this.exterior := exterior;
      this.interiors := interiors;
    }

    /** `addZValue( value )`: every vertex of every ring gets the z `value`. */
    method AddZValue(value: real)
      requires Valid()
      modifies this, Lines()
      ensures is3D && exterior == old(exterior) && interiors == old(interiors) && Valid()
      ensures exterior.LineRing? ==> exterior.line.points == WithZ(old(exterior.line.points), value)
      ensures forall j | 0 <= j < |interiors| && interiors[j].LineRing? ::
        interiors[j].line.points == WithZ(old(interiors[j].line.points), value)
    {
      is3D := true;
      if exterior.LineRing? {
        exterior.line.points := WithZ(exterior.line.points, value);
      }
      for i := 0 to |interiors|
        invariant exterior == old(exterior) && interiors == old(interiors) && is3D
        invariant exterior.LineRing? ==> exterior.line.points == WithZ(old(exterior.line.points), value)
        invariant forall j | 0 <= j < i && interiors[j].LineRing? ::
          interiors[j].line.points == WithZ(old(interiors[j].line.points), value)
        invariant forall j | i <= j < |interiors| && interiors[j].LineRing? ::
          interiors[j].line.points == old(interiors[j].line.points)
      {
        if interiors[i].LineRing? {
          interiors[i].line.points := WithZ(interiors[i].line.points, value);
        }
      }
    }
  }

  /** A ring's vertices before clamping: given z = 0 first if the polygon was 2D. */
  function Lifted(was3D: bool, points: seq<Point>): seq<Point> {
    if was3D then points else WithZ(points, 0.0)
  }

  /** The interior rings' line-string objects. */
  function InteriorLines(rings: seq<Ring>): set<LineString> {
    set j | 0 <= j < |rings| && rings[j].LineRing? :: rings[j].line
  }

  /**
   * The interior-ring loop of `clampAltitudes( QgsPolygon *, offset )`: clamps the rings in order
   * and returns false at the first ring that is not a line string.
   */
  method ClampInteriorRings(s: Settings, polygon: Polygon, centroid: Point, offset: real) returns (ok: bool)
    requires polygon.Valid()
    modifies InteriorLines(polygon.interiors)
    ensures ok <==> LeadingLines(polygon.interiors) == |polygon.interiors|
    ensures forall j | 0 <= j < |polygon.interiors| && polygon.interiors[j].LineRing? ::
      polygon.interiors[j].line.points
        == if j < LeadingLines(polygon.interiors)
           then Clamped(s, old(polygon.interiors[j].line.points), centroid, offset)
           else old(polygon.interiors[j].line.points)
  {
    var rings := polygon.interiors;
    for i := 0 to |rings|
      invariant i <= LeadingLines(rings)
      invariant forall j | 0 <= j < |rings| && rings[j].LineRing? ::
        rings[j].line.points
          == if j < i then Clamped(s, old(rings[j].line.points), centroid, offset) else old(rings[j].line.points)
    {
      if rings[i].CurveRing? {
        return false;
      }
      assert rings[i].line in InteriorLines(rings);
      ClampLineAltitudes(s, rings[i].line, centroid, offset);
    }
    ok := true;
  }

  /**
   * `clampAltitudes( QgsPolygon *, offset )`: makes the polygon 3D, then clamps the exterior ring
   * and the interior rings in order, giving up with false at the first ring that is not a line
   * string (the rings before it stay clamped). `centroid` is `polygon->centroid()`, a geometry
   * computation outside the model; it is used for Centroid binding only.
   */
  method ClampPolygonAltitudes(s: Settings, polygon: Polygon, centroid: Point, offset: real) returns (ok: bool)
    requires polygon.Valid()
    modifies polygon, polygon.Lines()
    ensures polygon.is3D && polygon.exterior == old(polygon.exterior) && polygon.interiors == old(polygon.interiors)
    ensures ok <==> polygon.exterior.LineRing? && LeadingLines(polygon.interiors) == |polygon.interiors|
    ensures polygon.exterior.LineRing? ==>
      polygon.exterior.line.points
        == Clamped(s, Lifted(old(polygon.is3D), old(polygon.exterior.line.points)), centroid, offset)
    ensures forall j | 0 <= j < |polygon.interiors| && polygon.interiors[j].LineRing? ::
      var lifted := Lifted(old(polygon.is3D), old(polygon.interiors[j].line.points));
      polygon.interiors[j].line.points
        == if polygon.exterior.LineRing? && j < LeadingLines(polygon.interiors)
           then Clamped(s, lifted, centroid, offset) else lifted
  {
    if !polygon.is3D {
      polygon.AddZValue(0.0);
    }
    if polygon.exterior.CurveRing? {
      return false;
    }
    assert polygon.exterior.line !in InteriorLines(polygon.interiors);
    ClampLineAltitudes(s, polygon.exterior.line, centroid, offset);
    ok := ClampInteriorRings(s, polygon, centroid, offset);
  }

  // ---------------------------------------------------------------------------------------------
  // Visitors of features near a profile point

  /** One call of the visitor: feature id, delta to the target, and the point's distance and elevation. */
  datatype Visit = Visit(featureId: int, delta: real, distance: real, elevation: real)

  /**
   * One call of the identify visitor on the per-feature hash: the visited feature gets an entry,
   * the new visit when the feature is new or strictly closer, and every other entry is kept.
   */
  function IdentifyStep(features: map<int, Visit>, v: Visit): (r: map<int, Visit>)
    ensures r.Keys == features.Keys + {v.featureId}
    ensures forall id | id in features && id != v.featureId :: r[id] == features[id]
    ensures v.featureId !in features ==> r[v.featureId] == v
    ensures v.featureId in features ==> r[v.featureId] == v || r[v.featureId] == features[v.featureId]
    ensures r[v.featureId].delta <= v.delta
    ensures v.featureId in features ==> r[v.featureId].delta <= features[v.featureId].delta
    ensures v.featureId in features && r[v.featureId] != features[v.featureId] ==> v.delta < features[v.featureId].delta
  {
    if v.featureId !in features then features[v.featureId := v]
    else if v.delta < features[v.featureId].delta then features[v.featureId := v]
    else features
  }

  /** The hash after a run of visits, in order. */
  function Identified(visits: seq<Visit>): map<int, Visit> {
    if visits == [] then map[] else IdentifyStep(Identified(visits[..|visits| - 1]), visits[|visits| - 1])
  }

  /** The ids of a run of visits. */
  function VisitedIds(visits: seq<Visit>): set<int> {
    set k | 0 <= k < |visits| :: visits[k].featureId
  }

  /** The identify hash has an entry for exactly the visited features. */
  lemma {:induction false} IdentifiedKeys(visits: seq<Visit>)
    ensures Identified(visits).Keys == VisitedIds(visits)
  {
    if visits != [] {
      var prefix := visits[..|visits| - 1];
      IdentifiedKeys(prefix);
      assert forall k | 0 <= k < |prefix| :: prefix[k] == visits[k];
      assert VisitedIds(visits) == VisitedIds(prefix) + {visits[|visits| - 1].featureId};
    }
  }

  /** The entry kept for a feature has a delta no larger than any of that feature's visits. */
  lemma {:induction false} IdentifiedIsClosest(visits: seq<Visit>, j: int)
    requires 0 <= j < |visits|
    ensures visits[j].featureId in Identified(visits)
    ensures Identified(visits)[visits[j].featureId].delta <= visits[j].delta
  {
    var prefix := visits[..|visits| - 1];
    if j < |visits| - 1 {
      assert prefix[j] == visits[j];
      IdentifiedIsClosest(prefix, j);
    }
  }

  /**
   * The entry kept for a feature is one of that feature's visits, and no earlier visit of the
   * feature had a delta as small: the first visit with the smallest delta wins.
   */
  lemma {:induction false} IdentifiedIsFirstClosest(visits: seq<Visit>, id: int)
    requires id in Identified(visits)
    ensures exists k | 0 <= k < |visits| ::
      visits[k] == Identified(visits)[id] && visits[k].featureId == id
      && (forall j | 0 <= j < k && visits[j].featureId == id :: visits[j].delta > visits[k].delta)
  {
    var prefix := visits[..|visits| - 1];
    var last := visits[|visits| - 1];
    var before := Identified(prefix);
    if id == last.featureId && (id !in before || last.delta < before[id].delta) {
      var k := |visits| - 1;
      forall j | 0 <= j < k && visits[j].featureId == id
        ensures visits[j].delta > visits[k].delta
      {
        assert prefix[j] == visits[j];
        IdentifiedIsClosest(prefix, j);
      }
    } else {
      IdentifiedIsFirstClosest(prefix, id);
      var k :| 0 <= k < |prefix| && prefix[k] == before[id] && prefix[k].featureId == id
        && (forall j | 0 <= j < k && prefix[j].featureId == id :: prefix[j].delta > prefix[k].delta);
      assert visits[k] == prefix[k];
      forall j | 0 <= j < k && visits[j].featureId == id
        ensures visits[j].delta > visits[k].delta
      {
        assert prefix[j] == visits[j];
      }
    }
  }

  /** The hash of the identify visitor (`identify( point, context )`). */
  class IdentifyCollector {
    var features: map<int, Visit>

    constructor ()
      ensures features == map[]
    {
      features := map[];
    }

    /** The visitor: a first visit is kept, a later one replaces it only with a strictly smaller delta. */
    method Visit(v: Visit)
      modifies this
      ensures features == IdentifyStep(old(features), v)
    {
      if v.featureId !in features {
        features := features[v.featureId := v];
      } else {
        var currentDelta := features[v.featureId].delta;
        if v.delta < currentDelta {
          features := features[v.featureId := v];
        }
      }
    }
  }

  /** Runs the identify visitor over the visits `visitFeaturesAtPoint` makes, in order. */
  method IdentifyVisits(visits: seq<Visit>) returns (features: map<int, Visit>)
    ensures features == Identified(visits)
    ensures features.Keys == VisitedIds(visits)
    ensures forall id | id in features :: features[id].featureId == id
    ensures forall id, j | id in features && 0 <= j < |visits| && visits[j].featureId == id ::
      features[id].delta <= visits[j].delta
  {
    var collector := new IdentifyCollector();
    for i := 0 to |visits|
      invariant collector.features == Identified(visits[..i])
    {
      collector.Visit(visits[i]);
      assert visits[..i + 1][..i] == visits[..i];
    }
    assert visits[..|visits|] == visits;
    features := collector.features;
    IdentifiedKeys(visits);
    forall id, j | id in features && 0 <= j < |visits| && visits[j].featureId == id
      ensures features[id].delta <= visits[j].delta
    {
      IdentifiedIsClosest(visits, j);
    }
    forall id | id in features
      ensures features[id].featureId == id
    {
      IdentifiedIsFirstClosest(visits, id);
    }
  }

  /** The state of the snap visitor: `bestSnapDistance` and the snapped point, if any. */
  datatype SnapState = SnapState(best: real, snapped: Option<ProfilePoint>)

  /** The snap visitor as written: it compares the point's distance, then stores its delta. */
  function SnapStepAsWritten(state: SnapState, v: Visit): SnapState {
    if v.distance < state.best then SnapState(v.delta, Some(ProfilePoint(v.distance, v.elevation))) else state
  }

  function SnappedAsWritten(visits: seq<Visit>): SnapState {
    if visits == [] then SnapState(DoubleMax, None)
    else SnapStepAsWritten(SnappedAsWritten(visits[..|visits| - 1]), visits[|visits| - 1])
  }

  /**
   * As written, a farther point can win: a first visit with delta 5 leaves `bestSnapDistance` at 5,
   * and a second visit with delta 1 at distance 7 is then rejected because 7 is not below 5.
   */
  lemma SnapAsWrittenMissesClosest()
    ensures var visits := [Visit(1, 5.0, 10.0, 0.0), Visit(1, 1.0, 7.0, 0.0)];
      SnappedAsWritten(visits).snapped == Some(ProfilePoint(10.0, 0.0))
      && visits[1].delta < visits[0].delta
  {
    var visits := [Visit(1, 5.0, 10.0, 0.0), Visit(1, 1.0, 7.0, 0.0)];
    assert visits[..1][..0] == [];
    assert visits[..1] == [visits[0]];
  }

  /** The snap visitor as intended: the delta is both compared and stored. */
  function SnapStep(state: SnapState, v: Visit): SnapState {
    if v.delta < state.best then SnapState(v.delta, Some(ProfilePoint(v.distance, v.elevation))) else state
  }

  function Snapped(visits: seq<Visit>): SnapState {
    if visits == [] then SnapState(DoubleMax, None) else SnapStep(Snapped(visits[..|visits| - 1]), visits[|visits| - 1])
  }

  /**
   * Visit `k` is the one the intended snap keeps: the state holds its delta and point, no visit
   * has a smaller delta and every earlier visit a larger one.
   */
  predicate SnapsTo(visits: seq<Visit>, k: int) {
    0 <= k < |visits|
    && Snapped(visits) == SnapState(visits[k].delta, Some(ProfilePoint(visits[k].distance, visits[k].elevation)))
    && (forall j | 0 <= j < |visits| :: visits[k].delta <= visits[j].delta)
    && (forall j | 0 <= j < k :: visits[j].delta > visits[k].delta)
  }

  /** The intended snap result is the point of a visit with the smallest delta (the first such). */
  lemma {:induction false} SnappedIsClosest(visits: seq<Visit>)
    requires forall j | 0 <= j < |visits| :: visits[j].delta < DoubleMax
    ensures Snapped(visits).snapped.Some? <==> visits != []
    ensures visits != [] ==> exists k :: SnapsTo(visits, k)
  {
    if visits != [] {
      var prefix := visits[..|visits| - 1];
      var n := |visits| - 1;
      assert forall j | 0 <= j < |prefix| :: prefix[j] == visits[j];
      SnappedIsClosest(prefix);
      if prefix == [] {
        assert SnapsTo(visits, 0);
      } else {
        var k :| SnapsTo(prefix, k);
        if visits[n].delta < visits[k].delta {
          assert SnapsTo(visits, n);
        } else {
          assert SnapsTo(visits, k);
        }
      }
    }
  }

  // ---------------------------------------------------------------------------------------------
  // The point branch of visitFeaturesAtPoint

  /** The geometry kinds of a result feature's cross section (distance, elevation) geometry. */
  datatype Geometry = PointGeometry(parts: seq<Point>) | LineGeometry(vertices: seq<Point>) | OtherGeometry

  /** A `QgsVectorLayerProfileResults::Feature`. */
  datatype ResultFeature = ResultFeature(featureId: int, geometry: Geometry, crossSectionGeometry: Geometry)

  /** A point part passes both tolerance tests of `visitFeaturesAtPoint`. */
  predicate WithinTolerance(part: Point, target: ProfilePoint, maxDistanceDelta: real, maxElevationDelta: real) {
    Abs(target.distance - part.x) <= maxDistanceDelta && Abs(target.elevation - part.y) <= maxElevationDelta
  }

  /**
   * The visit made for a point part; `hypot(dx, dy)` is the Euclidean length `QgsPoint::distance`
   * computes, a floating-point square root outside the model.
   */
  function PartVisit(id: int, part: Point, target: ProfilePoint, hypot: (real, real) -> real): Visit {
    Visit(id, hypot(part.x - target.distance, part.y - target.elevation), part.x, part.y)
  }

  /** The visits of the parts of one point geometry, in part order. */
  function PartVisits(id: int, parts: seq<Point>, target: ProfilePoint, maxDistanceDelta: real,
                      maxElevationDelta: real, hypot: (real, real) -> real): seq<Visit>
  {
    if parts == [] then []
    else
      PartVisits(id, parts[..|parts| - 1], target, maxDistanceDelta, maxElevationDelta, hypot)
      + (if WithinTolerance(parts[|parts| - 1], target, maxDistanceDelta, maxElevationDelta)
         then [PartVisit(id, parts[|parts| - 1], target, hypot)] else [])
  }

  function MinX(parts: seq<Point>): real
    requires parts != []
  {
    if |parts| == 1 then parts[0].x else Min(MinX(parts[..|parts| - 1]), parts[|parts| - 1].x)
  }

  function MaxX(parts: seq<Point>): real
    requires parts != []
  {
    if |parts| == 1 then parts[0].x else Max(MaxX(parts[..|parts| - 1]), parts[|parts| - 1].x)
  }

  /**
   * The bounding-box pre-test on the cross section's x range. An empty geometry has no parts to
   * visit, so the test is taken to pass there.
   */
  predicate BoxAdmits(parts: seq<Point>, target: ProfilePoint, maxDistanceDelta: real) {
    parts == [] || (MinX(parts) - maxDistanceDelta <= target.distance && MaxX(parts) + maxDistanceDelta >= target.distance)
  }

  /** The visits `visitFeaturesAtPoint` makes for one feature; only point geometries are modelled. */
  function FeatureVisits(f: ResultFeature, target: ProfilePoint, maxDistanceDelta: real,
                         maxElevationDelta: real, hypot: (real, real) -> real): seq<Visit>
  {
    match f.crossSectionGeometry
    case PointGeometry(parts) =>
      if BoxAdmits(parts, target, maxDistanceDelta)
      then PartVisits(f.featureId, parts, target, maxDistanceDelta, maxElevationDelta, hypot) else []
    case _ => []
  }

  /** The visits for a run of features, in order. */
  function VisitsAtPoint(features: seq<ResultFeature>, target: ProfilePoint, maxDistanceDelta: real,
                         maxElevationDelta: real, hypot: (real, real) -> real): seq<Visit>
  {
    if features == [] then []
    else
      VisitsAtPoint(features[..|features| - 1], target, maxDistanceDelta, maxElevationDelta, hypot)
      + FeatureVisits(features[|features| - 1], target, maxDistanceDelta, maxElevationDelta, hypot)
  }

  /** A point part is visited exactly when it passes both tolerance tests. */
  lemma {:induction false} PartVisitsExactly(id: int, parts: seq<Point>, target: ProfilePoint, maxDistanceDelta: real,
                                             maxElevationDelta: real, hypot: (real, real) -> real, v: Visit)
    ensures v in PartVisits(id, parts, target, maxDistanceDelta, maxElevationDelta, hypot)
      <==> exists k | 0 <= k < |parts| ::
             WithinTolerance(parts[k], target, maxDistanceDelta, maxElevationDelta) && v == PartVisit(id, parts[k], target, hypot)
  {
    if parts != [] {
      var prefix := parts[..|parts| - 1];
      PartVisitsExactly(id, prefix, target, maxDistanceDelta, maxElevationDelta, hypot, v);
      assert forall k | 0 <= k < |prefix| :: prefix[k] == parts[k];
    }
  }

  /** Every part lies inside the x range of its geometry. */
  lemma {:induction false} XRangeHoldsParts(parts: seq<Point>, k: int)
    requires 0 <= k < |parts|
    ensures MinX(parts) <= parts[k].x <= MaxX(parts)
  {
    if |parts| > 1 && k < |parts| - 1 {
      XRangeHoldsParts(parts[..|parts| - 1], k);
    }
  }

  /**
   * The bounding-box pre-test never drops a point geometry that has a part within tolerance, so
   * for points the visits are exactly the parts that pass the tolerance tests.
   */
  lemma BoxTestIsRedundantForPoints(parts: seq<Point>, target: ProfilePoint, maxDistanceDelta: real,
                                    maxElevationDelta: real, k: int)
    requires 0 <= k < |parts| && WithinTolerance(parts[k], target, maxDistanceDelta, maxElevationDelta)
    ensures BoxAdmits(parts, target, maxDistanceDelta)
  {
    XRangeHoldsParts(parts, k);
  }

  /** The point branch of `visitFeaturesAtPoint`: the visitor calls it makes, in order. */
  method VisitFeaturesAtPoint(features: seq<ResultFeature>, target: ProfilePoint, maxDistanceDelta: real,
                              maxElevationDelta: real, hypot: (real, real) -> real) returns (visits: seq<Visit>)
    ensures visits == VisitsAtPoint(features, target, maxDistanceDelta, maxElevationDelta, hypot)
  {
    visits := [];
    for i := 0 to |features|
      invariant visits == VisitsAtPoint(features[..i], target, maxDistanceDelta, maxElevationDelta, hypot)
    {
      var feature := features[i];
      assert features[..i + 1][..i] == features[..i];
      if feature.crossSectionGeometry.PointGeometry? {
        var parts := feature.crossSectionGeometry.parts;
        if BoxAdmits(parts, target, maxDistanceDelta) {
          var before := visits;
          for p := 0 to |parts|
            invariant visits == before + PartVisits(feature.featureId, parts[..p], target, maxDistanceDelta, maxElevationDelta, hypot)
          {
            assert parts[..p + 1][..p] == parts[..p];
            var candidate := parts[p];
            if Abs(target.distance - candidate.x) > maxDistanceDelta {
              continue;
            }
            if Abs(target.elevation - candidate.y) > maxElevationDelta {
              continue;
            }
            visits := visits + [PartVisit(feature.featureId, candidate, target, hypot)];
          }
          assert parts[..|parts|] == parts;
        }
      }
    }
    assert features[..|features|] == features;
  }

  // ---------------------------------------------------------------------------------------------
  // processPoint

  /** The part of `QgsVectorLayerProfileResults` that `processPoint` fills. */
  class VectorLayerProfileResults {
    var rawPoints: seq<Point>
    var minZ: real
    var maxZ: real
    var distanceToHeight: map<real, real>
    var features: map<int, seq<ResultFeature>>

    /** Every raw point has a height, and it lies between `minZ` and `maxZ`. */
    ghost predicate Valid()
      reads this
    {
      forall k | 0 <= k < |rawPoints| :: rawPoints[k].z.Some? && minZ <= rawPoints[k].z.value <= maxZ
    }

    constructor ()
      ensures Valid() && rawPoints == [] && distanceToHeight == map[] && features == map[]
      ensures minZ == DoubleMax && maxZ == -DoubleMax
    {
      rawPoints := [];
      minZ := DoubleMax;
      maxZ := -DoubleMax;
      distanceToHeight := map[];
      features := map[];
    }

    /**
     * The `processPoint` lambda for one point of feature `featureId`. `inBuffer` is the GEOS test
     * against the buffered profile curve, `distance` the GEOS `lineLocatePoint` of the point, and
     * `offset` and `extrusion` the data-defined values (by default the layer's own).
     */
    method ProcessPoint(s: Settings, featureId: int, point: Point, inBuffer: bool, offset: real,
                        distance: real, extrusion: real)
      requires Valid()
      modifies this
      ensures Valid()
      ensures !inBuffer ==>
        rawPoints == old(rawPoints) && minZ == old(minZ) && maxZ == old(maxZ)
        && distanceToHeight == old(distanceToHeight) && features == old(features)
      ensures inBuffer ==>
        var h := FeatureZToHeight(s, point.x, point.y, point.z, offset);
        var top := if s.extrusionEnabled then h + extrusion else h;
        rawPoints == old(rawPoints) + [Point(point.x, point.y, Some(h))]
        && minZ == Min(Min(old(minZ), h), top) && maxZ == Max(Max(old(maxZ), h), top)
        && minZ <= h <= maxZ && minZ <= top <= maxZ
        && distanceToHeight == old(distanceToHeight)[distance := h]
        && features.Keys == old(features).Keys + {featureId}
        && features == old(features)[featureId :=
             (if featureId in old(features) then old(features)[featureId] else [])
             + [if s.extrusionEnabled then
                  ResultFeature(featureId,
                    LineGeometry([Point(point.x, point.y, Some(h)), Point(point.x, point.y, Some(top))]),
                    LineGeometry([Point(distance, h, None), Point(distance, top, None)]))
                else
                  ResultFeature(featureId, PointGeometry([Point(point.x, point.y, Some(h))]),
                    PointGeometry([Point(distance, h, None)]))]]
    {
      if !inBuffer {
        return;
      }
      var height := FeatureZToHeight(s, point.x, point.y, point.z, offset);
      rawPoints := rawPoints + [Point(point.x, point.y, Some(height))];
      minZ := Min(minZ, height);
      maxZ := Max(maxZ, height);
      distanceToHeight := distanceToHeight[distance := height];
      var resultFeature;
      if s.extrusionEnabled {
        resultFeature := ResultFeature(featureId,
          LineGeometry([Point(point.x, point.y, Some(height)), Point(point.x, point.y, Some(height + extrusion))]),
          LineGeometry([Point(distance, height, None), Point(distance, height + extrusion, None)]));
        minZ := Min(minZ, height + extrusion);
        maxZ := Max(maxZ, height + extrusion);
      } else {
        resultFeature := ResultFeature(featureId,
          PointGeometry([Point(point.x, point.y, Some(height))]),
          PointGeometry([Point(distance, height, None)]));
      }
      var existing := if featureId in features then features[featureId] else [];
      features := features[featureId := existing + [resultFeature]];
    }
  }
}
