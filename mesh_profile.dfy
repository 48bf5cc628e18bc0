/**
 * The results of the mesh-layer elevation profile (`QgsMeshLayerProfileResults`) and the
 * bookkeeping of `QgsMeshLayerProfileGenerator::generateProfile`. A height interpolated outside the
 * mesh is NaN, modelled as `None`.
 */
module MeshProfile {
  import opened Wrappers

  /** A `QgsPoint` of the sampled profile: x, y and the interpolated height. */
  datatype Point = Point(x: real, y: real, z: Option<real>)

  /** `QgsMeshLayerProfileResults::Result`: a distance along the profile curve and a height. */
  datatype Result = Result(distance: real, height: Option<real>)

  /** `QgsGeometry( point.clone() )`. */
  datatype Geometry = PointGeometry(point: Point)

  /** The map `distanceToHeightMap` builds: `QMap::insert` in order, so a later result overwrites. */
  function HeightMap(results: seq<Result>): map<real, Option<real>> {
    if results == [] then map[]
    else HeightMap(results[..|results| - 1])[results[|results| - 1].distance := results[|results| - 1].height]
  }

  function Distances(results: seq<Result>): set<real> {
    set k | 0 <= k < |results| :: results[k].distance
  }

  /** The keys are exactly the distinct result distances. */
  lemma {:induction false} HeightMapKeys(results: seq<Result>)
    ensures HeightMap(results).Keys == Distances(results)
  {
    if results != [] {
      var prefix := results[..|results| - 1];
      HeightMapKeys(prefix);
      assert forall k | 0 <= k < |prefix| :: prefix[k] == results[k];
      assert Distances(results) == Distances(prefix) + {results[|results| - 1].distance};
    }
  }

  /** Each distance maps to the height of the last result at that distance. */
  lemma {:induction false} HeightMapLastWins(results: seq<Result>, k: int)
    requires 0 <= k < |results|
    requires forall j | k < j < |results| :: results[j].distance != results[k].distance
    ensures results[k].distance in HeightMap(results)
    ensures HeightMap(results)[results[k].distance] == results[k].height
  {
    if k < |results| - 1 {
      var prefix := results[..|results| - 1];
      assert prefix[k] == results[k];
      HeightMapLastWins(prefix, k);
    }
  }

  /**
   * One vertex of the densified profile curve: the mesh height interpolated at it, and its x, y
   * after the transformation to the target CRS (`None` where the transformation threw).
   */
  datatype Sample = Sample(height: Option<real>, transformed: Option<(real, real)>)

  /** The raw points `generateProfile` keeps: the samples whose transformation succeeded. */
  function RawPoints(samples: seq<Sample>): seq<Point> {
    if samples == [] then []
    else
      var last := samples[|samples| - 1];
      RawPoints(samples[..|samples| - 1])
      + if last.transformed.Some? then [Point(last.transformed.value.0, last.transformed.value.1, last.height)] else []
  }

  /** Every raw point comes from a transformed sample, in order, so there are at most as many. */
  lemma {:induction false} RawPointsCount(samples: seq<Sample>)
    ensures |RawPoints(samples)| <= |samples|
    ensures (forall k | 0 <= k < |samples| :: samples[k].transformed.Some?) ==> |RawPoints(samples)| == |samples|
  {
    if samples != [] {
      var prefix := samples[..|samples| - 1];
      RawPointsCount(prefix);
      assert forall k | 0 <= k < |prefix| :: prefix[k] == samples[k];
    }
  }

  /** The results for the raw points; `locate` is the GEOS `lineLocatePoint` on the profile curve. */
  function Located(points: seq<Point>, locate: Point -> real): (rs: seq<Result>)
    ensures |rs| == |points|
  {
    seq(|points|, i requires 0 <= i < |points| => Result(locate(points[i]), points[i].z))
  }

  class QgsMeshLayerProfileResults {
    var rawPoints: seq<Point>
    var results: seq<Result>

    constructor ()
      ensures rawPoints == [] && results == []
    {
      rawPoints := [];
      results := [];
    }

    /** `type()`. */
    method Type() returns (t: string)
      ensures t == "mesh"
    {
      t := "mesh";
    }

    /** `distanceToHeightMap()`: inserts every result into a fresh map, in order. */
    method DistanceToHeightMap() returns (res: map<real, Option<real>>)
      ensures res == HeightMap(results)
      ensures res.Keys == Distances(results)
    {
      res := map[];
      for i := 0 to |results|
        invariant res == HeightMap(results[..i])
      {
        assert results[..i + 1][..i] == results[..i];
        res := res[results[i].distance := results[i].height];
      }
      assert results[..|results|] == results;
      HeightMapKeys(results);
    }

    /** `sampledPoints()`: the raw points as they are. */
    method SampledPoints() returns (points: seq<Point>)
      ensures points == rawPoints
    {
      points := rawPoints;
    }

    /** `asGeometries()`: appends one point geometry per raw point. */
    method AsGeometries() returns (res: seq<Geometry>)
      ensures |res| == |rawPoints|
      ensures forall i | 0 <= i < |rawPoints| :: res[i] == PointGeometry(rawPoints[i])
    {
      res := [];
      for i := 0 to |rawPoints|
        invariant |res| == i
        invariant forall k | 0 <= k < i :: res[k] == PointGeometry(rawPoints[k])
      {
        res := res + [PointGeometry(rawPoints[i])];
      }
    }
  }

  class QgsMeshLayerProfileGenerator {
    /** Whether the request carried a profile curve (`mProfileCurve` non-null). */
    const hasProfileCurve: bool
    var results: Option<QgsMeshLayerProfileResults>

    constructor (hasProfileCurve: bool)
      ensures this.hasProfileCurve == hasProfileCurve && results == None
    {
      this.hasProfileCurve := hasProfileCurve;
      results := None;
    }

    /**
     * `generateProfile()`: false without a profile curve or when the curve cannot be transformed
     * into the mesh CRS; otherwise fresh results holding the transformed samples as raw points and
     * one (distance, height) result per raw point. The densification of the curve, the mesh
     * interpolation and the CRS transformations are inputs: `curveTransformed`, `samples` and
     * `locate`.
     */
    method GenerateProfile(curveTransformed: bool, samples: seq<Sample>, locate: Point -> real) returns (ok: bool)
      modifies this
      ensures !ok ==> results == old(results)
      ensures ok <==> hasProfileCurve && curveTransformed
      ensures ok ==>
        results.Some? && fresh(results.value)
        && results.value.rawPoints == RawPoints(samples)
        && results.value.results == Located(RawPoints(samples), locate)
    {
      if !hasProfileCurve {
        return false;
      }
      if !curveTransformed {
        return false;
      }
      var res := new QgsMeshLayerProfileResults();
      results := Some(res);
      for i := 0 to |samples|
        invariant res.rawPoints == RawPoints(samples[..i]) && res.results == []
        invariant results == Some(res)
      {
        assert samples[..i + 1][..i] == samples[..i];
        var sample := samples[i];
        if sample.transformed.None? {
          continue;
        }
        res.rawPoints := res.rawPoints + [Point(sample.transformed.value.0, sample.transformed.value.1, sample.height)];
      }
      assert samples[..|samples|] == samples;
      var raw := res.rawPoints;
      for i := 0 to |raw|
        invariant res.rawPoints == raw == RawPoints(samples) && results == Some(res)
        invariant res.results == Located(raw[..i], locate)
      {
        res.results := res.results + [Result(locate(raw[i]), raw[i].z)];
      }
      assert raw[..|raw|] == raw;
      ok := true;
    }
  }
}
