/**
 * The tree of a 3D Tiles tileset as `3dtiles.cpp` builds it: tiles parsed from their JSON objects,
 * tilesets that own a root tile, children built lazily, combined transforms composed from the
 * root and cached, the root-tileset walk behind the option getters, `findTile`, and the content
 * a tile loads.
 *
 * The C++ objects point at each other (a tile at its tileset and parent tile, a tileset at its
 * root tile and at the tile that holds it). Here every `Tile` and `Tileset` object is an entry of
 * one growing sequence `nodes`, and a pointer is an index into it. Entries are only ever appended
 * or updated in place, so an index stays valid; a parent always sits at a smaller index than its
 * children, which is also what makes every walk terminate.
 */
module Tiles3D {
  import opened Wrappers
  import opened Vectors
  import opened Matrices
  import opened MatrixLemmas
  import opened TilesGeometry
  import opened BoundingBoxSettings

  // ---------------------------------------------------------------------------------------------
  // The JSON of a tile

  /**
   * A tile's JSON object, restricted to the keys the constructor reads. An absent key is `None`;
   * `boundingVolume` maps "box", "region" and "sphere" to their number arrays.
   */
  datatype TileJson = TileJson(
    boundingVolume: map<string, seq<real>>,
    geometricError: Option<real>,
    transform: Option<seq<real>>,
    refine: Option<string>,
    content: Option<map<string, string>>,
    children: Option<seq<TileJson>>)

  /** A tileset's JSON document: its geometric error and its root tile. */
  datatype TilesetJson = TilesetJson(geometricError: Option<real>, root: TileJson)

  /** `Refinement`: how a tile's content combines with its children's. */
  datatype Refinement = Replace | Add

  function LowerAscii(c: char): char {
    if 'A' <= c <= 'Z' then (c as int + 32) as char else c
  }

  /** `QString::compare(a, b, Qt::CaseInsensitive) == 0`, for ASCII letters. */
  predicate EqualsIgnoreCase(a: string, b: string) {
    |a| == |b| && forall i | 0 <= i < |a| :: LowerAscii(a[i]) == LowerAscii(b[i])
  }

  /**
   * The refinement the constructor stores, as written: `compare` returns 0 on a match, and a
   * non-zero result selects ADD, so "add" gives REPLACE and every other string gives ADD.
   */
  function RefineAsWritten(refine: Option<string>): (r: Refinement)
    ensures refine.None? ==> r == Replace
    ensures refine.Some? ==> r != Refine(refine)
  {
    if refine.None? then Replace
    else if !EqualsIgnoreCase(refine.value, "add") then Add
    else Replace
  }

  /** The refinement the 3D Tiles standard gives the "refine" value: ADD exactly for "add". */
  function Refine(refine: Option<string>): (r: Refinement)
    ensures refine.None? ==> r == Replace
    ensures refine.Some? ==> (r == Add <==> EqualsIgnoreCase(refine.value, "add"))
  {
    if refine.Some? && EqualsIgnoreCase(refine.value, "add") then Add else Replace
  }

  /** As written, every present "refine" value is read the wrong way round. */
  lemma RefineAsWrittenIsInverted(s: string)
    ensures RefineAsWritten(Some(s)) != Refine(Some(s))
    ensures RefineAsWritten(Some("add")) == Replace && RefineAsWritten(Some("REPLACE")) == Add
    ensures RefineAsWritten(None) == Refine(None) == Replace
  {
    assert !EqualsIgnoreCase("REPLACE", "add");
  }

  /** Case does not matter, and a missing key keeps REPLACE. */
  lemma RefineIgnoresCase()
    ensures Refine(Some("add")) == Refine(Some("ADD")) == Refine(Some("Add")) == Add
    ensures Refine(Some("replace")) == Refine(Some("REPLACE")) == Refine(None) == Replace
  {
    assert EqualsIgnoreCase("ADD", "add") && EqualsIgnoreCase("Add", "add");
    assert !EqualsIgnoreCase("replace", "add") && !EqualsIgnoreCase("REPLACE", "add");
  }

  predicate EndsWith(s: string, suffix: string) {
    |suffix| <= |s| && s[|s| - |suffix|..] == suffix
  }

  /** The bounding volume: "box" wins over "region", which wins over "sphere"; none is an error. */
  function ParseBoundingVolume(bv: map<string, seq<real>>): (r: Result<BoundingVolume>)
    ensures r.Failure? <==> "box" !in bv && "region" !in bv && "sphere" !in bv
    ensures "box" in bv ==> r == Success(BoxFromJson(bv["box"]))
    ensures "box" !in bv && "region" in bv ==> r == Success(RegionFromJson(bv["region"]))
    ensures "box" !in bv && "region" !in bv && "sphere" in bv ==> r == Success(SphereFromJson(bv["sphere"]))
  {
    if "box" in bv then Success(BoxFromJson(bv["box"]))
    else if "region" in bv then Success(RegionFromJson(bv["region"]))
    else if "sphere" in bv then Success(SphereFromJson(bv["sphere"]))
    else Failure("Invalid boundingVolume.")
  }

  /** `setContentFrom`: "uri" wins over "url"; a content object with neither is an error. */
  function ContentUrl(content: Option<map<string, string>>): (r: Result<string>)
    ensures content.None? ==> r == Success("")
    ensures content.Some? ==> (r.Failure? <==> "uri" !in content.value && "url" !in content.value)
    ensures content.Some? && "uri" in content.value ==> r == Success(content.value["uri"])
    ensures content.Some? && "uri" !in content.value && "url" in content.value ==> r == Success(content.value["url"])
  {
    if content.None? then Success("")
    else if "uri" in content.value then Success(content.value["uri"])
    else if "url" in content.value then Success(content.value["url"])
    else Failure("No 'url' or 'uri' found in json.")
  }

  // ---------------------------------------------------------------------------------------------
  // The nodes

  /** What `mContent` holds: nothing yet, a nested tileset (by index), or a b3dm model. */
  datatype Content = NoContent | TilesetContent(tileset: nat) | B3dmContent

  /** A `Tile` or a `Tileset` object. */
  datatype Node =
    | Tile(parentTileset: nat, parentTile: Option<nat>, bv: BoundingVolume, refine: Refinement,
           transform: Mat, contentUrl: string, childrenJson: seq<TileJson>, lazyLoadChildren: bool,
           children: seq<nat>, geometricError: Option<real>, depth: int, combined: Option<Mat>,
           content: Content)
    | Tileset(parentTile: Option<nat>, depth: int, tilesetGeometricError: real, rootTile: Option<nat>,
              name: string, flipY: bool, correctTranslation: bool, useFakeMaterial: bool,
              useOriginalGeomError: bool, rootBb: Option<AABB>)

  /** A tile transform as the constructor leaves it: the identity, or read from JSON (General). */
  predicate TransformTagged(m: Mat) {
    m == IdentityMatrix() || m.flags == General
  }

  /**
   * `Tile(obj, depth, parentTileset, parentTile)`: the bounding volume and content URL can fail;
   * children are kept as JSON unless the content is a tileset, and are built on demand.
   */
  function ParseTile(json: TileJson, depth: int, parentTileset: nat, parentTile: Option<nat>): (r: Result<Node>)
    ensures r.Failure? <==> ParseBoundingVolume(json.boundingVolume).Failure? || ContentUrl(json.content).Failure?
    ensures r.Success? ==> (
      r.value.Tile? && r.value.parentTileset == parentTileset
      && r.value.parentTile == parentTile && r.value.depth == depth
      && r.value.bv == ParseBoundingVolume(json.boundingVolume).value
      && r.value.contentUrl == ContentUrl(json.content).value
      && r.value.refine == Refine(json.refine) && r.value.geometricError == json.geometricError
      && r.value.lazyLoadChildren && r.value.children == [] && r.value.combined.None?
      && r.value.content == NoContent && TransformTagged(r.value.transform))
    ensures r.Success? ==>
      (json.transform.None? ==> r.value.transform == IdentityMatrix()) &&
      (json.transform.Some? ==> r.value.transform == Mat(TransformFromJson(json.transform.value), General))
    ensures r.Success? ==>
      (if !EndsWith(r.value.contentUrl, ".json") && json.children.Some?
       then r.value.childrenJson == json.children.value else r.value.childrenJson == [])
  {
    var bv := ParseBoundingVolume(json.boundingVolume);
    var url := ContentUrl(json.content);
    if bv.Failure? then Failure(bv.error)
    else if url.Failure? then Failure(url.error)
    else
      var transform := if json.transform.None? then IdentityMatrix()
                       else Mat(TransformFromJson(json.transform.value), General);
      var childrenJson := if !EndsWith(url.value, ".json") && json.children.Some? then json.children.value else [];
      Success(Tile(parentTileset, parentTile, bv.value, Refine(json.refine), transform, url.value,
                   childrenJson, true, [], json.geometricError, depth, None, NoContent))
  }

  /**
   * `Tileset(obj, url, parentTile, depth)` placed at index `base`: the tileset with its default
   * options, followed by its root tile; when the root tile throws, the tileset keeps a null root.
   */
  function NewTileset(json: TilesetJson, parentTile: Option<nat>, depth: int, base: nat): (r: seq<Node>)
    ensures |r| == 1 || |r| == 2
    ensures r[0].Tileset? && r[0].parentTile == parentTile && r[0].depth == depth
    ensures r[0].tilesetGeometricError == json.geometricError.GetOr(0.0)
    ensures r[0].name == "no_name" && !r[0].flipY && !r[0].correctTranslation
    ensures !r[0].useFakeMaterial && !r[0].useOriginalGeomError && r[0].rootBb.None?
    ensures |r| == 2 <==> ParseTile(json.root, depth, base, None).Success?
    ensures |r| == 2 ==> r[0].rootTile == Some(base + 1) && r[1] == ParseTile(json.root, depth, base, None).value
    ensures |r| == 1 ==> r[0].rootTile.None?
  {
    var root := ParseTile(json.root, depth, base, None);
    var ts := Tileset(parentTile, depth, json.geometricError.GetOr(0.0), None, "no_name", false, false, false, false, None);
    if root.Success? then [ts.(rootTile := Some(base + 1)), root.value] else [ts]
  }

  predicate IsTile(nodes: seq<Node>, i: int) {
    0 <= i < |nodes| && nodes[i].Tile?
  }

  predicate IsTileset(nodes: seq<Node>, i: int) {
    0 <= i < |nodes| && nodes[i].Tileset?
  }

  /** Every pointer of node `i` points at a node of the right kind, parents below, owned nodes above. */
  predicate NodeLinked(nodes: seq<Node>, i: int)
    requires 0 <= i < |nodes|
  {
    var n := nodes[i];
    (n.parentTile.Some? ==> n.parentTile.value < i && IsTile(nodes, n.parentTile.value)) &&
    if n.Tile? then
      n.parentTileset < i && IsTileset(nodes, n.parentTileset)
      && (forall k | 0 <= k < |n.children| :: i < n.children[k] && IsTile(nodes, n.children[k]))
      && (n.content.TilesetContent? ==> i < n.content.tileset && IsTileset(nodes, n.content.tileset))
    else
      n.rootTile.Some? ==> i < n.rootTile.value && IsTile(nodes, n.rootTile.value)
  }

  predicate Linked(nodes: seq<Node>) {
    forall i | 0 <= i < |nodes| :: NodeLinked(nodes, i)
  }

  /** The tileset a tile belongs to (`mParentTileset`). */
  function TilesetOf(nodes: seq<Node>, i: nat): (ts: nat)
    requires Linked(nodes) && IsTile(nodes, i)
    ensures IsTileset(nodes, ts) && ts < i && ts == nodes[i].parentTileset
  {
    assert NodeLinked(nodes, i);
    nodes[i].parentTileset
  }

  /** The parent tile of a tile that has one (`mParentTile`). */
  function ParentTileOf(nodes: seq<Node>, i: nat): (p: nat)
    requires Linked(nodes) && IsTile(nodes, i) && nodes[i].parentTile.Some?
    ensures IsTile(nodes, p) && p < i && nodes[i].parentTile == Some(p)
  {
    assert NodeLinked(nodes, i);
    nodes[i].parentTile.value
  }

  // ---------------------------------------------------------------------------------------------
  // Combined transforms

  /** `getCombinedTransformRec(Tile *)`: the parent's combined transform times the tile's own. */
  function CombinedTransform(nodes: seq<Node>, i: nat): Mat
    requires Linked(nodes) && IsTile(nodes, i)
    decreases i
  {
    assert NodeLinked(nodes, i);
    var t := nodes[i];
    if t.parentTile.Some? then Mul(CombinedTransform(nodes, t.parentTile.value), t.transform)
    else Mul(TilesetTransform(nodes, t.parentTileset), t.transform)
  }

  /** `getCombinedTransformRec(Tileset *)`: the holding tile's combined transform, or the identity. */
  function TilesetTransform(nodes: seq<Node>, ts: nat): Mat
    requires Linked(nodes) && IsTileset(nodes, ts)
    decreases ts
  {
    assert NodeLinked(nodes, ts);
    if nodes[ts].parentTile.Some? then CombinedTransform(nodes, nodes[ts].parentTile.value) else IdentityMatrix()
  }

  predicate TransformsTagged(nodes: seq<Node>) {
    forall i | 0 <= i < |nodes| && nodes[i].Tile? :: TransformTagged(nodes[i].transform)
  }

  /** Every cached combined transform is the one the recursion computes. */
  predicate CachesAgree(nodes: seq<Node>)
    requires Linked(nodes)
  {
    forall i | 0 <= i < |nodes| && nodes[i].Tile? && nodes[i].combined.Some? ::
      nodes[i].combined.value == CombinedTransform(nodes, i)
  }

  predicate Valid(nodes: seq<Node>) {
    Linked(nodes) && TransformsTagged(nodes) && CachesAgree(nodes)
  }

  /** Combined and tileset transforms are the identity or general matrices. */
  lemma {:induction false} CombinedTagged(nodes: seq<Node>, i: nat)
    requires Linked(nodes) && TransformsTagged(nodes) && IsTile(nodes, i)
    ensures TransformTagged(CombinedTransform(nodes, i))
    decreases i, 1
  {
    assert NodeLinked(nodes, i);
    var t := nodes[i];
    var parent := if t.parentTile.Some? then CombinedTransform(nodes, t.parentTile.value)
                  else TilesetTransform(nodes, t.parentTileset);
    if t.parentTile.Some? {
      CombinedTagged(nodes, t.parentTile.value);
    } else {
      TilesetTagged(nodes, t.parentTileset);
    }
    MulTagged(parent, t.transform);
  }

  lemma {:induction false} TilesetTagged(nodes: seq<Node>, ts: nat)
    requires Linked(nodes) && TransformsTagged(nodes) && IsTileset(nodes, ts)
    ensures TransformTagged(TilesetTransform(nodes, ts))
    decreases ts, 0
  {
    assert NodeLinked(nodes, ts);
    if nodes[ts].parentTile.Some? {
      CombinedTagged(nodes, nodes[ts].parentTile.value);
    }
  }

  /** The product of two tagged matrices is tagged: general if either is, else the identity. */
  lemma MulTagged(a: Mat, b: Mat)
    requires TransformTagged(a) && TransformTagged(b)
    ensures TransformTagged(Mul(a, b))
    ensures a == IdentityMatrix() ==> Mul(a, b) == b
  {
    if a == IdentityMatrix() && b == IdentityMatrix() {
      assert FastProduct(a, b) == IdentityEntries;
    } else if a == IdentityMatrix() {
      IdentityMulGeneral(b);
    }
  }

  lemma TaggedDescribes(m: Mat)
    requires TransformTagged(m)
    ensures Describes(m)
  {
  }

  /**
   * A child's combined transform maps a point as the tile's own transform followed by the
   * parent's combined transform: transforms compose from the root down.
   */
  lemma CombinedTransformComposes(nodes: seq<Node>, i: nat, p: Vec4)
    requires Valid(nodes) && IsTile(nodes, i) && nodes[i].parentTile.Some?
    ensures Times4(CombinedTransform(nodes, i), p)
         == Times4(CombinedTransform(nodes, ParentTileOf(nodes, i)), Times4(nodes[i].transform, p))
  {
    assert NodeLinked(nodes, i);
    var parent := CombinedTransform(nodes, nodes[i].parentTile.value);
    CombinedTagged(nodes, nodes[i].parentTile.value);
    TaggedDescribes(parent);
    TaggedDescribes(nodes[i].transform);
    MulIsProduct(parent, nodes[i].transform);
    Times4Composes(parent, nodes[i].transform, p);
  }

  /** The root tile of a top-level tileset has its own transform as combined transform. */
  lemma RootTileCombinedTransform(nodes: seq<Node>, i: nat)
    requires Valid(nodes) && IsTile(nodes, i) && nodes[i].parentTile.None?
    requires nodes[TilesetOf(nodes, i)].parentTile.None?
    ensures CombinedTransform(nodes, i) == nodes[i].transform
  {
    assert NodeLinked(nodes, i);
    MulTagged(IdentityMatrix(), nodes[i].transform);
  }

  // ---------------------------------------------------------------------------------------------
  // What an update leaves alone

  /** The fields every walk reads: the kind, the parent pointers and the tile transform. */
  function Skeleton(n: Node): (bool, int, Option<nat>, Mat) {
    if n.Tile? then (true, n.parentTileset, n.parentTile, n.transform) else (false, 0, n.parentTile, IdentityMatrix())
  }

  /** `b` extends `a` without touching what a walk reads. */
  predicate Agree(a: seq<Node>, b: seq<Node>) {
    |a| <= |b| && forall i | 0 <= i < |a| :: Skeleton(a[i]) == Skeleton(b[i])
  }

  lemma {:induction false} CombinedAgree(a: seq<Node>, b: seq<Node>, i: nat)
    requires Linked(a) && Linked(b) && Agree(a, b) && IsTile(a, i)
    ensures IsTile(b, i) && CombinedTransform(a, i) == CombinedTransform(b, i)
    decreases i, 1
  {
    assert Skeleton(a[i]) == Skeleton(b[i]);
    assert NodeLinked(a, i);
    if a[i].parentTile.Some? {
      CombinedAgree(a, b, a[i].parentTile.value);
    } else {
      TilesetAgree(a, b, a[i].parentTileset);
    }
  }

  lemma {:induction false} TilesetAgree(a: seq<Node>, b: seq<Node>, ts: nat)
    requires Linked(a) && Linked(b) && Agree(a, b) && IsTileset(a, ts)
    ensures IsTileset(b, ts) && TilesetTransform(a, ts) == TilesetTransform(b, ts)
    decreases ts, 0
  {
    assert Skeleton(a[ts]) == Skeleton(b[ts]);
    assert NodeLinked(a, ts);
    if a[ts].parentTile.Some? {
      CombinedAgree(a, b, a[ts].parentTile.value);
    }
  }

  lemma {:induction false} RootTilesetAgree(a: seq<Node>, b: seq<Node>, ts: nat)
    requires Linked(a) && Linked(b) && Agree(a, b) && IsTileset(a, ts)
    ensures IsTileset(b, ts) && RootTileset(a, ts) == RootTileset(b, ts)
    decreases ts
  {
    assert Skeleton(a[ts]) == Skeleton(b[ts]);
    assert NodeLinked(a, ts);
    if a[ts].parentTile.Some? {
      var p := a[ts].parentTile.value;
      assert NodeLinked(a, p);
      assert Skeleton(a[p]) == Skeleton(b[p]);
      RootTilesetAgree(a, b, a[p].parentTileset);
    }
  }

  /** Caches stay valid in a store that agrees with a valid one on everything a walk reads. */
  lemma CachesAgreeCarry(a: seq<Node>, b: seq<Node>)
    requires Valid(a) && Linked(b) && Agree(a, b) && TransformsTagged(b)
    requires forall i | |a| <= i < |b| && b[i].Tile? :: b[i].combined.None?
    requires forall i | 0 <= i < |a| && b[i].Tile? :: b[i].combined == a[i].combined
                                                     || b[i].combined == Some(CombinedTransform(a, i))
    ensures Valid(b)
  {
    forall i | 0 <= i < |b| && b[i].Tile? && b[i].combined.Some?
      ensures b[i].combined.value == CombinedTransform(b, i)
    {
      assert Skeleton(a[i]) == Skeleton(b[i]);
      CombinedAgree(a, b, i);
    }
  }

  // ---------------------------------------------------------------------------------------------
  // The root tileset and its options

  /** `getRootTileset`: up through the holding tile's tileset until a tileset has no parent tile. */
  function RootTileset(nodes: seq<Node>, ts: nat): (r: nat)
    requires Linked(nodes) && IsTileset(nodes, ts)
    ensures IsTileset(nodes, r) && nodes[r].parentTile.None? && r <= ts
    ensures nodes[ts].parentTile.None? ==> r == ts
    decreases ts
  {
    assert NodeLinked(nodes, ts);
    if nodes[ts].parentTile.Some? then
      var p := nodes[ts].parentTile.value;
      assert NodeLinked(nodes, p);
      RootTileset(nodes, nodes[p].parentTileset)
    else ts
  }

  /** The getters read the root tileset's field, whatever tileset they are asked. */
  function Name(nodes: seq<Node>, ts: nat): string
    requires Linked(nodes) && IsTileset(nodes, ts)
  {
    nodes[RootTileset(nodes, ts)].name
  }

  function FlipY(nodes: seq<Node>, ts: nat): bool
    requires Linked(nodes) && IsTileset(nodes, ts)
  {
    nodes[RootTileset(nodes, ts)].flipY
  }

  function CorrectTranslation(nodes: seq<Node>, ts: nat): bool
    requires Linked(nodes) && IsTileset(nodes, ts)
  {
    nodes[RootTileset(nodes, ts)].correctTranslation
  }

  function UseFakeMaterial(nodes: seq<Node>, ts: nat): bool
    requires Linked(nodes) && IsTileset(nodes, ts)
  {
    nodes[RootTileset(nodes, ts)].useFakeMaterial
  }

  function UseOriginalGeomError(nodes: seq<Node>, ts: nat): bool
    requires Linked(nodes) && IsTileset(nodes, ts)
  {
    nodes[RootTileset(nodes, ts)].useOriginalGeomError
  }

  /**
   * A setter replaces one tileset's fields. Every getter then reads the new node exactly when the
   * changed tileset is the root of the one asked, and a tileset held by a tile is never a root, so
   * setting an option on it has no effect on any getter.
   */
  lemma SetterSeenThroughRoot(nodes: seq<Node>, ts: nat, updated: Node, asked: nat)
    requires Linked(nodes) && IsTileset(nodes, ts) && IsTileset(nodes, asked)
    requires updated.Tileset? && updated.parentTile == nodes[ts].parentTile && updated.rootTile == nodes[ts].rootTile
    ensures Linked(nodes[ts := updated])
    ensures RootTileset(nodes[ts := updated], asked) == RootTileset(nodes, asked)
    ensures nodes[ts := updated][RootTileset(nodes, asked)]
         == if RootTileset(nodes, asked) == ts then updated else nodes[RootTileset(nodes, asked)]
    ensures nodes[ts].parentTile.Some? ==> RootTileset(nodes, asked) != ts
  {
    var b := nodes[ts := updated];
    forall i | 0 <= i < |b| ensures NodeLinked(b, i) {
      assert NodeLinked(nodes, i);
    }
    RootTilesetAgree(nodes, b, asked);
  }

  // ---------------------------------------------------------------------------------------------
  // Geometric error

  /**
   * `getGeometricError`: the error divided by the square of the depth, unless the original error
   * is asked for or the depth is not positive.
   */
  function ScaledGeometricError(error: real, depth: int, useOriginal: bool): (r: real)
    ensures useOriginal || depth <= 0 ==> r == error
    ensures !useOriginal && depth > 0 ==> r * (depth * depth) as real == error
    ensures 0.0 <= error ==> 0.0 <= r <= error
  {
    if !useOriginal && depth > 0 then error / (depth * depth) as real else error
  }

  /** `Tile::getGeometricError`; `None` when the JSON had no "geometricError" (left uninitialised). */
  function TileGeometricError(nodes: seq<Node>, i: nat): (r: Option<real>)
    requires Linked(nodes) && IsTile(nodes, i)
    ensures r.Some? <==> nodes[i].geometricError.Some?
  {
    assert NodeLinked(nodes, i);
    var t := nodes[i];
    if t.geometricError.None? then None
    else Some(ScaledGeometricError(t.geometricError.value, t.depth, UseOriginalGeomError(nodes, t.parentTileset)))
  }

  /** `Tileset::getGeometricError`. */
  function TilesetGeometricError(nodes: seq<Node>, ts: nat): real
    requires Linked(nodes) && IsTileset(nodes, ts)
  {
    ScaledGeometricError(nodes[ts].tilesetGeometricError, nodes[ts].depth, UseOriginalGeomError(nodes, ts))
  }

  /** Deeper tiles of one tileset get smaller errors when their JSON gives the same error. */
  lemma GeometricErrorShrinksWithDepth(error: real, d1: int, d2: int)
    requires 0.0 <= error && 0 < d1 <= d2
    ensures ScaledGeometricError(error, d2, false) <= ScaledGeometricError(error, d1, false)
  {
    var r1, r2 := ScaledGeometricError(error, d1, false), ScaledGeometricError(error, d2, false);
    var s1, s2 := d1 * d1, d2 * d2;
    SquaresGrow(d1, d2);
    SmallerQuotient(error, s1 as real, s2 as real, r1, r2);
  }

  lemma SquaresGrow(d1: int, d2: int)
    requires 0 < d1 <= d2
    ensures 0 < d1 * d1 <= d2 * d2
  {
    assert d1 * d1 <= d1 * d2;
  }

  /** Of two non-negative quotients of one value, the one with the larger divisor is smaller. */
  lemma SmallerQuotient(e: real, s1: real, s2: real, r1: real, r2: real)
    requires 0.0 < s1 <= s2 && 0.0 <= r2 && r1 * s1 == e && r2 * s2 == e
    ensures r2 <= r1
  {
    assert r2 * s1 <= r2 * s2 by {
      assert r2 * (s2 - s1) >= 0.0;
    }
    assert (r1 - r2) * s1 >= 0.0;
  }

  // ---------------------------------------------------------------------------------------------
  // Bounding boxes and the search

  /** `getBoundingVolumeAsAABB(NULL)`: the volume's box under the combined transform. */
  function TileAabb(nodes: seq<Node>, flipZY: Mat, i: nat): (b: AABB)
    requires Linked(nodes) && IsTile(nodes, i)
    ensures b.xMin <= b.xMax && b.yMin <= b.yMax && b.zMin <= b.zMax
  {
    assert NodeLinked(nodes, i);
    var r := AsAabb(nodes[i].bv, CombinedTransform(nodes, i), None, FlipY(nodes, nodes[i].parentTileset), flipZY);
    assert r.Success?;
    r.value
  }

  /** `Tile::contains`. */
  predicate Contains(nodes: seq<Node>, flipZY: Mat, i: nat, point: Vec3)
    requires Linked(nodes) && IsTile(nodes, i)
  {
    InBox(point, TileAabb(nodes, flipZY, i))
  }

  /** `mRootBb` once `buildRootBb` has run: the cached box, or the root tile's box. */
  function RootBb(nodes: seq<Node>, flipZY: Mat, ts: nat): AABB
    requires Linked(nodes) && IsTileset(nodes, ts) && nodes[ts].rootTile.Some?
  {
    assert NodeLinked(nodes, ts);
    if nodes[ts].rootBb.Some? then nodes[ts].rootBb.value else TileAabb(nodes, flipZY, nodes[ts].rootTile.value)
  }

  /** Children still held as JSON, which `children()` would build before answering. */
  predicate NeedsChildren(n: Node)
    requires n.Tile?
  {
    !EndsWith(n.contentUrl, ".json") && n.lazyLoadChildren
  }

  predicate ChildrenPending(n: Node)
    requires n.Tile?
  {
    NeedsChildren(n) && |n.childrenJson| > 0
  }

  /**
   * What `findTile` answers over the store as it stands: null for a negative level, the root tile
   * for level 0, otherwise the search from the point the id decodes to. A search that reaches a
   * tile whose children or content are not loaded yet, or a null root, is a failure here; the
   * store's `FindTile` builds and loads them first and ends in agreement with this function.
   */
  function FoundTile(nodes: seq<Node>, flipZY: Mat, ts: nat, id: ChunkNodeId): (r: Result<Option<nat>>)
    requires Linked(nodes) && IsTileset(nodes, ts)
    ensures id.d < 0 ==> r == Success(None)
    ensures id.d == 0 ==> r == Success(nodes[ts].rootTile)
    ensures r.Success? && r.value.Some? ==> IsTile(nodes, r.value.value)
  {
    assert NodeLinked(nodes, ts);
    if id.d < 0 then Success(None)
    else if id.d == 0 then Success(nodes[ts].rootTile)
    else if nodes[ts].rootTile.None? then Failure("null root tile")
    else FoundInTileset(nodes, flipZY, ts, id.d, DecodeTileId(id, RootBb(nodes, flipZY, ts)))
  }

  /** The failure of a search that gives up after `fuel` descents, which the source never does. */
  const OutOfFuel := "search deeper than the fuel allows"

  /** `findTileRecInTileset`. */
  function FoundInTileset(nodes: seq<Node>, flipZY: Mat, ts: nat, depth: int, center: Vec3): (r: Result<Option<nat>>)
    requires Linked(nodes) && IsTileset(nodes, ts)
    ensures r.Success? && r.value.Some? ==> IsTile(nodes, r.value.value) && ts < r.value.value
    ensures depth == nodes[ts].depth ==> r == Success(nodes[ts].rootTile)
    decreases |nodes| - ts, 0
  {
    assert NodeLinked(nodes, ts);
    if depth == nodes[ts].depth then Success(nodes[ts].rootTile)
    else if nodes[ts].rootTile.None? then Failure("null root tile")
    else
      var root := nodes[ts].rootTile.value;
      if Contains(nodes, flipZY, root, center) then FoundInTile(nodes, flipZY, root, depth, center)
      else Success(None)
  }

  /** `findTileRecInTile`. */
  function FoundInTile(nodes: seq<Node>, flipZY: Mat, t: nat, depth: int, center: Vec3): (r: Result<Option<nat>>)
    requires Linked(nodes) && IsTile(nodes, t)
    ensures r.Success? && r.value.Some? ==> IsTile(nodes, r.value.value) && t <= r.value.value
    ensures depth == nodes[t].depth ==> r == Success(Some(t))
    ensures (depth != nodes[t].depth && !ChildrenPending(nodes[t]) && nodes[t].children == []
             && nodes[t].content == B3dmContent) ==> r == Success(Some(t))
    decreases |nodes| - t, |nodes[t].children| + 1
  {
    assert NodeLinked(nodes, t);
    var n := nodes[t];
    if depth == n.depth then Success(Some(t))
    else if ChildrenPending(n) then Failure("children not built")
    else if n.children == [] then
      match n.content
      case NoContent => Failure("content not loaded")
      case TilesetContent(c) => FoundInTileset(nodes, flipZY, c, depth + 1, center)
      case B3dmContent => Success(Some(t))
    else FirstContaining(nodes, flipZY, t, 0, depth, center)
  }

  /** The scan of `findTileRecInTile` over the children, from child `k` on: the first one that contains the point. */
  function FirstContaining(nodes: seq<Node>, flipZY: Mat, t: nat, k: nat, depth: int, center: Vec3): (r: Result<Option<nat>>)
    requires Linked(nodes) && IsTile(nodes, t) && k <= |nodes[t].children|
    ensures r.Success? && r.value.Some? ==> IsTile(nodes, r.value.value) && t < r.value.value
    ensures k == |nodes[t].children| ==> r == Success(None)
    decreases |nodes| - t, |nodes[t].children| - k
  {
    assert NodeLinked(nodes, t);
    var kids := nodes[t].children;
    if k == |kids| then Success(None)
    else if Contains(nodes, flipZY, kids[k], center) then FoundInTile(nodes, flipZY, kids[k], depth, center)
    else FirstContaining(nodes, flipZY, t, k + 1, depth, center)
  }

  /** The scan stops at the first child that contains the point; the ones before it are skipped. */
  lemma {:induction false} FirstContainingPicksFirst(nodes: seq<Node>, flipZY: Mat, t: nat, k: nat, depth: int, center: Vec3, j: nat)
    requires Linked(nodes) && IsTile(nodes, t) && k <= j < |nodes[t].children|
    requires NodeLinked(nodes, t)
    requires Contains(nodes, flipZY, nodes[t].children[j], center)
    requires forall m | k <= m < j :: !Contains(nodes, flipZY, nodes[t].children[m], center)
    ensures FirstContaining(nodes, flipZY, t, k, depth, center)
         == FoundInTile(nodes, flipZY, nodes[t].children[j], depth, center)
    decreases j - k
  {
    if k < j {
      FirstContainingPicksFirst(nodes, flipZY, t, k + 1, depth, center, j);
    }
  }

  /** When no child contains the point, the search finds nothing. */
  lemma {:induction false} FirstContainingNone(nodes: seq<Node>, flipZY: Mat, t: nat, k: nat, depth: int, center: Vec3)
    requires Linked(nodes) && IsTile(nodes, t) && k <= |nodes[t].children|
    requires NodeLinked(nodes, t)
    requires forall m | k <= m < |nodes[t].children| :: !Contains(nodes, flipZY, nodes[t].children[m], center)
    ensures FirstContaining(nodes, flipZY, t, k, depth, center) == Success(None)
    decreases |nodes[t].children| - k
  {
    if k < |nodes[t].children| {
      FirstContainingNone(nodes, flipZY, t, k + 1, depth, center);
    }
  }

  // ---------------------------------------------------------------------------------------------
  // Lazily built children

  /** The children `children()` builds: parsed one after another until the first one that throws. */
  function ParsedPrefix(jsons: seq<TileJson>, depth: int, ts: nat, parent: nat): (p: seq<Node>)
    ensures |p| <= |jsons|
    ensures forall j | 0 <= j < |p| :: ParseTile(jsons[j], depth, ts, Some(parent)) == Success(p[j])
    ensures |p| < |jsons| ==> ParseTile(jsons[|p|], depth, ts, Some(parent)).Failure?
  {
    if jsons == [] then []
    else
      var first := ParseTile(jsons[0], depth, ts, Some(parent));
      if first.Failure? then [] else [first.value] + ParsedPrefix(jsons[1..], depth, ts, parent)
  }

  /** The prefix is determined by where the first failure is. */
  lemma ParsedPrefixIs(jsons: seq<TileJson>, depth: int, ts: nat, parent: nat, i: nat, built: seq<Node>)
    requires i <= |jsons| && |built| == i
    requires forall j | 0 <= j < i :: ParseTile(jsons[j], depth, ts, Some(parent)) == Success(built[j])
    requires i < |jsons| ==> ParseTile(jsons[i], depth, ts, Some(parent)).Failure?
    ensures ParsedPrefix(jsons, depth, ts, parent) == built
  {
    var p := ParsedPrefix(jsons, depth, ts, parent);
    assert |p| == i;
  }

  /** The children `children()` builds for tile `t` of the store. */
  function ChildrenPrefix(nodes: seq<Node>, t: nat): seq<Node>
    requires IsTile(nodes, t)
  {
    ParsedPrefix(nodes[t].childrenJson, nodes[t].depth + 1, nodes[t].parentTileset, t)
  }

  /** `ParsedPrefixIs` for the children of tile `t`, read from its snapshot `tile`. */
  lemma ChildrenPrefixIs(nodes: seq<Node>, t: nat, tile: Node, i: nat, built: seq<Node>)
    requires IsTile(nodes, t) && nodes[t] == tile
    requires i <= |tile.childrenJson| && |built| == i
    requires forall j | 0 <= j < i :: ParseTile(tile.childrenJson[j], tile.depth + 1, tile.parentTileset, Some(t)) == Success(built[j])
    requires i < |tile.childrenJson| ==> ParseTile(tile.childrenJson[i], tile.depth + 1, tile.parentTileset, Some(t)).Failure?
    ensures ChildrenPrefix(nodes, t) == built
  {
    ParsedPrefixIs(tile.childrenJson, tile.depth + 1, tile.parentTileset, t, i, built);
  }

  /** `mChildren.append( child )` for a new node placed at the end of the store. */
  function AppendChild(nodes: seq<Node>, t: nat, child: Node): (r: seq<Node>)
    requires IsTile(nodes, t)
  {
    nodes[t := nodes[t].(children := nodes[t].children + [|nodes|])] + [child]
  }

  /** The nodes appended one by one, each becoming the next child of `t`. */
  function AppendChildren(nodes: seq<Node>, t: nat, added: seq<Node>): (r: seq<Node>)
    requires IsTile(nodes, t)
    ensures |r| == |nodes| + |added| && IsTile(r, t)
    ensures r[|nodes|..] == added
    ensures forall i | 0 <= i < |nodes| && i != t :: r[i] == nodes[i]
    ensures r[t] == nodes[t].(children := nodes[t].children + seq(|added|, j => |nodes| + j))
    decreases |added|
  {
    if added == [] then nodes
    else
      var r := AppendChildren(AppendChild(nodes, t, added[0]), t, added[1..]);
      assert r[|nodes| + 1..] == added[1..];
      assert r[|nodes|] == added[0];
      assert r[t].children == nodes[t].children + [|nodes|] + seq(|added| - 1, j => |nodes| + 1 + j);
      r
  }

  lemma AppendChildrenSnoc(nodes: seq<Node>, t: nat, added: seq<Node>, child: Node)
    requires IsTile(nodes, t)
    ensures AppendChildren(nodes, t, added + [child]) == AppendChild(AppendChildren(nodes, t, added), t, child)
  {
    var a := AppendChildren(nodes, t, added + [child]);
    var b := AppendChild(AppendChildren(nodes, t, added), t, child);
    assert |a| == |b|;
    assert a[|nodes|..] == added + [child];
    forall i | 0 <= i < |a| ensures a[i] == b[i] {
      if i >= |nodes| {
        assert a[i] == a[|nodes|..][i - |nodes|];
        if i < |nodes| + |added| {
          assert AppendChildren(nodes, t, added)[|nodes|..][i - |nodes|] == added[i - |nodes|];
        }
      } else if i == t {
        var before := nodes[t].children;
        IndicesSnoc(|nodes|, |added|);
        assert a[t].children == before + seq(|added| + 1, j => |nodes| + j);
        assert b[t].children == (before + seq(|added|, j => |nodes| + j)) + [|nodes| + |added|];
      }
    }
  }

  /** The indices of the appended nodes, one more at a time. */
  lemma IndicesSnoc(base: nat, n: nat)
    ensures seq(n + 1, j => base + j) == seq(n, j => base + j) + [base + n]
  {
    var longer, shorter := seq(n + 1, j => base + j), seq(n, j => base + j);
    assert forall k | 0 <= k < n + 1 :: longer[k] == (shorter + [base + n])[k];
  }

  /** A tile just parsed as a child of `t` may join a valid store. */
  predicate FreshChildOf(nodes: seq<Node>, t: nat, child: Node)
    requires IsTile(nodes, t)
  {
    child.Tile? && child.parentTileset == nodes[t].parentTileset && child.parentTile == Some(t)
    && TransformTagged(child.transform) && child.children == [] && child.content == NoContent
    && child.combined.None?
  }

  lemma AppendChildKeepsValid(nodes: seq<Node>, t: nat, child: Node)
    requires Valid(nodes) && IsTile(nodes, t) && FreshChildOf(nodes, t, child)
    ensures Valid(AppendChild(nodes, t, child)) && Agree(nodes, AppendChild(nodes, t, child))
  {
    var b := AppendChild(nodes, t, child);
    assert NodeLinked(nodes, t);
    forall i | 0 <= i < |b| ensures NodeLinked(b, i) {
      if i < |nodes| {
        assert NodeLinked(nodes, i);
      }
    }
    CachesAgreeCarry(nodes, b);
  }

  /** One step of the loop of `children()`: the store grows by one child and stays valid. */
  lemma ChildrenStep(start: seq<Node>, t: nat, added: seq<Node>, child: Node)
    requires IsTile(start, t) && Valid(AppendChildren(start, t, added)) && Agree(start, AppendChildren(start, t, added))
    requires FreshChildOf(start, t, child)
    ensures AppendChild(AppendChildren(start, t, added), t, child) == AppendChildren(start, t, added + [child])
    ensures Valid(AppendChildren(start, t, added + [child])) && Agree(start, AppendChildren(start, t, added + [child]))
  {
    var nodes := AppendChildren(start, t, added);
    AppendChildKeepsValid(nodes, t, child);
    AppendChildrenSnoc(start, t, added, child);
    AgreeTrans(start, nodes, AppendChild(nodes, t, child));
  }

  /** One iteration of the loop of `children()`, where the child at index `i` parses. */
  lemma ParseChildStep(start: seq<Node>, t: nat, tile: Node, added: seq<Node>, child: Node)
    requires IsTile(start, t) && start[t] == tile && |added| < |tile.childrenJson|
    requires forall j | 0 <= j < |added| :: ParseTile(tile.childrenJson[j], tile.depth + 1, tile.parentTileset, Some(t)) == Success(added[j])
    requires ParseTile(tile.childrenJson[|added|], tile.depth + 1, tile.parentTileset, Some(t)) == Success(child)
    requires Valid(AppendChildren(start, t, added)) && Agree(start, AppendChildren(start, t, added))
    ensures forall j | 0 <= j < |added| + 1 ::
      ParseTile(tile.childrenJson[j], tile.depth + 1, tile.parentTileset, Some(t)) == Success((added + [child])[j])
    ensures AppendChild(AppendChildren(start, t, added), t, child) == AppendChildren(start, t, added + [child])
    ensures Valid(AppendChildren(start, t, added + [child])) && Agree(start, AppendChildren(start, t, added + [child]))
  {
    ChildrenStep(start, t, added, child);
  }

  // ---------------------------------------------------------------------------------------------
  // Content

  /** The result of the download `getContent` starts (the network is not part of this model). */
  datatype Fetched = FetchedTileset(json: TilesetJson) | FetchedB3dm | FetchFailed

  /**
   * The tile the nested tileset of a `.json` content is parented to, as written: the code passes
   * the tile's own parent tile rather than the tile.
   */
  function ContentParentAsWritten(nodes: seq<Node>, t: nat): (r: Option<nat>)
    requires Linked(nodes) && IsTile(nodes, t)
    ensures r.Some? ==> IsTile(nodes, r.value) && r.value < t
  {
    assert NodeLinked(nodes, t);
    nodes[t].parentTile
  }

  /** The tile the nested tileset should hang from: the tile whose content it is, never the one the code passes. */
  function ContentParent(nodes: seq<Node>, t: nat): (r: Option<nat>)
    requires Linked(nodes) && IsTile(nodes, t)
    ensures r.Some? && IsTile(nodes, r.value)
    ensures r != ContentParentAsWritten(nodes, t)
  {
    Some(t)
  }

  /**
   * As written, an external tileset held by a top-level root tile is itself a root: its tiles see
   * none of the holding tile's transform and none of the options set on the top tileset.
   */
  lemma ContentParentAsWrittenDetaches(nodes: seq<Node>, t: nat, nested: nat)
    requires Valid(nodes) && IsTile(nodes, t) && nodes[t].parentTile.None?
    requires nodes[TilesetOf(nodes, t)].parentTile.None?
    requires IsTileset(nodes, nested) && nodes[nested].parentTile == ContentParentAsWritten(nodes, t)
    ensures TilesetTransform(nodes, nested) == IdentityMatrix()
    ensures CombinedTransform(nodes, t) == nodes[t].transform
    ensures RootTileset(nodes, nested) == nested
  {
    RootTileCombinedTransform(nodes, t);
  }

  /**
   * With the tile as parent, the nested tileset continues the holding tile's transform and
   * shares the top tileset's options.
   */
  lemma ContentParentInherits(nodes: seq<Node>, t: nat, nested: nat)
    requires Valid(nodes) && IsTile(nodes, t)
    requires IsTileset(nodes, nested) && nodes[nested].parentTile == ContentParent(nodes, t)
    ensures TilesetTransform(nodes, nested) == CombinedTransform(nodes, t)
    ensures RootTileset(nodes, nested) == RootTileset(nodes, TilesetOf(nodes, t))
  {
    assert NodeLinked(nodes, nested);
    assert NodeLinked(nodes, t);
  }

  /** A tileset appended at the end of a valid store, held by `parent` if any, keeps it valid. */
  lemma NewTilesetKeepsValid(nodes: seq<Node>, json: TilesetJson, parent: Option<nat>, depth: int)
    requires Valid(nodes) && (parent.Some? ==> IsTile(nodes, parent.value))
    ensures Valid(nodes + NewTileset(json, parent, depth, |nodes|))
    ensures Extends(nodes, nodes + NewTileset(json, parent, depth, |nodes|))
  {
    var b := nodes + NewTileset(json, parent, depth, |nodes|);
    forall i | 0 <= i < |b| ensures NodeLinked(b, i) {
      if i < |nodes| {
        assert NodeLinked(nodes, i);
      }
    }
    CachesAgreeCarry(nodes, b);
  }

  /** Setting the content of a tile to a nested tileset placed after it keeps the store valid. */
  lemma SetContentKeepsValid(nodes: seq<Node>, t: nat, content: Content)
    requires Valid(nodes) && IsTile(nodes, t) && nodes[t].content == NoContent
    requires content.TilesetContent? ==> t < content.tileset && IsTileset(nodes, content.tileset)
    ensures Valid(nodes[t := nodes[t].(content := content)])
    ensures Extends(nodes, nodes[t := nodes[t].(content := content)])
  {
    var b := nodes[t := nodes[t].(content := content)];
    forall i | 0 <= i < |b| ensures NodeLinked(b, i) {
      assert NodeLinked(nodes, i);
    }
    CachesAgreeCarry(nodes, b);
  }

  // ---------------------------------------------------------------------------------------------
  // What the lazy steps of a search keep

  /**
   * `y` is `x` after building children, loading content or caching boxes: what a search reads
   * stays, children once built and content once loaded are kept, and so is a cached root box.
   */
  predicate NodeExtends(x: Node, y: Node) {
    x.Tile? == y.Tile? &&
    if x.Tile? then
      y.bv == x.bv && y.depth == x.depth && y.contentUrl == x.contentUrl
      && (!ChildrenPending(x) ==> !ChildrenPending(y) && y.children == x.children)
      && (x.content != NoContent ==> y.content == x.content)
    else
      y.depth == x.depth && y.rootTile == x.rootTile && y.flipY == x.flipY
      && (x.rootBb.Some? ==> y.rootBb == x.rootBb)
  }

  predicate Extends(a: seq<Node>, b: seq<Node>) {
    Agree(a, b) && forall i | 0 <= i < |a| :: NodeExtends(a[i], b[i])
  }

  lemma ExtendsTrans(a: seq<Node>, b: seq<Node>, c: seq<Node>)
    requires Extends(a, b) && Extends(b, c)
    ensures Extends(a, c)
  {
    forall i | 0 <= i < |a| ensures NodeExtends(a[i], c[i]) {
      assert NodeExtends(a[i], b[i]) && NodeExtends(b[i], c[i]);
    }
  }

  /** Building the children of `t` (all of them, or a prefix before a throw) extends the store. */
  lemma ChildrenExtend(start: seq<Node>, t: nat, nodes: seq<Node>)
    requires IsTile(start, t) && NeedsChildren(start[t])
    requires var built := AppendChildren(start, t, ChildrenPrefix(start, t));
      nodes == built || nodes == built[t := built[t].(lazyLoadChildren := false)]
    requires Agree(start, nodes)
    ensures Extends(start, nodes)
  {
    var p := ChildrenPrefix(start, t);
    forall i | 0 <= i < |start| ensures NodeExtends(start[i], nodes[i]) {
      if i == t && !ChildrenPending(start[t]) {
        assert p == [];
        assert seq(0, j => |start| + j) == [];
      }
    }
  }

  /** A tile's box, and so its containment test, is the same in a store that extends the first. */
  lemma TileAabbExtends(a: seq<Node>, b: seq<Node>, flipZY: Mat, i: nat)
    requires Linked(a) && Linked(b) && Extends(a, b) && IsTile(a, i)
    ensures IsTile(b, i) && TileAabb(a, flipZY, i) == TileAabb(b, flipZY, i)
    ensures forall p :: Contains(a, flipZY, i, p) == Contains(b, flipZY, i, p)
  {
    assert NodeExtends(a[i], b[i]);
    CombinedAgree(a, b, i);
    var ts := TilesetOf(a, i);
    RootTilesetAgree(a, b, ts);
    var r := RootTileset(a, ts);
    assert NodeExtends(a[r], b[r]);
  }

  /** The search at a childless tile whose content is loaded, over any store that extends the one it was loaded in. */
  lemma ContentAgrees(a: seq<Node>, b: seq<Node>, flipZY: Mat, t: nat, depth: int, center: Vec3)
    requires Linked(a) && Linked(b) && Extends(a, b) && IsTile(a, t) && depth != a[t].depth
    requires !ChildrenPending(a[t]) && a[t].children == [] && a[t].content != NoContent
    ensures IsTile(b, t)
    ensures a[t].content == B3dmContent ==> FoundInTile(b, flipZY, t, depth, center) == Success(Some(t))
    ensures a[t].content.TilesetContent? ==>
      IsTileset(b, a[t].content.tileset)
      && FoundInTile(b, flipZY, t, depth, center) == FoundInTileset(b, flipZY, a[t].content.tileset, depth + 1, center)
  {
    assert NodeExtends(a[t], b[t]);
    assert NodeLinked(b, t);
  }

  /** The search fails at a childless tile whose content is not loaded: the source dereferences null there. */
  lemma ContentMissingFails(nodes: seq<Node>, flipZY: Mat, t: nat, depth: int, center: Vec3)
    requires Linked(nodes) && IsTile(nodes, t) && depth != nodes[t].depth
    requires !ChildrenPending(nodes[t]) && nodes[t].children == [] && nodes[t].content == NoContent
    ensures FoundInTile(nodes, flipZY, t, depth, center).Failure?
  {
  }

  /** None of the first `k` children of tile `t` contains the point. */
  predicate NoneContains(a: seq<Node>, flipZY: Mat, t: nat, k: nat, center: Vec3)
    requires Linked(a) && IsTile(a, t) && k <= |a[t].children|
  {
    assert NodeLinked(a, t);
    forall m | 0 <= m < k :: !Contains(a, flipZY, a[t].children[m], center)
  }

  lemma NoneContainsStep(a: seq<Node>, flipZY: Mat, t: nat, k: nat, center: Vec3)
    requires Linked(a) && IsTile(a, t) && k < |a[t].children| && NoneContains(a, flipZY, t, k, center)
    requires NodeLinked(a, t) && !Contains(a, flipZY, a[t].children[k], center)
    ensures NoneContains(a, flipZY, t, k + 1, center)
  {
  }

  /**
   * The scan over the built children of a tile, over any store that extends the one where the
   * first `k` children were found not to contain the point: the search in child `k` when it
   * contains it, nothing when there is no child left.
   */
  lemma ScanAgrees(a: seq<Node>, b: seq<Node>, flipZY: Mat, t: nat, k: nat, depth: int, center: Vec3)
    requires Linked(a) && Linked(b) && Extends(a, b) && IsTile(a, t) && depth != a[t].depth
    requires !ChildrenPending(a[t]) && a[t].children != [] && k <= |a[t].children|
    requires NoneContains(a, flipZY, t, k, center)
    ensures IsTile(b, t)
    ensures k < |a[t].children| && IsTile(a, a[t].children[k]) && Contains(a, flipZY, a[t].children[k], center) ==>
      IsTile(b, a[t].children[k])
      && FoundInTile(b, flipZY, t, depth, center) == FoundInTile(b, flipZY, a[t].children[k], depth, center)
    ensures k == |a[t].children| ==> FoundInTile(b, flipZY, t, depth, center) == Success(None)
  {
    assert NodeExtends(a[t], b[t]);
    assert NodeLinked(a, t);
    assert NodeLinked(b, t);
    var kids := a[t].children;
    forall m | 0 <= m < |kids|
      ensures IsTile(b, kids[m]) && Contains(a, flipZY, kids[m], center) == Contains(b, flipZY, kids[m], center)
    {
      TileAabbExtends(a, b, flipZY, kids[m]);
    }
    if k < |kids| && Contains(a, flipZY, kids[k], center) {
      FirstContainingPicksFirst(b, flipZY, t, 0, depth, center, k);
    } else if k == |kids| {
      FirstContainingNone(b, flipZY, t, 0, depth, center);
    }
  }

  // ---------------------------------------------------------------------------------------------
  // Cache directories

  /** `getCacheDirectory(tsName, fileName)`: below the cache root, one directory per tileset and file. */
  function CacheDirectory(cacheRoot: string, tsName: string, fileName: string): (r: string)
    ensures |r| == |cacheRoot| + |tsName| + |fileName| + 2
    ensures r[..|cacheRoot|] == cacheRoot && r[|r| - 1] == '/'
  {
    cacheRoot + tsName + "/" + fileName + "/"
  }

  /** Names without a slash give distinct directories for distinct (tileset, file) pairs. */
  lemma CacheDirectoryInjective(cacheRoot: string, n1: string, f1: string, n2: string, f2: string)
    requires '/' !in n1 && '/' !in n2
    requires CacheDirectory(cacheRoot, n1, f1) == CacheDirectory(cacheRoot, n2, f2)
    ensures n1 == n2 && f1 == f2
  {
    var s1 := n1 + "/" + f1 + "/";
    var s2 := n2 + "/" + f2 + "/";
    assert CacheDirectory(cacheRoot, n1, f1) == cacheRoot + s1;
    assert CacheDirectory(cacheRoot, n2, f2) == cacheRoot + s2;
    assert s1 == (cacheRoot + s1)[|cacheRoot|..] == (cacheRoot + s2)[|cacheRoot|..] == s2;
    SlashAfter(s1, n1, f1 + "/");
    SlashAfter(s2, n2, f2 + "/");
    if |n1| < |n2| {
      assert false;
    } else if |n2| < |n1| {
      assert false;
    }
    assert n1 == s1[..|n1|] == s2[..|n2|] == n2;
    assert f1 + "/" == s1[|n1| + 1..] == s2[|n2| + 1..] == f2 + "/";
    assert f1 == (f1 + "/")[..|f1|];
  }

  lemma SlashAfter(s: string, name: string, rest: string)
    requires s == name + "/" + rest
    ensures |name| < |s| && s[|name|] == '/'
    ensures forall k | 0 <= k < |name| :: s[k] == name[k]
  {
  }

  // ---------------------------------------------------------------------------------------------
  // The objects

  /** All `Tile` and `Tileset` objects of one loaded tileset, the nested ones included. */
  class TileStore {
    var nodes: seq<Node>
    /** The global `flipZYMat` that `asQgsAABB` applies when the Y flip is on. */
    const flipZY: Mat
    /** The global `cacheDir3dTiles`. */
    const cacheRoot: string

    /** A top-level `Tileset(obj, url)`: depth 0 and no holding tile. */
    constructor (json: TilesetJson, flipZY: Mat, cacheRoot: string)
      ensures nodes == NewTileset(json, None, 0, 0) && Valid(nodes)
      ensures this.flipZY == flipZY && this.cacheRoot == cacheRoot
    {
      nodes := NewTileset(json, None, 0, 0);
      this.flipZY := flipZY;
      this.cacheRoot := cacheRoot;
      new;
      NewTilesetKeepsValid([], json, None, 0);
    }

    /** `Tile::children()`: builds the children from their JSON on the first call only. */
    method Children(t: nat) returns (r: Result<seq<nat>>)
      requires Valid(nodes) && IsTile(nodes, t)
      modifies this`nodes
      ensures Valid(nodes) && Extends(old(nodes), nodes) && IsTile(nodes, t)
      ensures !old(NeedsChildren(nodes[t])) ==> nodes == old(nodes) && r == Success(old(nodes[t].children))
      ensures old(NeedsChildren(nodes[t])) ==>
        var p := ChildrenPrefix(old(nodes), t);
        var built := AppendChildren(old(nodes), t, p);
        if |p| == |old(nodes[t].childrenJson)| then
          nodes == built[t := built[t].(lazyLoadChildren := false)] && r == Success(nodes[t].children)
        else
          nodes == built && r.Failure?
    {
      var tile := nodes[t];
      if !NeedsChildren(tile) {
        return Success(tile.children);
      }
      ghost var start := nodes;
      var failure := ParseChildren(t);
      if failure.Some? {
        ChildrenExtend(start, t, nodes);
        return Failure(failure.value);
      }
      ghost var built := nodes;
      var flagged := nodes[t].(lazyLoadChildren := false);
      FlagUpdateKeepsValid(built, t, flagged);
      nodes := nodes[t := flagged];
      ChildrenExtend(start, t, nodes);
      r := Success(flagged.children);
    }

    /**
     * The loop of `children()`: parses the children in order and appends each to the store, up to
     * the first one that throws, whose message is returned.
     */
    method ParseChildren(t: nat) returns (failure: Option<string>)
      requires Valid(nodes) && IsTile(nodes, t)
      modifies this`nodes
      ensures nodes == AppendChildren(old(nodes), t, ChildrenPrefix(old(nodes), t))
      ensures failure.None? <==> |ChildrenPrefix(old(nodes), t)| == |old(nodes[t].childrenJson)|
      ensures Valid(nodes) && Agree(old(nodes), nodes)
    {
      var tile := nodes[t];
      ghost var start := nodes;
      ghost var added: seq<Node> := [];
      var jsons := tile.childrenJson;
      var i := 0;
      while i < |jsons|
        invariant 0 <= i <= |jsons| && |added| == i
        invariant forall j | 0 <= j < i :: ParseTile(jsons[j], tile.depth + 1, tile.parentTileset, Some(t)) == Success(added[j])
        invariant nodes == AppendChildren(start, t, added)
        invariant Valid(nodes) && Agree(start, nodes)
      {
        var child := ParseTile(jsons[i], tile.depth + 1, tile.parentTileset, Some(t));
        if child.Failure? {
          ChildrenPrefixIs(start, t, tile, i, added);
          return Some(child.error);
        }
        ParseChildStep(start, t, tile, added, child.value);
        nodes := AppendChild(nodes, t, child.value);
        added := added + [child.value];
        i := i + 1;
      }
      ChildrenPrefixIs(start, t, tile, i, added);
      failure := None;
    }

    /** `getCombinedTransform`: computed on the first call, then read from the cache. */
    method GetCombinedTransform(t: nat) returns (m: Mat)
      requires Valid(nodes) && IsTile(nodes, t)
      modifies this`nodes
      ensures m == CombinedTransform(old(nodes), t)
      ensures nodes == old(nodes)[t := old(nodes)[t].(combined := Some(m))]
      ensures Valid(nodes) && Extends(old(nodes), nodes)
    {
      if nodes[t].combined.Some? {
        m := nodes[t].combined.value;
        assert nodes[t] == nodes[t].(combined := Some(m));
      } else {
        m := CombinedTransform(nodes, t);
        ghost var before := nodes;
        nodes := nodes[t := nodes[t].(combined := Some(m))];
        FlagUpdateKeepsValid(before, t, nodes[t]);
      }
    }

    /** `getRootTileset`: the parent walk as a loop. */
    method GetRootTileset(ts: nat) returns (root: nat)
      requires Linked(nodes) && IsTileset(nodes, ts)
      ensures root == RootTileset(nodes, ts)
    {
      root := ts;
      while nodes[root].parentTile.Some?
        invariant IsTileset(nodes, root) && RootTileset(nodes, root) == RootTileset(nodes, ts)
        decreases root
      {
        assert NodeLinked(nodes, root);
        var p := nodes[root].parentTile.value;
        assert NodeLinked(nodes, p);
        root := nodes[p].parentTileset;
      }
    }

    /** `setName`, `setFlipY`, `setCorrectTranslation`, `setUseFakeMaterial`, `setUseOriginalGeomError`. */
    method SetName(ts: nat, val: string)
      requires Valid(nodes) && IsTileset(nodes, ts)
      modifies this`nodes
      ensures nodes == old(nodes)[ts := old(nodes)[ts].(name := val)] && Valid(nodes)
    {
      ghost var before := nodes;
      nodes := nodes[ts := nodes[ts].(name := val)];
      FlagUpdateKeepsValid(before, ts, nodes[ts]);
    }

    method SetFlipY(ts: nat, val: bool)
      requires Valid(nodes) && IsTileset(nodes, ts)
      modifies this`nodes
      ensures nodes == old(nodes)[ts := old(nodes)[ts].(flipY := val)] && Valid(nodes)
    {
      ghost var before := nodes;
      nodes := nodes[ts := nodes[ts].(flipY := val)];
      FlagUpdateKeepsValid(before, ts, nodes[ts]);
    }

    method SetCorrectTranslation(ts: nat, val: bool)
      requires Valid(nodes) && IsTileset(nodes, ts)
      modifies this`nodes
      ensures nodes == old(nodes)[ts := old(nodes)[ts].(correctTranslation := val)] && Valid(nodes)
    {
      ghost var before := nodes;
      nodes := nodes[ts := nodes[ts].(correctTranslation := val)];
      FlagUpdateKeepsValid(before, ts, nodes[ts]);
    }

    method SetUseFakeMaterial(ts: nat, val: bool)
      requires Valid(nodes) && IsTileset(nodes, ts)
      modifies this`nodes
      ensures nodes == old(nodes)[ts := old(nodes)[ts].(useFakeMaterial := val)] && Valid(nodes)
    {
      ghost var before := nodes;
      nodes := nodes[ts := nodes[ts].(useFakeMaterial := val)];
      FlagUpdateKeepsValid(before, ts, nodes[ts]);
    }

    method SetUseOriginalGeomError(ts: nat, val: bool)
      requires Valid(nodes) && IsTileset(nodes, ts)
      modifies this`nodes
      ensures nodes == old(nodes)[ts := old(nodes)[ts].(useOriginalGeomError := val)] && Valid(nodes)
    {
      ghost var before := nodes;
      nodes := nodes[ts := nodes[ts].(useOriginalGeomError := val)];
      FlagUpdateKeepsValid(before, ts, nodes[ts]);
    }

    /** `buildRootBb`: the root tile's box, computed once (which also caches its transform). */
    method BuildRootBb(ts: nat)
      requires Valid(nodes) && IsTileset(nodes, ts) && nodes[ts].rootTile.Some?
      modifies this`nodes
      ensures Valid(nodes) && Extends(old(nodes), nodes) && IsTileset(nodes, ts)
      ensures nodes[ts].rootBb == Some(RootBb(old(nodes), flipZY, ts))
      ensures old(nodes[ts].rootBb.Some?) ==> nodes == old(nodes)
    {
      if nodes[ts].rootBb.Some? {
        return;
      }
      assert NodeLinked(nodes, ts);
      var root := nodes[ts].rootTile.value;
      ghost var start := nodes;
      var bb := BoundingVolumeAsAabb(root);
      ghost var cached := nodes;
      nodes := nodes[ts := nodes[ts].(rootBb := Some(bb))];
      FlagUpdateKeepsValid(cached, ts, nodes[ts]);
      ExtendsTrans(start, cached, nodes);
    }

    /** `getBoundingVolumeAsAABB(NULL)`: the tile's box, which computes (and caches) its combined transform. */
    method BoundingVolumeAsAabb(t: nat) returns (bb: AABB)
      requires Valid(nodes) && IsTile(nodes, t)
      modifies this`nodes
      ensures bb == TileAabb(old(nodes), flipZY, t)
      ensures nodes == old(nodes)[t := old(nodes)[t].(combined := Some(CombinedTransform(old(nodes), t)))]
      ensures Valid(nodes) && Extends(old(nodes), nodes)
    {
      assert NodeLinked(nodes, t);
      var bv, flip := nodes[t].bv, FlipY(nodes, nodes[t].parentTileset);
      var ct := GetCombinedTransform(t);
      bb := AsAabb(bv, ct, None, flip, flipZY).value;
    }

    /** `Tile::contains`: whether the point lies in the tile's box, borders included. */
    method ContainsPoint(t: nat, point: Vec3) returns (b: bool)
      requires Valid(nodes) && IsTile(nodes, t)
      modifies this`nodes
      ensures b == Contains(old(nodes), flipZY, t, point)
      ensures nodes == old(nodes)[t := old(nodes)[t].(combined := Some(CombinedTransform(old(nodes), t)))]
      ensures Valid(nodes) && Extends(old(nodes), nodes)
    {
      var c := BoundingVolumeAsAabb(t);
      b := InBox(point, c);
    }

    /**
     * `findTile`, building children and loading contents on the way, with `fetch` standing for
     * the downloads. What it finds is what the search over the store it leaves behind finds.
     */
    method FindTile(ts: nat, id: ChunkNodeId, fetch: string -> Fetched, fuel: nat) returns (r: Result<Option<nat>>)
      requires Valid(nodes) && IsTileset(nodes, ts)
      modifies this`nodes
      ensures Valid(nodes) && Extends(old(nodes), nodes)
      ensures id.d < 0 ==> nodes == old(nodes) && r == Success(None)
      ensures id.d == 0 ==> nodes == old(nodes) && r == Success(old(nodes[ts].rootTile))
      ensures r.Success? ==> r == FoundTile(nodes, flipZY, ts, id)
      ensures r.Failure? ==> FoundTile(nodes, flipZY, ts, id).Failure? || (r.error == OutOfFuel && fuel < |nodes| - ts)
      ensures fuel >= |nodes| ==> (r.Success? <==> FoundTile(nodes, flipZY, ts, id).Success?)
    {
      assert NodeLinked(nodes, ts);
      if id.d < 0 {
        return Success(None);
      }
      if id.d == 0 {
        return Success(nodes[ts].rootTile);
      }
      if nodes[ts].rootTile.None? {
        return Failure("null root tile");
      }
      ghost var start := nodes;
      var center := DecodeTileId(ts, id);
      ghost var decoded := nodes;
      r := FindInTileset(ts, id.d, center, fetch, fuel);
      ExtendsTrans(start, decoded, nodes);
      assert NodeExtends(decoded[ts], nodes[ts]);
    }

    /** `findTileRecInTileset`: the root tile at the tileset's depth, else the search under the root when it contains the point. */
    method FindInTileset(ts: nat, depth: int, center: Vec3, fetch: string -> Fetched, fuel: nat) returns (r: Result<Option<nat>>)
      requires Valid(nodes) && IsTileset(nodes, ts)
      modifies this`nodes
      ensures Valid(nodes) && Extends(old(nodes), nodes)
      ensures depth == old(nodes[ts].depth) ==> nodes == old(nodes) && r == Success(old(nodes[ts].rootTile))
      ensures r.Success? ==> r == FoundInTileset(nodes, flipZY, ts, depth, center)
      ensures r.Failure? ==>
        FoundInTileset(nodes, flipZY, ts, depth, center).Failure? || (r.error == OutOfFuel && fuel < |nodes| - ts)
      decreases fuel, 2
    {
      assert NodeLinked(nodes, ts);
      if depth == nodes[ts].depth {
        return Success(nodes[ts].rootTile);
      }
      if nodes[ts].rootTile.None? {
        return Failure("null root tile");
      }
      var root := nodes[ts].rootTile.value;
      ghost var start := nodes;
      var inside := ContainsPoint(root, center);
      if inside {
        ghost var mid := nodes;
        r := FindInTile(root, depth, center, fetch, fuel);
        ExtendsTrans(start, mid, nodes);
      } else {
        r := Success(None);
      }
      TileAabbExtends(start, nodes, flipZY, root);
      assert NodeExtends(start[ts], nodes[ts]);
    }

    /**
     * `findTileRecInTile`: the tile at its own depth; else, once its children are built, the
     * search in the first child that contains the point, or for a childless tile the nested
     * tileset or the tile itself, depending on the content it loads. A null content is a failure
     * (the source dereferences it), and so is a search that runs out of `fuel`.
     */
    method FindInTile(t: nat, depth: int, center: Vec3, fetch: string -> Fetched, fuel: nat) returns (r: Result<Option<nat>>)
      requires Valid(nodes) && IsTile(nodes, t)
      modifies this`nodes
      ensures Valid(nodes) && Extends(old(nodes), nodes)
      ensures depth == old(nodes[t].depth) ==> nodes == old(nodes) && r == Success(Some(t))
      ensures r.Success? ==> r == FoundInTile(nodes, flipZY, t, depth, center)
      ensures r.Failure? ==>
        FoundInTile(nodes, flipZY, t, depth, center).Failure? || (r.error == OutOfFuel && fuel < |nodes| - t)
      decreases fuel, 1
    {
      if depth == nodes[t].depth {
        return Success(Some(t));
      }
      if fuel == 0 {
        return Failure(OutOfFuel);
      }
      ghost var start := nodes;
      var kids := Children(t);
      if kids.Failure? {
        return Failure(kids.error);
      }
      ghost var built := nodes;
      if kids.value == [] {
        r := FindInContent(t, depth, center, fetch, fuel);
      } else {
        r := FindInChildren(t, depth, center, fetch, fuel);
      }
      ExtendsTrans(start, built, nodes);
    }

    /** `findTileRecInTile` at a childless tile: the search goes on in the content it loads. */
    method FindInContent(t: nat, depth: int, center: Vec3, fetch: string -> Fetched, fuel: nat) returns (r: Result<Option<nat>>)
      requires Valid(nodes) && IsTile(nodes, t) && depth != nodes[t].depth && fuel > 0
      requires !ChildrenPending(nodes[t]) && nodes[t].children == []
      modifies this`nodes
      ensures Valid(nodes) && Extends(old(nodes), nodes)
      ensures r.Success? ==> r == FoundInTile(nodes, flipZY, t, depth, center)
      ensures r.Failure? ==>
        FoundInTile(nodes, flipZY, t, depth, center).Failure? || (r.error == OutOfFuel && fuel < |nodes| - t)
      decreases fuel, 0
    {
      ghost var start := nodes;
      var c := GetContent(t, fetch(nodes[t].contentUrl));
      if c.Failure? {
        ContentMissingFails(nodes, flipZY, t, depth, center);
        return Failure(c.error);
      }
      assert NodeExtends(start[t], nodes[t]);
      match c.value
      case NoContent =>
        ContentMissingFails(nodes, flipZY, t, depth, center);
        r := Failure("null content");
      case B3dmContent =>
        ContentAgrees(nodes, nodes, flipZY, t, depth, center);
        r := Success(Some(t));
      case TilesetContent(sub) =>
        ghost var loaded := nodes;
        ContentAgrees(loaded, loaded, flipZY, t, depth, center);
        r := FindInTileset(sub, depth + 1, center, fetch, fuel - 1);
        ExtendsTrans(start, loaded, nodes);
        ContentAgrees(loaded, nodes, flipZY, t, depth, center);
    }

    /** The scan of `findTileRecInTile` over the built children of a tile: the search in the first one that contains the point. */
    method FindInChildren(t: nat, depth: int, center: Vec3, fetch: string -> Fetched, fuel: nat) returns (r: Result<Option<nat>>)
      requires Valid(nodes) && IsTile(nodes, t) && depth != nodes[t].depth && fuel > 0
      requires !ChildrenPending(nodes[t]) && nodes[t].children != []
      modifies this`nodes
      ensures Valid(nodes) && Extends(old(nodes), nodes)
      ensures r.Success? ==> r == FoundInTile(nodes, flipZY, t, depth, center)
      ensures r.Failure? ==>
        FoundInTile(nodes, flipZY, t, depth, center).Failure? || (r.error == OutOfFuel && fuel < |nodes| - t)
      decreases fuel, 0
    {
      assert NodeLinked(nodes, t);
      ghost var start := nodes;
      var children := nodes[t].children;
      var k := 0;
      while k < |children|
        invariant k <= |children| && children == start[t].children
        invariant Valid(nodes) && Extends(start, nodes)
        invariant NoneContains(start, flipZY, t, k, center)
        decreases |children| - k
      {
        ghost var before := nodes;
        TileAabbExtends(start, before, flipZY, children[k]);
        var inside := ContainsPoint(children[k], center);
        assert inside == Contains(start, flipZY, children[k], center);
        ExtendsTrans(start, before, nodes);
        if inside {
          ghost var mid := nodes;
          TileAabbExtends(start, mid, flipZY, children[k]);
          r := FindInTile(children[k], depth, center, fetch, fuel - 1);
          ExtendsTrans(start, mid, nodes);
          ScanAgrees(start, nodes, flipZY, t, k, depth, center);
          return;
        }
        NoneContainsStep(start, flipZY, t, k, center);
        k := k + 1;
      }
      ScanAgrees(start, nodes, flipZY, t, k, depth, center);
      r := Success(None);
    }

    /**
     * `encodeTileId`: the id of a box relative to the root box, which it builds first; an offset
     * that does not fit in an `int` fails.
     */
    method EncodeTileId(ts: nat, tileLevel: Int32, tileBb: AABB) returns (id: Result<ChunkNodeId>)
      requires Valid(nodes) && IsTileset(nodes, ts) && nodes[ts].rootTile.Some?
      modifies this`nodes
      ensures Valid(nodes) && Extends(old(nodes), nodes) && IsTileset(nodes, ts)
      ensures nodes[ts].rootBb == Some(RootBb(old(nodes), flipZY, ts))
      ensures id == TilesGeometry.EncodeTileId(tileLevel, tileBb, RootBb(old(nodes), flipZY, ts))
    {
      BuildRootBb(ts);
      id := TilesGeometry.EncodeTileId(tileLevel, tileBb, nodes[ts].rootBb.value);
    }

    /** `decodeTileId`: the point an id designates relative to the root box. */
    method DecodeTileId(ts: nat, id: ChunkNodeId) returns (p: Vec3)
      requires Valid(nodes) && IsTileset(nodes, ts) && nodes[ts].rootTile.Some?
      modifies this`nodes
      ensures Valid(nodes) && Extends(old(nodes), nodes) && IsTileset(nodes, ts)
      ensures nodes[ts].rootBb == Some(RootBb(old(nodes), flipZY, ts))
      ensures p == TilesGeometry.DecodeTileId(id, RootBb(old(nodes), flipZY, ts))
    {
      BuildRootBb(ts);
      p := TilesGeometry.DecodeTileId(id, nodes[ts].rootBb.value);
    }

    /**
     * `getContent` with the download's outcome as a parameter: a loaded content is returned as is;
     * a `.json` URL becomes a nested tileset one level deeper (a failed download throws); a `.b3dm`
     * URL becomes a model, or stays null when the model throws; any other URL throws.
     */
    method GetContent(t: nat, fetched: Fetched) returns (r: Result<Content>)
      requires Valid(nodes) && IsTile(nodes, t)
      modifies this`nodes
      ensures Valid(nodes) && Extends(old(nodes), nodes)
      ensures old(nodes[t].content) != NoContent ==> nodes == old(nodes) && r == Success(old(nodes[t].content))
      ensures old(nodes[t].content) == NoContent && EndsWith(old(nodes[t].contentUrl), ".json") ==>
        if fetched.FetchedTileset? then
          var grown := old(nodes) + NewTileset(fetched.json, ContentParent(old(nodes), t), old(nodes[t].depth) + 1, |old(nodes)|);
          nodes == grown[t := grown[t].(content := TilesetContent(|old(nodes)|))]
          && r == Success(TilesetContent(|old(nodes)|))
        else nodes == old(nodes) && r.Failure?
      ensures (old(nodes[t].content) == NoContent && !EndsWith(old(nodes[t].contentUrl), ".json")
               && EndsWith(old(nodes[t].contentUrl), ".b3dm")) ==>
        if fetched == FetchedB3dm then
          nodes == old(nodes)[t := old(nodes[t]).(content := B3dmContent)] && r == Success(B3dmContent)
        else nodes == old(nodes) && r == Success(NoContent)
      ensures (old(nodes[t].content) == NoContent && !EndsWith(old(nodes[t].contentUrl), ".json")
               && !EndsWith(old(nodes[t].contentUrl), ".b3dm")) ==> nodes == old(nodes) && r.Failure?
      ensures (r.Failure? || r == Success(NoContent)) ==> nodes == old(nodes) && old(nodes[t].content) == NoContent
      ensures r.Success? && r.value.TilesetContent? ==> t < r.value.tileset
    {
      var tile := nodes[t];
      if tile.content != NoContent {
        assert NodeLinked(nodes, t);
        return Success(tile.content);
      }
      if EndsWith(tile.contentUrl, ".json") {
        if !fetched.FetchedTileset? {
          return Failure("Receive exception: couldn't create tileset!");
        }
        ghost var start := nodes;
        var base := |nodes|;
        NewTilesetKeepsValid(nodes, fetched.json, ContentParent(nodes, t), tile.depth + 1);
        nodes := nodes + NewTileset(fetched.json, ContentParent(nodes, t), tile.depth + 1, base);
        ghost var grown := nodes;
        SetContentKeepsValid(nodes, t, TilesetContent(base));
        nodes := nodes[t := nodes[t].(content := TilesetContent(base))];
        ExtendsTrans(start, grown, nodes);
        r := Success(TilesetContent(base));
      } else if EndsWith(tile.contentUrl, ".b3dm") {
        if fetched == FetchedB3dm {
          SetContentKeepsValid(nodes, t, B3dmContent);
          nodes := nodes[t := nodes[t].(content := B3dmContent)];
          r := Success(B3dmContent);
        } else {
          r := Success(NoContent);
        }
      } else {
        r := Failure("Should load tile content from: " + tile.contentUrl);
      }
    }
  }

  /** Replacing a node by one with the same pointers, transform and (for a tile) a consistent cache keeps a store valid. */
  lemma FlagUpdateKeepsValid(nodes: seq<Node>, i: nat, updated: Node)
    requires Valid(nodes) && 0 <= i < |nodes|
    requires Skeleton(updated) == Skeleton(nodes[i]) && updated.Tile? == nodes[i].Tile?
    requires updated.Tile? ==> (updated.children == nodes[i].children && updated.content == nodes[i].content
      && (updated.combined == nodes[i].combined || updated.combined == Some(CombinedTransform(nodes, i))))
    requires updated.Tileset? ==> updated.rootTile == nodes[i].rootTile
    ensures Valid(nodes[i := updated]) && Agree(nodes, nodes[i := updated])
  {
    var b := nodes[i := updated];
    forall k | 0 <= k < |b| ensures NodeLinked(b, k) {
      assert NodeLinked(nodes, k);
      assert Skeleton(b[k]) == Skeleton(nodes[k]);
    }
    CachesAgreeCarry(nodes, b);
  }

  lemma AgreeTrans(a: seq<Node>, b: seq<Node>, c: seq<Node>)
    requires Agree(a, b) && Agree(b, c)
    ensures Agree(a, c)
  {
  }
}
