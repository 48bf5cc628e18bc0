/**
 * Double-precision 3D and 4D vectors of the 3D Tiles code (`QgsVector4D`), with reals standing for
 * doubles. Lengths and distances are kept squared: the reals have no square root, and every
 * property of `length()` and `distance()` below is a property of their squares.
 */
module Vectors {

  /** Stand-in for `QgsVector3D`, which is not part of this model. */
  datatype Vec3 = Vec3(x: real, y: real, z: real)

  /** The value of a `QgsVector4D`. */
  datatype Vec4 = Vec4(x: real, y: real, z: real, w: real)

  /** 4 * DBL_EPSILON = 2^-50, the default tolerance of `qgsDoubleNear`. */
  const Epsilon: real := 1.0 / 1125899906842624.0

  /** The default-constructed vector. */
  function Null(): Vec4 { Vec4(0.0, 0.0, 0.0, 0.0) }

  /** The `(x, y, z, w = 0)` constructor. */
  function FromXYZ(x: real, y: real, z: real): (v: Vec4)
    ensures v.w == 0.0 && v.x == x && v.y == y && v.z == z
  {
    Vec4(x, y, z, 0.0)
  }

  /** The `(QgsVector3D, w)` constructor. */
  function FromVec3(v: Vec3, w: real): (r: Vec4)
    ensures Xyz(r) == v && r.w == w
  {
    Vec4(v.x, v.y, v.z, w)
  }

  /** The first three coordinates. */
  function Xyz(v: Vec4): Vec3 { Vec3(v.x, v.y, v.z) }

  predicate IsNull(v: Vec4) { v.x == 0.0 && v.y == 0.0 && v.z == 0.0 && v.w == 0.0 }

  /** The const `operator[]`: 0..3 select x, y, z, w, any other index gives 0. */
  function Component(v: Vec4, i: int): real {
    if i == 0 then v.x
    else if i == 1 then v.y
    else if i == 2 then v.z
    else if i == 3 then v.w
    else 0.0
  }

  /**
   * Writing through the reference `operator[]`. In a release build an index outside 0..3 falls
   * through the switch to the `return mX; // fake` line and so writes x.
   */
  function WithComponent(v: Vec4, i: int, value: real): Vec4 {
    if i == 1 then v.(y := value)
    else if i == 2 then v.(z := value)
    else if i == 3 then v.(w := value)
    else v.(x := value)
  }

  function Add(a: Vec4, b: Vec4): Vec4 { Vec4(a.x + b.x, a.y + b.y, a.z + b.z, a.w + b.w) }

  function Sub(a: Vec4, b: Vec4): Vec4 { Vec4(a.x - b.x, a.y - b.y, a.z - b.z, a.w - b.w) }

  function Times(v: Vec4, factor: real): Vec4 { Vec4(v.x * factor, v.y * factor, v.z * factor, v.w * factor) }

  /** `operator/`; a zero divisor gives IEEE infinities in the source and is excluded here. */
  function Div(v: Vec4, factor: real): Vec4
    requires factor != 0.0
  {
    Vec4(v.x / factor, v.y / factor, v.z / factor, v.w / factor)
  }

  function Dot(a: Vec4, b: Vec4): real { a.x * b.x + a.y * b.y + a.z * b.z + a.w * b.w }

  /** The square of `length()`. */
  function LengthSquared(v: Vec4): real { v.x * v.x + v.y * v.y + v.z * v.z + v.w * v.w }

  /** The square of `distance(other)`. */
  function DistanceSquared(a: Vec4, b: Vec4): real {
    (a.x - b.x) * (a.x - b.x) + (a.y - b.y) * (a.y - b.y) + (a.z - b.z) * (a.z - b.z) + (a.w - b.w) * (a.w - b.w)
  }

  /** `qgsDoubleNear(len, 0.0)` with the default tolerance. */
  predicate NearZero(len: real) { len > -Epsilon && len <= Epsilon }

  /** The new value of a vector after `normalize()`, given its length `len`. */
  function Normalized(v: Vec4, len: real): Vec4
    requires len >= 0.0 && len * len == LengthSquared(v)
  {
    if NearZero(len) then v else Div(v, len)
  }

  // ---------------------------------------------------------------------------------------------
  // Properties

  lemma NullIsNull(v: Vec4)
    ensures IsNull(Null())
    ensures IsNull(v) <==> v == Null()
  {
  }

  /** The four valid indices of `operator[]` read back the four coordinates, and rebuild the vector. */
  lemma ComponentsRebuild(v: Vec4)
    ensures Vec4(Component(v, 0), Component(v, 1), Component(v, 2), Component(v, 3)) == v
    ensures forall i :: !(0 <= i < 4) ==> Component(v, i) == 0.0
  {
  }

  /** Writing coordinate `i` through `operator[]` is read back at `i` and leaves the other three. */
  lemma WithComponentReadsBack(v: Vec4, i: int, value: real)
    requires 0 <= i < 4
    ensures Component(WithComponent(v, i, value), i) == value
    ensures forall j :: 0 <= j < 4 && j != i ==> Component(WithComponent(v, i, value), j) == Component(v, j)
  {
  }

  lemma AddSubInverse(a: Vec4, b: Vec4)
    ensures Sub(Add(a, b), b) == a
    ensures Add(Sub(a, b), b) == a
    ensures Add(a, b) == Add(b, a)
    ensures IsNull(Sub(a, a))
  {
  }

  lemma DivUndoesTimes(v: Vec4, factor: real)
    requires factor != 0.0
    ensures Div(Times(v, factor), factor) == v
  {
  }

  lemma DotProperties(a: Vec4, b: Vec4)
    ensures Dot(a, b) == Dot(b, a)
    ensures Dot(a, a) == LengthSquared(a)
    ensures LengthSquared(a) >= 0.0
    ensures IsNull(a) ==> LengthSquared(a) == 0.0
  {
  }

  lemma DistanceProperties(a: Vec4, b: Vec4)
    ensures DistanceSquared(a, b) == DistanceSquared(b, a)
    ensures DistanceSquared(a, a) == 0.0
    ensures DistanceSquared(a, b) == Dot(Sub(a, b), Sub(a, b))
    ensures DistanceSquared(a, b) == LengthSquared(Sub(a, b))
  {
  }

  /**
   * `normalize()` keeps a vector of near-zero length; otherwise the result has length 1.
   * Near-zero is decided on the length itself, which (for a non-negative length) is the same as
   * comparing its square against the squared tolerance.
   */
  lemma NormalizedLength(v: Vec4, len: real)
    requires len >= 0.0 && len * len == LengthSquared(v)
    ensures NearZero(len) <==> LengthSquared(v) <= Epsilon * Epsilon
    ensures NearZero(len) ==> Normalized(v, len) == v
    ensures !NearZero(len) ==> LengthSquared(Normalized(v, len)) == 1.0
  {
    if len <= Epsilon {
      assert len * len <= Epsilon * len <= Epsilon * Epsilon;
    } else {
      assert len * len > Epsilon * len > Epsilon * Epsilon;
      var n := Div(v, len);
      assert n.x * len == v.x && n.y * len == v.y && n.z * len == v.z && n.w * len == v.w;
      calc {
        LengthSquared(n) * (len * len);
        (n.x * len) * (n.x * len) + (n.y * len) * (n.y * len) + (n.z * len) * (n.z * len) + (n.w * len) * (n.w * len);
        LengthSquared(v);
        1.0 * (len * len);
      }
    }
  }

  /** The mutable `QgsVector4D`: `set`, `setX`..`setW`, the reference `operator[]` and `normalize()`. */
  class Vector4D {
    var x: real
    var y: real
    var z: real
    var w: real

    function Value(): Vec4
      reads this
    {
      Vec4(x, y, z, w)
    }

    constructor ()
      ensures Value() == Null()
    {
      x, y, z, w := 0.0, 0.0, 0.0, 0.0;
    }

    constructor FromCoordinates(x0: real, y0: real, z0: real, w0: real)
      ensures Value() == Vec4(x0, y0, z0, w0)
    {
      x, y, z, w := x0, y0, z0, w0;
    }

    method Set(nx: real, ny: real, nz: real, nw: real)
      modifies this
      ensures Value() == Vec4(nx, ny, nz, nw)
    {
      x, y, z, w := nx, ny, nz, nw;
    }

    method SetX(v: real)
      modifies this
      ensures Value() == old(Value()).(x := v)
    {
      x := v;
    }

    method SetY(v: real)
      modifies this
      ensures Value() == old(Value()).(y := v)
    {
      y := v;
    }

    method SetZ(v: real)
      modifies this
      ensures Value() == old(Value()).(z := v)
    {
      z := v;
    }

    method SetW(v: real)
      modifies this
      ensures Value() == old(Value()).(w := v)
    {
      w := v;
    }

    /** Assignment through the reference `operator[](i)`. */
    method SetComponent(i: int, v: real)
      modifies this
      ensures Value() == WithComponent(old(Value()), i, v)
    {
      if i == 1 {
        y := v;
      } else if i == 2 {
        z := v;
      } else if i == 3 {
        w := v;
      } else {
        x := v;
      }
    }

    /** `normalize()`; the square root the source computes is passed in as `len`. */
    method Normalize(len: real)
      requires len >= 0.0 && len * len == LengthSquared(Value())
      modifies this
      ensures Value() == Normalized(old(Value()), len)
    {
      if !NearZero(len) {
        x, y, z, w := x / len, y / len, z / len, w / len;
      }
    }
  }
}
