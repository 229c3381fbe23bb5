/**
 * The small vector algebra of rkcommon that the loaders use: 3-vectors, the
 * cross and dot products, and axis-aligned boxes. Coordinates are exact reals;
 * a float component that starts at +-infinity is an `Ext`.
 */
module Geometry {

  datatype Vec3 = Vec3(x: real, y: real, z: real)

  /** `math::vec3i` */
  datatype Int3 = Int3(x: int, y: int, z: int)

  function Sub(a: Vec3, b: Vec3): Vec3 {
    Vec3(a.x - b.x, a.y - b.y, a.z - b.z)
  }

  function Cross(a: Vec3, b: Vec3): Vec3 {
    Vec3(a.y * b.z - a.z * b.y, a.z * b.x - a.x * b.z, a.x * b.y - a.y * b.x)
  }

  function Dot(a: Vec3, b: Vec3): real {
    a.x * b.x + a.y * b.y + a.z * b.z
  }

  /** Six times the signed volume of the tetrahedron (a, b, c, d). */
  function TripleProduct(a: Vec3, b: Vec3, c: Vec3, d: Vec3): real {
    Dot(Cross(Sub(b, a), Sub(c, a)), Sub(d, a))
  }

  lemma CrossAntiCommutes(u: Vec3, v: Vec3)
    ensures Cross(v, u) == Vec3(-Cross(u, v).x, -Cross(u, v).y, -Cross(u, v).z)
  {
    assert v.y * u.z == u.z * v.y && v.z * u.y == u.y * v.z;
    assert v.z * u.x == u.x * v.z && v.x * u.z == u.z * v.x;
    assert v.x * u.y == u.y * v.x && v.y * u.x == u.x * v.y;
  }

  /** Exchanging b and c negates the signed volume. */
  lemma TripleProductSwap(a: Vec3, b: Vec3, c: Vec3, d: Vec3)
    ensures TripleProduct(a, c, b, d) == -TripleProduct(a, b, c, d)
  {
    var u, v, w := Sub(b, a), Sub(c, a), Sub(d, a);
    CrossAntiCommutes(u, v);
    var n := Cross(u, v);
    calc {
      TripleProduct(a, c, b, d);
      Dot(Cross(v, u), w);
      (-n.x) * w.x + (-n.y) * w.y + (-n.z) * w.z;
      { assert (-n.x) * w.x == -(n.x * w.x) && (-n.y) * w.y == -(n.y * w.y) && (-n.z) * w.z == -(n.z * w.z); }
      -Dot(n, w);
    }
  }

  /** A float that may be +-infinity (the seed of a running min/max or of an empty box). */
  datatype Ext = NegInf | Fin(v: real) | PosInf

  predicate ExtLe(a: Ext, b: Ext) {
    match (a, b)
    case (NegInf, _) => true
    case (_, PosInf) => true
    case (Fin(x), Fin(y)) => x <= y
    case _ => false
  }

  /** `std::min(a, b)`: b when b < a, otherwise a. */
  function ExtMin(a: Ext, b: Ext): (r: Ext)
    ensures ExtLe(r, a) && ExtLe(r, b)
    ensures r == a || r == b
  {
    if ExtLe(b, a) && b != a then b else a
  }

  /** `std::max(a, b)`: b when a < b, otherwise a. */
  function ExtMax(a: Ext, b: Ext): (r: Ext)
    ensures ExtLe(a, r) && ExtLe(b, r)
    ensures r == a || r == b
  {
    if ExtLe(a, b) && a != b then b else a
  }

  datatype ExtVec3 = ExtVec3(x: Ext, y: Ext, z: Ext)

  function Lift(p: Vec3): ExtVec3 {
    ExtVec3(Fin(p.x), Fin(p.y), Fin(p.z))
  }

  /** `math::box3f`: the default-constructed box is empty, lower = +inf and upper = -inf. */
  datatype Box3 = Box3(lower: ExtVec3, upper: ExtVec3)

  const EmptyBox := Box3(ExtVec3(PosInf, PosInf, PosInf), ExtVec3(NegInf, NegInf, NegInf))

  predicate Contains(b: Box3, p: Vec3) {
    && ExtLe(b.lower.x, Fin(p.x)) && ExtLe(Fin(p.x), b.upper.x)
    && ExtLe(b.lower.y, Fin(p.y)) && ExtLe(Fin(p.y), b.upper.y)
    && ExtLe(b.lower.z, Fin(p.z)) && ExtLe(Fin(p.z), b.upper.z)
  }

  /**
   * `box3f::extend(p)`: grows the box componentwise so that it contains p,
   * and no further: each corner component is the old one or p's, whichever
   * is the lower (lower corner) or the higher (upper corner).
   */
  function Extend(b: Box3, p: Vec3): (r: Box3)
    ensures Contains(r, p)
    ensures ExtLe(r.lower.x, b.lower.x) && ExtLe(r.lower.y, b.lower.y) && ExtLe(r.lower.z, b.lower.z)
    ensures ExtLe(b.upper.x, r.upper.x) && ExtLe(b.upper.y, r.upper.y) && ExtLe(b.upper.z, r.upper.z)
    ensures (r.lower.x == b.lower.x || r.lower.x == Fin(p.x)) && (r.upper.x == b.upper.x || r.upper.x == Fin(p.x))
    ensures (r.lower.y == b.lower.y || r.lower.y == Fin(p.y)) && (r.upper.y == b.upper.y || r.upper.y == Fin(p.y))
    ensures (r.lower.z == b.lower.z || r.lower.z == Fin(p.z)) && (r.upper.z == b.upper.z || r.upper.z == Fin(p.z))
  {
    Box3(ExtVec3(ExtMin(b.lower.x, Fin(p.x)), ExtMin(b.lower.y, Fin(p.y)), ExtMin(b.lower.z, Fin(p.z))),
         ExtVec3(ExtMax(b.upper.x, Fin(p.x)), ExtMax(b.upper.y, Fin(p.y)), ExtMax(b.upper.z, Fin(p.z))))
  }

  /** Extending never loses a point the box already contained. */
  lemma ExtendKeeps(b: Box3, p: Vec3, q: Vec3)
    requires Contains(b, q)
    ensures Contains(Extend(b, p), q)
  {
  }
}
