/** Vectors, planes and unit conversion over the reals, with a given square root. */
module Vectors {
  import opened Basics

  datatype Vec3 = Vec3(x: real, y: real, z: real)

  /** Math.sqrt, of which only the defining property is used. */
  type Root = real -> real

  ghost predicate IsRoot(root: Root) {
    forall v: real {:trigger root(v)} :: v >= 0.0 ==> root(v) >= 0.0 && root(v) * root(v) == v
  }

  function Dot(a: Vec3, b: Vec3): real {
    a.x * b.x + a.y * b.y + a.z * b.z
  }

  function Minus(a: Vec3, b: Vec3): Vec3 {
    Vec3(a.x - b.x, a.y - b.y, a.z - b.z)
  }

  function Scale(k: real, a: Vec3): Vec3 {
    Vec3(k * a.x, k * a.y, k * a.z)
  }

  function Abs(r: real): real {
    if r < 0.0 then -r else r
  }

  predicate Close(a: Vec3, b: Vec3, tolerance: real) {
    Abs(a.x - b.x) <= tolerance && Abs(a.y - b.y) <= tolerance && Abs(a.z - b.z) <= tolerance
  }

  /** normalizeVec3: None for a vector without a direction. */
  function Normalize(root: Root, v: Vec3): Option<Vec3> {
    var length := root(Dot(v, v));
    if length == 0.0 then None else Some(Vec3(v.x / length, v.y / length, v.z / length))
  }

  /** canonicalCameraUp: `up` made perpendicular to the view direction. */
  function CanonicalUp(root: Root, eye: Vec3, target: Vec3, up: Vec3): Option<Vec3> {
    match (Normalize(root, Minus(target, eye)), Normalize(root, up))
    case (Some(direction), Some(u)) => Normalize(root, Minus(u, Scale(Dot(u, direction), direction)))
    case _ => None
  }

  const MM_PER_INCH := 25.4

  /** ax + by + cz + d = 0, in inches. */
  datatype Plane = Plane(a: real, b: real, c: real, d: real)

  datatype PlaneSummary = PlaneSummary(originMm: Vec3, normal: Vec3)

  /** plane_summary: the foot of the perpendicular from the origin, and the unit normal. */
  function Summarize(root: Root, p: Plane): Option<PlaneSummary> {
    var n := Vec3(p.a, p.b, p.c);
    var squared := Dot(n, n);
    if !(squared > 0.0) then None
    else
      var length := root(squared);
      if length == 0.0 then None
      else Some(PlaneSummary(Vec3(-p.a * p.d / squared * MM_PER_INCH, -p.b * p.d / squared * MM_PER_INCH,
                                  -p.c * p.d / squared * MM_PER_INCH),
                             Vec3(p.a / length, p.b / length, p.c / length)))
  }

  /** The coefficients a host may store for the plane through a point (in mm) with a unit normal: any positive multiple. */
  function PlaneThrough(pointMm: Vec3, unit: Vec3, k: real): Plane {
    Plane(k * unit.x, k * unit.y, k * unit.z, -k * Dot(unit, Scale(1.0 / MM_PER_INCH, pointMm)))
  }

  lemma {:induction false} RootUnique(a: real, b: real)
    requires a >= 0.0 && b >= 0.0 && a * a == b * b
    ensures a == b
  {
    assert (a - b) * (a + b) == 0.0;
    if a + b == 0.0 { } else { assert a - b == 0.0; }
  }

  lemma {:induction false} RootOfSquare(root: Root, k: real)
    requires IsRoot(root) && k >= 0.0
    ensures root(k * k) == k
  {
    RootUnique(root(k * k), k);
  }

  lemma {:induction false} ScaledDot(k: real, u: Vec3, v: Vec3)
    ensures Dot(Scale(k, u), v) == k * Dot(u, v)
  {
  }

  lemma {:induction false} OriginPart(k: real, kk: real, u: real, e: real)
    requires kk == k * k && kk > 0.0
    ensures -(k * u) * (-k * e) / kk == u * e
  {
    Regroup(k, u, e);
    DivideBack(u * e, kk);
  }

  lemma {:induction false} Regroup(k: real, u: real, e: real)
    ensures -(k * u) * (-k * e) == (u * e) * (k * k)
  {
    var ku, ke := k * u, k * e;
    assert -(k * u) == -ku && -k * e == -ke;
    assert -ku * -ke == ku * ke;
    assert ku * ke == k * (u * ke);
    assert u * ke == (u * e) * k;
  }

  lemma {:induction false} DivideBack(a: real, b: real)
    requires b > 0.0
    ensures a * b / b == a
  {
  }

  /** Whatever positive multiple the host stores, the summary has the given normal and signed offset. */
  lemma {:induction false} PlaneRoundTrip(root: Root, pointMm: Vec3, unit: Vec3, k: real)
    requires IsRoot(root) && k > 0.0 && Dot(unit, unit) == 1.0
    ensures var s := Summarize(root, PlaneThrough(pointMm, unit, k));
            s.Some? && s.value.normal == unit && Dot(unit, s.value.originMm) == Dot(unit, pointMm)
  {
    var p := PlaneThrough(pointMm, unit, k);
    var n := Vec3(p.a, p.b, p.c);
    assert n == Scale(k, unit);
    ScaledDot(k, unit, n);
    ScaledDot(k, unit, unit);
    assert Dot(n, n) == k * k;
    assert k * k > 0.0;
    RootOfSquare(root, k);
    var e := Dot(unit, Scale(1.0 / MM_PER_INCH, pointMm));
    OriginPart(k, k * k, unit.x, e);
    OriginPart(k, k * k, unit.y, e);
    OriginPart(k, k * k, unit.z, e);
    var origin := Summarize(root, p).value.originMm;
    assert origin == Scale(e * MM_PER_INCH, unit);
    ScaledDot(e * MM_PER_INCH, unit, unit);
    assert e * MM_PER_INCH == Dot(unit, pointMm);
    ScaledSelf(e * MM_PER_INCH, unit);
  }

  lemma {:induction false} ScaledSelf(k: real, u: Vec3)
    requires Dot(u, u) == 1.0
    ensures Dot(u, Scale(k, u)) == k
  {
    assert Dot(u, Scale(k, u)) == k * Dot(u, u);
  }

  /** A normalised vector has length one. */
  lemma {:induction false} UnitLength(root: Root, v: Vec3)
    requires IsRoot(root) && Normalize(root, v).Some?
    ensures Dot(Normalize(root, v).value, Normalize(root, v).value) == 1.0
  {
    var sq := Dot(v, v);
    SquaresAdd(v);
    var length := root(sq);
    var inv := 1.0 / length;
    assert inv * length == 1.0;
    Scaled(v.x, length, inv);
    Scaled(v.y, length, inv);
    Scaled(v.z, length, inv);
    var u := Normalize(root, v).value;
    assert u == Scale(inv, v);
    ScaledDot(inv, v, u);
    assert Dot(v, u) == inv * sq;
    assert inv * (inv * (length * length)) == (inv * length) * (inv * length);
  }

  lemma {:induction false} SquaresAdd(v: Vec3)
    ensures Dot(v, v) >= 0.0
  {
    assert v.x * v.x >= 0.0 && v.y * v.y >= 0.0 && v.z * v.z >= 0.0;
  }

  lemma {:induction false} Scaled(a: real, length: real, inv: real)
    requires length != 0.0 && inv == 1.0 / length
    ensures a / length == inv * a
  {
  }
}
