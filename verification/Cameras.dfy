/**
 What it means that a listed scene or section is the one a fixture asks for, in coordinates: a
 camera stands where it should, held upright, and a plane has the direction and the offset.
 */
module Cameras {
  import opened Basics
  import opened Vectors
  import opened Presentation
  import opened LiveModel
  import opened Matching

  // ---------- directions ----------

  /** Each coordinate within the tolerance of the other's. */
  predicate Near(a: Vec3, b: Vec3, tolerance: real) {
    && b.x - tolerance <= a.x <= b.x + tolerance
    && b.y - tolerance <= a.y <= b.y + tolerance
    && b.z - tolerance <= a.z <= b.z + tolerance
  }

  predicate Points(v: Vec3, unit: Vec3, k: real) {
    k > 0.0 && v.x == k * unit.x && v.y == k * unit.y && v.z == k * unit.z
  }

  /** The unit vector in the direction of v. */
  ghost predicate Direction(unit: Vec3, v: Vec3) {
    Dot(unit, unit) == 1.0 && exists k: real :: Points(v, unit, k)
  }

  lemma {:induction false} Shrunk(x: real, length: real)
    requires length != 0.0
    ensures length * (x / length) == x
  {
  }

  lemma {:induction false} Divided(v: real, k: real, u: real)
    requires k > 0.0 && v == k * u
    ensures v / k == u
  {
  }

  lemma {:induction false} NormalizeDirects(root: Root, v: Vec3)
    requires IsRoot(root) && Normalize(root, v).Some?
    ensures Direction(Normalize(root, v).value, v)
  {
    var length := root(Dot(v, v));
    SquaresAdd(v);
    UnitLength(root, v);
    Shrunk(v.x, length);
    Shrunk(v.y, length);
    Shrunk(v.z, length);
    assert Points(v, Normalize(root, v).value, length);
  }

  lemma {:induction false} LengthOf(root: Root, unit: Vec3, v: Vec3, k: real)
    requires IsRoot(root) && Dot(unit, unit) == 1.0 && Points(v, unit, k)
    ensures root(Dot(v, v)) == k
  {
    assert v == Scale(k, unit);
    ScaledDot(k, unit, v);
    ScaledDot(k, unit, unit);
    DotSwap(unit, v);
    RootOfSquare(root, k);
  }

  lemma {:induction false} DirectionNormalizes(root: Root, unit: Vec3, v: Vec3)
    requires IsRoot(root) && Direction(unit, v)
    ensures Normalize(root, v) == Some(unit)
  {
    var k: real :| Points(v, unit, k);
    LengthOf(root, unit, v, k);
    Divided(v.x, k, unit.x);
    Divided(v.y, k, unit.y);
    Divided(v.z, k, unit.z);
  }

  /** normalizeVec3 gives the direction of a vector that has one. */
  lemma {:induction false} NormalizeIff(root: Root, unit: Vec3, v: Vec3)
    requires IsRoot(root)
    ensures Normalize(root, v) == Some(unit) <==> Direction(unit, v)
  {
    if Normalize(root, v) == Some(unit) { NormalizeDirects(root, v); }
    if Direction(unit, v) { DirectionNormalizes(root, unit, v); }
  }

  lemma {:induction false} SquarePositive(x: real)
    ensures x * x >= 0.0 && (x * x == 0.0 ==> x == 0.0)
  {
    if x != 0.0 && x * x == 0.0 {
      if x > 0.0 {
        ZeroFactor(x, x);
      } else {
        Negated(x, x);
        ZeroFactor(-x, x);
      }
    }
  }

  lemma {:induction false} SumPositive(a: real, b: real, c: real)
    requires a >= 0.0 && b >= 0.0 && c >= 0.0 && !(a == 0.0 && b == 0.0 && c == 0.0)
    ensures a + b + c > 0.0
  {
  }

  lemma {:induction false} SomeDirection(root: Root, v: Vec3)
    requires IsRoot(root) && v != NOWHERE
    ensures Normalize(root, v).Some?
  {
    SquarePositive(v.x);
    SquarePositive(v.y);
    SquarePositive(v.z);
    SumPositive(v.x * v.x, v.y * v.y, v.z * v.z);
    assert root(Dot(v, v)) * root(Dot(v, v)) == Dot(v, v);
  }

  // ---------- upright ----------

  function Plus(a: Vec3, b: Vec3): Vec3 {
    Vec3(a.x + b.x, a.y + b.y, a.z + b.z)
  }

  predicate Spans(u: Vec3, view: Vec3, up: Vec3, a: real, b: real) {
    a > 0.0 && up == Plus(Scale(a, u), Scale(b, view))
  }

  /** The unit vector across the view direction on the side of `up`. */
  ghost predicate Upright(u: Vec3, view: Vec3, up: Vec3) {
    view != NOWHERE && Dot(u, u) == 1.0 && Dot(u, view) == 0.0 && exists a: real, b: real :: Spans(u, view, up, a, b)
  }

  lemma {:induction false} DotPlus(a: Vec3, b: Vec3, v: Vec3)
    ensures Dot(Plus(a, b), v) == Dot(a, v) + Dot(b, v)
  {
  }

  lemma {:induction false} DotSwap(a: Vec3, b: Vec3)
    ensures Dot(a, b) == Dot(b, a)
  {
  }

  /** The part of a unit vector along another unit vector, taken off. */
  lemma {:induction false} AcrossIsAcross(n: Vec3, direction: Vec3)
    requires Dot(direction, direction) == 1.0
    ensures Dot(Minus(n, Scale(Dot(n, direction), direction)), direction) == 0.0
  {
    var s := Dot(n, direction);
    ScaledDot(s, direction, direction);
    DotPlus(n, Scale(-s, direction), direction);
    ScaledDot(-s, direction, direction);
    assert Minus(n, Scale(s, direction)) == Plus(n, Scale(-s, direction)) by {
      Negated(s, direction.x);
      Negated(s, direction.y);
      Negated(s, direction.z);
    }
  }

  lemma {:induction false} Negated(s: real, x: real)
    ensures -s * x == -(s * x)
  {
  }

  lemma {:induction false} ZeroFactor(k: real, x: real)
    requires k > 0.0 && k * x == 0.0
    ensures x == 0.0
  {
  }

  lemma {:induction false} OneCoordinate(m: real, p: real, s: real, l: real, a: real, b: real, up: real, n: real, u: real,
                                         d: real, view: real)
    requires up == m * n && n - s * d == p * u && view == l * d && a == m * p && b * l == m * s
    ensures up == a * u + b * view
  {
    assert b * view == (b * l) * d by { Assoc(b, l, d); }
    Assoc(m, s, d);
    Assoc(m, p, u);
    assert m * n == m * (p * u) + m * (s * d) by { Distribute(m, p * u, s * d); }
  }

  lemma {:induction false} Assoc(a: real, b: real, c: real)
    ensures a * (b * c) == (a * b) * c
  {
  }

  lemma {:induction false} Distribute(a: real, b: real, c: real)
    ensures a * (b + c) == a * b + a * c
  {
  }

  lemma {:induction false} AcrossCoordinates(n: Vec3, s: real, direction: Vec3, p: real, u: Vec3)
    requires Minus(n, Scale(s, direction)) == Scale(p, u)
    ensures n.x - s * direction.x == p * u.x && n.y - s * direction.y == p * u.y && n.z - s * direction.z == p * u.z
  {
    var across := Minus(n, Scale(s, direction));
    assert across.x == n.x - s * direction.x && across.y == n.y - s * direction.y && across.z == n.z - s * direction.z;
  }

  lemma {:induction false} Combined(u: Vec3, view: Vec3, up: Vec3, a: real, b: real)
    requires a > 0.0
    requires up.x == a * u.x + b * view.x && up.y == a * u.y + b * view.y && up.z == a * u.z + b * view.z
    ensures Spans(u, view, up, a, b)
  {
  }

  /** n without its part along the direction is p times u, so `up`, m times n, lies with u and the view in one plane. */
  lemma {:induction false} InOnePlane(up: Vec3, n: Vec3, u: Vec3, direction: Vec3, view: Vec3, m: real, p: real, s: real, l: real,
                                      a: real, b: real)
    requires Points(up, n, m) && Points(view, direction, l) && Points(Minus(n, Scale(s, direction)), u, p)
    requires a == m * p && b * l == m * s
    ensures a > 0.0
    ensures up.x == a * u.x + b * view.x && up.y == a * u.y + b * view.y && up.z == a * u.z + b * view.z
  {
    AcrossCoordinates(n, s, direction, p, u);
    Product(m, p);
    assert up.x == a * u.x + b * view.x by { OneCoordinate(m, p, s, l, a, b, up.x, n.x, u.x, direction.x, view.x); }
    assert up.y == a * u.y + b * view.y by { OneCoordinate(m, p, s, l, a, b, up.y, n.y, u.y, direction.y, view.y); }
    assert up.z == a * u.z + b * view.z by { OneCoordinate(m, p, s, l, a, b, up.z, n.z, u.z, direction.z, view.z); }
  }

  lemma {:induction false} Product(a: real, b: real)
    requires a > 0.0 && b > 0.0
    ensures a * b > 0.0
  {
  }

  lemma {:induction false} AcrossTheView(u: Vec3, direction: Vec3, view: Vec3, n: Vec3, p: real, l: real)
    requires Dot(direction, direction) == 1.0 && Points(view, direction, l)
    requires Points(Minus(n, Scale(Dot(n, direction), direction)), u, p)
    ensures Dot(u, view) == 0.0
  {
    AcrossIsAcross(n, direction);
    ScaledDot(p, u, direction);
    ZeroFactor(p, Dot(u, direction));
    ScaledDot(l, direction, u);
    DotSwap(u, view);
    DotSwap(u, direction);
  }

  lemma {:induction false} CanonicalIsUpright(root: Root, eye: Vec3, target: Vec3, up: Vec3)
    requires IsRoot(root) && CanonicalUp(root, eye, target, up).Some?
    ensures Upright(CanonicalUp(root, eye, target, up).value, Minus(target, eye), up)
  {
    var view := Minus(target, eye);
    var direction, n := Normalize(root, view).value, Normalize(root, up).value;
    var across := Minus(n, Scale(Dot(n, direction), direction));
    var u := CanonicalUp(root, eye, target, up).value;
    NormalizeDirects(root, view);
    NormalizeDirects(root, up);
    NormalizeDirects(root, across);
    var l: real :| Points(view, direction, l);
    var m: real :| Points(up, n, m);
    var p: real :| Points(across, u, p);
    AcrossTheView(u, direction, view, n, p, l);
    ViewStands(l, direction);
    var s := Dot(n, direction);
    var a, b := m * p, m * s / l;
    InOnePlane(up, n, u, direction, view, m, p, s, l, a, b);
    Combined(u, view, up, a, b);
  }

  lemma {:induction false} ViewStands(l: real, direction: Vec3)
    requires l > 0.0 && Dot(direction, direction) == 1.0
    ensures Scale(l, direction) != NOWHERE
  {
    if Scale(l, direction) == NOWHERE {
      ZeroFactor(l, direction.x);
      ZeroFactor(l, direction.y);
      ZeroFactor(l, direction.z);
    }
  }

  // ---------- and back ----------

  lemma {:induction false} UnspannedCoordinate(m: real, a: real, b: real, s: real, l: real, q: real,
                                               up: real, n: real, u: real, d: real, view: real)
    requires m > 0.0 && up == m * n && up == a * u + b * view && view == l * d && m * s == b * l && m * q == a
    ensures n - s * d == q * u
  {
    Assoc(b, l, d);
    Assoc(m, s, d);
    assert m * (n - s * d) == a * u by { Distribute(m, n, -(s * d)); }
    Assoc(m, q, u);
    Cancel(m, n - s * d, q * u);
  }

  lemma {:induction false} Cancel(m: real, x: real, y: real)
    requires m > 0.0 && m * x == m * y
    ensures x == y
  {
    assert m * (x - y) == 0.0;
    ZeroFactor(m, x - y);
  }

  lemma {:induction false} SpansCoordinates(u: Vec3, view: Vec3, up: Vec3, a: real, b: real)
    requires Spans(u, view, up, a, b)
    ensures up.x == a * u.x + b * view.x && up.y == a * u.y + b * view.y && up.z == a * u.z + b * view.z
  {
  }

  /** Off the view direction, `up` is a positive multiple of u. */
  lemma {:induction false} Unspanned(up: Vec3, n: Vec3, u: Vec3, direction: Vec3, view: Vec3, m: real, l: real, a: real, b: real,
                                     s: real, q: real)
    requires Points(up, n, m) && Points(view, direction, l) && Spans(u, view, up, a, b) && m * s == b * l && m * q == a
    ensures q > 0.0 && n.x - s * direction.x == q * u.x && n.y - s * direction.y == q * u.y && n.z - s * direction.z == q * u.z
  {
    SpansCoordinates(u, view, up, a, b);
    assert n.x - s * direction.x == q * u.x by { UnspannedCoordinate(m, a, b, s, l, q, up.x, n.x, u.x, direction.x, view.x); }
    assert n.y - s * direction.y == q * u.y by { UnspannedCoordinate(m, a, b, s, l, q, up.y, n.y, u.y, direction.y, view.y); }
    assert n.z - s * direction.z == q * u.z by { UnspannedCoordinate(m, a, b, s, l, q, up.z, n.z, u.z, direction.z, view.z); }
    PositiveFactor(m, q);
  }

  lemma {:induction false} AcrossPoints(n: Vec3, s: real, direction: Vec3, u: Vec3, q: real)
    requires q > 0.0
    requires n.x - s * direction.x == q * u.x && n.y - s * direction.y == q * u.y && n.z - s * direction.z == q * u.z
    ensures Points(Minus(n, Scale(s, direction)), u, q)
  {
  }

  lemma {:induction false} PositiveFactor(m: real, q: real)
    requires m > 0.0 && m * q > 0.0
    ensures q > 0.0
  {
  }

  lemma {:induction false} AlongTheView(up: Vec3, n: Vec3, u: Vec3, direction: Vec3, view: Vec3, m: real, l: real, a: real, b: real,
                                        s: real)
    requires Points(up, n, m) && Points(view, direction, l) && Spans(u, view, up, a, b)
    requires Dot(direction, direction) == 1.0 && Dot(u, view) == 0.0 && s == Dot(n, direction)
    ensures m * s == b * l
  {
    assert up == Scale(m, n) && view == Scale(l, direction);
    ScaledDot(m, n, direction);
    ScaledDot(l, direction, u);
    DotSwap(u, view);
    ZeroFactor(l, Dot(direction, u));
    DotSwap(u, direction);
    DotPlus(Scale(a, u), Scale(b, view), direction);
    ScaledDot(a, u, direction);
    ScaledDot(b, view, direction);
    ScaledDot(l, direction, direction);
  }

  lemma {:induction false} UpStands(u: Vec3, view: Vec3, up: Vec3, a: real, b: real)
    requires Spans(u, view, up, a, b) && Dot(u, u) == 1.0 && Dot(u, view) == 0.0
    ensures up != NOWHERE
  {
    DotPlus(Scale(a, u), Scale(b, view), u);
    ScaledDot(a, u, u);
    ScaledDot(b, view, u);
    DotSwap(u, view);
  }

  lemma {:induction false} UprightIsCanonical(root: Root, eye: Vec3, target: Vec3, up: Vec3, u: Vec3)
    requires IsRoot(root) && Upright(u, Minus(target, eye), up)
    ensures CanonicalUp(root, eye, target, up) == Some(u)
  {
    var view := Minus(target, eye);
    var a: real, b: real :| Spans(u, view, up, a, b);
    UpStands(u, view, up, a, b);
    SomeDirection(root, view);
    SomeDirection(root, up);
    NormalizeDirects(root, view);
    NormalizeDirects(root, up);
    var direction, n := Normalize(root, view).value, Normalize(root, up).value;
    var l: real :| Points(view, direction, l);
    var m: real :| Points(up, n, m);
    var s, q := Dot(n, direction), a / m;
    AlongTheView(up, n, u, direction, view, m, l, a, b, s);
    Shrunk(a, m);
    Unspanned(up, n, u, direction, view, m, l, a, b, s, q);
    AcrossPoints(n, s, direction, u, q);
    DirectionNormalizes(root, u, Minus(n, Scale(Dot(n, direction), direction)));
  }

  /** canonicalCameraUp gives the one unit vector across the view on the side of `up`, if there is one. */
  lemma {:induction false} CanonicalIff(root: Root, eye: Vec3, target: Vec3, up: Vec3, u: Vec3)
    requires IsRoot(root)
    ensures CanonicalUp(root, eye, target, up) == Some(u) <==> Upright(u, Minus(target, eye), up)
  {
    if CanonicalUp(root, eye, target, up) == Some(u) { CanonicalIsUpright(root, eye, target, up); }
    if Upright(u, Minus(target, eye), up) { UprightIsCanonical(root, eye, target, up, u); }
  }

  // ---------- planes ----------

  predicate LiesAt(p: Plane, n: Vec3, offsetMm: real, k: real) {
    k > 0.0 && p.a == k * n.x && p.b == k * n.y && p.c == k * n.z && p.d * MM_PER_INCH == -(k * offsetMm)
  }

  /** The plane has this unit normal and lies at this signed distance from the origin. */
  ghost predicate Lies(p: Plane, n: Vec3, offsetMm: real) {
    Dot(n, n) == 1.0 && exists k: real :: LiesAt(p, n, offsetMm, k)
  }

  lemma {:induction false} SameD(k: real, offsetMm: real, d: real)
    requires d * MM_PER_INCH == -(k * offsetMm)
    ensures d == -k * ((1.0 / MM_PER_INCH) * offsetMm)
  {
    var inch := 1.0 / MM_PER_INCH;
    assert inch * MM_PER_INCH == 1.0;
    assert d == (d * MM_PER_INCH) * inch by { Assoc(d, MM_PER_INCH, inch); }
    Assoc(k, offsetMm, inch);
    Negated(k, inch * offsetMm);
    Negated(k * offsetMm, inch);
    assert d == -(k * offsetMm) * inch;
  }

  lemma {:induction false} PlaneAt(p: Plane, n: Vec3, offsetMm: real, k: real)
    requires Dot(n, n) == 1.0 && LiesAt(p, n, offsetMm, k)
    ensures p == PlaneThrough(Scale(offsetMm, n), n, k)
  {
    var inch := 1.0 / MM_PER_INCH;
    var foot := Scale(offsetMm, n);
    ScaledDot(inch, foot, n);
    ScaledSelf(offsetMm, n);
    DotSwap(n, foot);
    DotSwap(n, Scale(inch, foot));
    SameD(k, offsetMm, p.d);
  }

  lemma {:induction false} LiesSummarized(root: Root, p: Plane, n: Vec3, offsetMm: real)
    requires IsRoot(root) && Lies(p, n, offsetMm)
    ensures var s := Summarize(root, p); s.Some? && s.value.normal == n && Dot(n, s.value.originMm) == offsetMm
  {
    var k: real :| LiesAt(p, n, offsetMm, k);
    PlaneAt(p, n, offsetMm, k);
    PlaneRoundTrip(root, Scale(offsetMm, n), n, k);
    ScaledSelf(offsetMm, n);
  }

  lemma {:induction false} SummarizedLies(root: Root, p: Plane)
    requires IsRoot(root) && Summarize(root, p).Some?
    ensures var s := Summarize(root, p).value; Lies(p, s.normal, Dot(s.normal, s.originMm))
  {
    var v := Vec3(p.a, p.b, p.c);
    var length := root(Dot(v, v));
    var n := Summarize(root, p).value.normal;
    assert Normalize(root, v) == Some(n);
    UnitLength(root, v);
    Shrunk(v.x, length);
    Shrunk(v.y, length);
    Shrunk(v.z, length);
    var offset := -(p.d * MM_PER_INCH) / length;
    Shrunk(-(p.d * MM_PER_INCH), length);
    assert LiesAt(p, n, offset, length);
    LiesSummarized(root, p, n, offset);
  }

  /** Its points, in millimetres, are those at that distance along the normal. */
  lemma {:induction false} PointsOfPlane(p: Plane, n: Vec3, offsetMm: real, q: Vec3)
    requires Lies(p, n, offsetMm)
    ensures p.a * q.x + p.b * q.y + p.c * q.z + p.d == 0.0 <==> Dot(n, Scale(MM_PER_INCH, q)) == offsetMm
  {
    var k: real :| LiesAt(p, n, offsetMm, k);
    var along := Dot(n, q);
    ScaledDot(k, n, q);
    ScaledDot(MM_PER_INCH, q, n);
    DotSwap(n, q);
    DotSwap(n, Scale(MM_PER_INCH, q));
    assert p.a * q.x + p.b * q.y + p.c * q.z == k * along;
    OnPlane(k, along, p.d, offsetMm);
  }

  lemma {:induction false} OnPlane(k: real, along: real, d: real, offsetMm: real)
    requires k > 0.0 && d * MM_PER_INCH == -(k * offsetMm)
    ensures k * along + d == 0.0 <==> MM_PER_INCH * along == offsetMm
  {
    Assoc(k, along, MM_PER_INCH);
    if MM_PER_INCH * along == offsetMm { assert k * offsetMm == (k * along) * MM_PER_INCH; }
    if k * along + d == 0.0 {
      assert (k * along) * MM_PER_INCH == k * offsetMm;
      Cancel(k, along * MM_PER_INCH, offsetMm);
    }
  }

  // ---------- what a fixture asks for ----------

  /** A hundredth of a millimetre, or what the fixture allows if that is more. */
  function Slack(c: Settings): real {
    if c.toleranceMm > 0.01 then c.toleranceMm else 0.01
  }

  ghost predicate UpAsAsked(up: Vec3, u: Vec3, spec: SceneSpec) {
    Upright(u, Minus(spec.targetMm, spec.eyeMm), spec.up) && Near(up, u, 0.000001)
  }

  /** The camera stands and looks where it should, upright, with the right lens, and the scene shows what it should. */
  ghost predicate CameraAsAsked(c: Settings, item: Scene, spec: SceneSpec) {
    && Near(item.eyeMm, spec.eyeMm, Slack(c)) && Near(item.targetMm, spec.targetMm, Slack(c))
    && (exists u :: UpAsAsked(item.up, u, spec))
    && item.perspective == spec.perspective
    && (spec.perspective ==> spec.fovDegrees - 0.000001 <= item.fovDegrees <= spec.fovDegrees + 0.000001)
    && (!spec.perspective ==> spec.heightMm - Slack(c) <= item.heightMm <= spec.heightMm + Slack(c))
    && item.displayPlanes == spec.displayPlane
    && (item.displayCuts <==> spec.sectionId != "")
  }

  /** It is cut by the section with this persistent id, or by none. */
  predicate CutAsAsked(item: Scene, spec: SceneSpec, pids: map<string, int>) {
    if spec.sectionId == "" then item.sectionPid == None
    else spec.sectionId in pids && item.sectionPid == Some(pids[spec.sectionId])
  }

  lemma {:induction false} NearIsClose(a: Vec3, b: Vec3, tolerance: real)
    ensures Close(a, b, tolerance) <==> Near(a, b, tolerance)
  {
  }

  lemma {:induction false} UpIff(c: Settings, up: Vec3, spec: SceneSpec)
    requires IsRoot(c.root)
    ensures (exists u :: UpAsAsked(up, u, spec)) <==>
            var expected := CanonicalUp(c.root, spec.eyeMm, spec.targetMm, spec.up);
            expected.Some? && Close(up, expected.value, 0.000001)
  {
    var expected := CanonicalUp(c.root, spec.eyeMm, spec.targetMm, spec.up);
    if expected.Some? && Close(up, expected.value, 0.000001) {
      CanonicalIff(c.root, spec.eyeMm, spec.targetMm, spec.up, expected.value);
      NearIsClose(up, expected.value, 0.000001);
      assert UpAsAsked(up, expected.value, spec);
    }
    if u :| UpAsAsked(up, u, spec) {
      CanonicalIff(c.root, spec.eyeMm, spec.targetMm, spec.up, u);
      NearIsClose(up, u, 0.000001);
    }
  }

  /** The runner takes a scene for the one it wants exactly if its camera and its cut are as the fixture asks. */
  lemma {:induction false} SceneIff(c: Settings, item: Scene, spec: SceneSpec, pids: map<string, int>)
    requires IsRoot(c.root)
    ensures SceneMatches(c, item, spec, pids) <==> CameraAsAsked(c, item, spec) && CutAsAsked(item, spec, pids)
  {
    UpIff(c, item.up, spec);
    NearIsClose(item.eyeMm, spec.eyeMm, Slack(c));
    NearIsClose(item.targetMm, spec.targetMm, Slack(c));
  }

  ghost predicate PlaneAsAsked(c: Settings, p: Plane, spec: SectionSpec, n: Vec3, offsetMm: real, m: Vec3) {
    && Lies(p, n, offsetMm) && Direction(m, spec.normal) && Near(n, m, 0.000001)
    && Dot(m, spec.pointMm) - Slack(c) <= offsetMm <= Dot(m, spec.pointMm) + Slack(c)
  }

  /** Named and marked as asked, in the direction of the normal, at the distance of the point. */
  ghost predicate SectionAsAsked(c: Settings, item: Section, spec: SectionSpec) {
    && item.name == spec.name && item.symbol == spec.symbol
    && exists n, offsetMm: real, m :: PlaneAsAsked(c, item.plane, spec, n, offsetMm, m)
  }

  lemma {:induction false} SectionAsked(c: Settings, item: Section, spec: SectionSpec)
    requires IsRoot(c.root) && SectionMatches(c, item, spec)
    ensures SectionAsAsked(c, item, spec)
  {
    var s, m := Summarize(c.root, item.plane).value, Normalize(c.root, spec.normal).value;
    SummarizedLies(c.root, item.plane);
    NormalizeIff(c.root, m, spec.normal);
    NearIsClose(s.normal, m, 0.000001);
    assert PlaneAsAsked(c, item.plane, spec, s.normal, Dot(s.normal, s.originMm), m);
  }

  /** The runner takes a section for the one it wants exactly if its name, symbol and plane are as the fixture asks. */
  lemma {:induction false} SectionIff(c: Settings, item: Section, spec: SectionSpec)
    requires IsRoot(c.root)
    ensures SectionMatches(c, item, spec) <==> SectionAsAsked(c, item, spec)
  {
    if SectionMatches(c, item, spec) { SectionAsked(c, item, spec); }
    if SectionAsAsked(c, item, spec) {
      var n, offsetMm: real, m :| PlaneAsAsked(c, item.plane, spec, n, offsetMm, m);
      LiesSummarized(c.root, item.plane, n, offsetMm);
      NormalizeIff(c.root, m, spec.normal);
      NearIsClose(n, m, 0.000001);
    }
  }
}
