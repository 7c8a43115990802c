/** Containment on a LayOut page, over the reals: the viewport fit check and the panel check. */
module Geometry {
  import opened Basics
  import opened Vectors

  datatype Point2 = Point2(x: real, y: real)

  /** Geom::Bounds2d */
  datatype Bounds = Bounds(x: real, y: real, width: real, height: real)

  function Right(b: Bounds): real {
    b.x + b.width
  }

  function Bottom(b: Bounds): real {
    b.y + b.height
  }

  function MinOf(xs: seq<real>): real
    requires xs != []
  {
    if |xs| == 1 then xs[0] else Min(xs[0], MinOf(xs[1..]))
  }

  function MaxOf(xs: seq<real>): real
    requires xs != []
  {
    if |xs| == 1 then xs[0] else Max(xs[0], MaxOf(xs[1..]))
  }

  function Xs(points: seq<Point2>): seq<real> {
    seq(|points|, i requires 0 <= i < |points| => points[i].x)
  }

  function Ys(points: seq<Point2>): seq<real> {
    seq(|points|, i requires 0 <= i < |points| => points[i].y)
  }

  /** The smallest axis-aligned bounds of some points. */
  function Enclosing(points: seq<Point2>): Bounds
    requires points != []
  {
    var xs, ys := Xs(points), Ys(points);
    Bounds(MinOf(xs), MinOf(ys), MaxOf(xs) - MinOf(xs), MaxOf(ys) - MinOf(ys))
  }

  /** The test of both checks: bounds against allowed bounds inset by a margin. */
  predicate FitsInside(b: Bounds, allowed: Bounds, margin: real) {
    && b.x >= allowed.x + margin && b.y >= allowed.y + margin
    && Right(b) <= Right(allowed) - margin && Bottom(b) <= Bottom(allowed) - margin
  }

  predicate Inside(p: Point2, allowed: Bounds, margin: real) {
    && allowed.x + margin <= p.x <= Right(allowed) - margin
    && allowed.y + margin <= p.y <= Bottom(allowed) - margin
  }

  lemma {:induction false} MinMaxBound(xs: seq<real>, low: real, high: real)
    requires xs != []
    ensures low <= MinOf(xs) && MaxOf(xs) <= high <==> forall i :: 0 <= i < |xs| ==> low <= xs[i] <= high
    decreases |xs|
  {
    if |xs| > 1 {
      MinMaxBound(xs[1..], low, high);
      assert (forall i :: 0 <= i < |xs| ==> low <= xs[i] <= high) <==>
             low <= xs[0] <= high && forall i :: 0 <= i < |xs[1..]| ==> low <= xs[1..][i] <= high by {
        if low <= xs[0] <= high && forall i :: 0 <= i < |xs[1..]| ==> low <= xs[1..][i] <= high {
          forall i | 0 <= i < |xs| ensures low <= xs[i] <= high {
            if i > 0 { assert xs[i] == xs[1..][i - 1]; }
          }
        }
      }
    }
  }

  /** Comparing the enclosing bounds is the same as testing every point. */
  lemma {:induction false} FitsIff(points: seq<Point2>, allowed: Bounds, margin: real)
    requires points != []
    ensures FitsInside(Enclosing(points), allowed, margin) <==>
            forall i :: 0 <= i < |points| ==> Inside(points[i], allowed, margin)
  {
    var xs, ys := Xs(points), Ys(points);
    MinMaxBound(xs, allowed.x + margin, Right(allowed) - margin);
    MinMaxBound(ys, allowed.y + margin, Bottom(allowed) - margin);
    assert forall i :: 0 <= i < |points| ==> xs[i] == points[i].x && ys[i] == points[i].y;
    if forall i :: 0 <= i < |points| ==> Inside(points[i], allowed, margin) {
      forall i | 0 <= i < |xs| ensures allowed.x + margin <= xs[i] <= Right(allowed) - margin {
        assert Inside(points[i], allowed, margin);
      }
      forall i | 0 <= i < |ys| ensures allowed.y + margin <= ys[i] <= Bottom(allowed) - margin {
        assert Inside(points[i], allowed, margin);
      }
    }
  }

  // ---------- the viewport ----------

  /** One paper coordinate of an affine (orthographic) projection. */
  datatype Linear = Linear(base: real, slope: Vec3)

  function At(f: Linear, p: Vec3): real {
    f.base + Dot(f.slope, p)
  }

  datatype Projection = Projection(toX: Linear, toY: Linear)

  /** model_to_paper_point */
  function Project(v: Projection, p: Vec3): Point2 {
    Point2(At(v.toX, p), At(v.toY, p))
  }

  function Corners(a: Vec3, b: Vec3): seq<Vec3> {
    [Vec3(a.x, a.y, a.z), Vec3(a.x, a.y, b.z), Vec3(a.x, b.y, a.z), Vec3(a.x, b.y, b.z),
     Vec3(b.x, a.y, a.z), Vec3(b.x, a.y, b.z), Vec3(b.x, b.y, a.z), Vec3(b.x, b.y, b.z)]
  }

  function Projected(v: Projection, ps: seq<Vec3>): seq<Point2> {
    seq(|ps|, i requires 0 <= i < |ps| => Project(v, ps[i]))
  }

  /** projected_model_bounds */
  function ProjectedBounds(v: Projection, a: Vec3, b: Vec3): Bounds {
    Enclosing(Projected(v, Corners(a, b)))
  }

  predicate Between(t: real, a: real, b: real) {
    Min(a, b) <= t <= Max(a, b)
  }

  /** The box spanned by two opposite corners, whichever way round they are given. */
  predicate InBox(p: Vec3, a: Vec3, b: Vec3) {
    Between(p.x, a.x, b.x) && Between(p.y, a.y, b.y) && Between(p.z, a.z, b.z)
  }

  lemma {:induction false} Monotone(k: real, s: real, t: real)
    requires s <= t
    ensures k >= 0.0 ==> k * s <= k * t
    ensures k <= 0.0 ==> k * t <= k * s
  {
    assert k >= 0.0 ==> k * (t - s) >= 0.0;
    assert k <= 0.0 ==> k * (t - s) <= 0.0;
  }

  /** A linear term is largest at one end of an interval. */
  lemma {:induction false} TopEnd(k: real, t: real, a: real, b: real) returns (end: real)
    requires Between(t, a, b)
    ensures (end == a || end == b) && k * t <= k * end
  {
    end := if (k >= 0.0) == (a <= b) then b else a;
    var low, high := Min(a, b), Max(a, b);
    Monotone(k, t, high);
    Monotone(k, low, t);
  }

  lemma {:induction false} CornerIndex(x: real, y: real, z: real, a: Vec3, b: Vec3) returns (i: nat)
    requires (x == a.x || x == b.x) && (y == a.y || y == b.y) && (z == a.z || z == b.z)
    ensures i < 8 && Corners(a, b)[i] == Vec3(x, y, z)
  {
    i := (if x == a.x then 0 else 4) + (if y == a.y then 0 else 2) + (if z == a.z then 0 else 1);
  }

  /** Some corner lies at least as far along a linear coordinate as any point of the box. */
  lemma {:induction false} TopCorner(f: Linear, p: Vec3, a: Vec3, b: Vec3) returns (i: nat)
    requires InBox(p, a, b)
    ensures i < 8 && At(f, p) <= At(f, Corners(a, b)[i])
  {
    var x := TopEnd(f.slope.x, p.x, a.x, b.x);
    var y := TopEnd(f.slope.y, p.y, a.y, b.y);
    var z := TopEnd(f.slope.z, p.z, a.z, b.z);
    i := CornerIndex(x, y, z, a, b);
    AtMost(f, p, Vec3(x, y, z));
  }

  lemma {:induction false} AtMost(f: Linear, p: Vec3, q: Vec3)
    requires f.slope.x * p.x <= f.slope.x * q.x
    requires f.slope.y * p.y <= f.slope.y * q.y
    requires f.slope.z * p.z <= f.slope.z * q.z
    ensures At(f, p) <= At(f, q)
  {
  }

  function Negated(f: Linear): Linear {
    Linear(-f.base, Scale(-1.0, f.slope))
  }

  lemma {:induction false} NegatedAt(f: Linear, p: Vec3)
    ensures At(Negated(f), p) == -At(f, p)
  {
    ScaledDot(-1.0, f.slope, p);
  }

  /** A linear coordinate bounded on the corners is bounded on the whole box. */
  lemma {:induction false} BoundedOnBox(f: Linear, p: Vec3, a: Vec3, b: Vec3, low: real, high: real)
    requires InBox(p, a, b)
    requires forall i :: 0 <= i < 8 ==> low <= At(f, Corners(a, b)[i]) <= high
    ensures low <= At(f, p) <= high
  {
    var i := TopCorner(f, p, a, b);
    var j := TopCorner(Negated(f), p, a, b);
    NegatedAt(f, p);
    NegatedAt(f, Corners(a, b)[j]);
  }

  /**
   The fit check looks at eight corners only, and that is exact: it passes if and only if every
   point of the box projects into the viewport inset by the margin.
   */
  lemma {:induction false} FitMeansWholeBox(v: Projection, a: Vec3, b: Vec3, viewport: Bounds, margin: real)
    ensures FitsInside(ProjectedBounds(v, a, b), viewport, margin) <==>
            forall p :: InBox(p, a, b) ==> Inside(Project(v, p), viewport, margin)
  {
    var corners := Corners(a, b);
    var points := Projected(v, corners);
    FitsIff(points, viewport, margin);
    if FitsInside(ProjectedBounds(v, a, b), viewport, margin) {
      assert forall i :: 0 <= i < 8 ==> Inside(points[i], viewport, margin);
      forall p | InBox(p, a, b) ensures Inside(Project(v, p), viewport, margin) {
        CornersInside(v, p, a, b, viewport, margin);
      }
    }
    if forall p :: InBox(p, a, b) ==> Inside(Project(v, p), viewport, margin) {
      forall i | 0 <= i < |points| ensures Inside(points[i], viewport, margin) {
        assert InBox(corners[i], a, b);
      }
    }
  }

  lemma {:induction false} CornersInside(v: Projection, p: Vec3, a: Vec3, b: Vec3, viewport: Bounds, margin: real)
    requires InBox(p, a, b)
    requires forall i :: 0 <= i < 8 ==> Inside(Projected(v, Corners(a, b))[i], viewport, margin)
    ensures Inside(Project(v, p), viewport, margin)
  {
    forall i | 0 <= i < 8
      ensures viewport.x + margin <= At(v.toX, Corners(a, b)[i]) <= Right(viewport) - margin
      ensures viewport.y + margin <= At(v.toY, Corners(a, b)[i]) <= Bottom(viewport) - margin
    {
      assert Inside(Projected(v, Corners(a, b))[i], viewport, margin);
    }
    BoundedOnBox(v.toX, p, a, b, viewport.x + margin, Right(viewport) - margin);
    BoundedOnBox(v.toY, p, a, b, viewport.y + margin, Bottom(viewport) - margin);
  }

  // ---------- the panel ----------

  /** An entity of a page: its panel role and tags, and the points of its drawing bounds. */
  datatype Entity = Entity(role: string, templatePanel: string, id: string, kind: string, panelTag: string, box: Bounds,
                           drawing: seq<Point2>)

  predicate IsPanel(e: Entity, panelId: string) {
    e.role == "panel" && e.templatePanel == panelId
  }

  function Tagged(es: seq<Entity>, panelId: string): seq<Entity> {
    if es == [] then []
    else (if es[0].panelTag == panelId then [es[0]] else []) + Tagged(es[1..], panelId)
  }

  ghost predicate WithinPanel(e: Entity, panel: Bounds, margin: real) {
    forall i :: 0 <= i < |e.drawing| ==> Inside(e.drawing[i], panel, margin)
  }

  function BoundsMm(b: Bounds): Bounds {
    Bounds(b.x * MM_PER_INCH, b.y * MM_PER_INCH, b.width * MM_PER_INCH, b.height * MM_PER_INCH)
  }

  datatype Violation = Violation(id: string, kind: string, boundsMm: Bounds)

  function ViolationOf(e: Entity): Violation
    requires e.drawing != []
  {
    Violation(e.id, e.kind, BoundsMm(Enclosing(e.drawing)))
  }

  datatype PanelReport =
    | PanelIdRequired
    | PanelMissing
    | ValidationFailed                // no document, no such page, or an entity without drawing points
    | Report(panelBoundsMm: Bounds, entityCount: nat, fits: bool, violations: seq<Violation>)

  /** The document's pages, if it can be opened, and the page asked for, if there is one. */
  predicate HasPage(pages: Option<seq<seq<Entity>>>, index: int) {
    pages.Some? && 0 <= index < |pages.value|
  }

  lemma {:induction false} TaggedMore(es: seq<Entity>, n: nat, panelId: string)
    requires n < |es|
    ensures Tagged(es[..n + 1], panelId) == Tagged(es[..n], panelId) + if es[n].panelTag == panelId then [es[n]] else []
  {
    TaggedSplit(es[..n], [es[n]], panelId);
    assert es[..n + 1] == es[..n] + [es[n]];
    assert [es[n]][1..] == [];
  }

  lemma {:induction false} TaggedSplit(a: seq<Entity>, b: seq<Entity>, panelId: string)
    ensures Tagged(a + b, panelId) == Tagged(a, panelId) + Tagged(b, panelId)
  {
    if a == [] {
      assert a + b == b;
    } else {
      assert (a + b)[1..] == a[1..] + b;
      TaggedSplit(a[1..], b, panelId);
      var first, mid, last := if a[0].panelTag == panelId then [a[0]] else [], Tagged(a[1..], panelId), Tagged(b, panelId);
      assert Tagged(a + b, panelId) == first + (mid + last);
      assert first + (mid + last) == (first + mid) + last;
    }
  }

  /** The entities found outside are listed in page order. */
  ghost predicate Lists(violations: seq<Violation>, tagged: seq<Entity>, panel: Bounds, margin: real)
    decreases |tagged|
  {
    if tagged == [] then violations == []
    else
      var last := tagged[|tagged| - 1];
      if WithinPanel(last, panel, margin) then Lists(violations, tagged[..|tagged| - 1], panel, margin)
      else last.drawing != [] && violations != [] && violations[|violations| - 1] == ViolationOf(last) &&
           Lists(violations[..|violations| - 1], tagged[..|tagged| - 1], panel, margin)
  }

  lemma {:induction false} ListsNext(violations: seq<Violation>, tagged: seq<Entity>, e: Entity, panel: Bounds, margin: real)
    requires e.drawing != [] && Lists(violations, tagged, panel, margin)
    ensures WithinPanel(e, panel, margin) ==> Lists(violations, tagged + [e], panel, margin)
    ensures !WithinPanel(e, panel, margin) ==> Lists(violations + [ViolationOf(e)], tagged + [e], panel, margin)
  {
    assert (tagged + [e])[..|tagged|] == tagged;
    assert (violations + [ViolationOf(e)])[..|violations|] == violations;
  }

  lemma {:induction false} ListsEmpty(violations: seq<Violation>, tagged: seq<Entity>, panel: Bounds, margin: real)
    requires Lists(violations, tagged, panel, margin)
    ensures violations == [] <==> forall i :: 0 <= i < |tagged| ==> WithinPanel(tagged[i], panel, margin)
    decreases |tagged|
  {
    if tagged != [] {
      var init, last := tagged[..|tagged| - 1], tagged[|tagged| - 1];
      if WithinPanel(last, panel, margin) {
        ListsEmpty(violations, init, panel, margin);
        assert forall i :: 0 <= i < |init| ==> init[i] == tagged[i];
        assert (forall i :: 0 <= i < |init| ==> WithinPanel(init[i], panel, margin)) <==>
               forall i :: 0 <= i < |tagged| ==> WithinPanel(tagged[i], panel, margin);
      }
    }
  }

  method DrawingFits(e: Entity, panel: Bounds, margin: real) returns (fits: bool)
    requires e.drawing != []
    ensures fits <==> WithinPanel(e, panel, margin)
  {
    FitsIff(e.drawing, panel, margin);
    return FitsInside(Enclosing(e.drawing), panel, margin);
  }

  ghost predicate FirstPanel(es: seq<Entity>, panelId: string, panel: Entity) {
    exists i :: 0 <= i < |es| && es[i] == panel && IsPanel(es[i], panelId) && forall j :: 0 <= j < i ==> !IsPanel(es[j], panelId)
  }

  /** The first entity of the page that is the panel's template. */
  method FindPanel(es: seq<Entity>, panelId: string) returns (panel: Option<Entity>)
    ensures panel.None? <==> forall i :: 0 <= i < |es| ==> !IsPanel(es[i], panelId)
    ensures panel.Some? ==> FirstPanel(es, panelId, panel.value)
  {
    for i := 0 to |es|
      invariant forall j :: 0 <= j < i ==> !IsPanel(es[j], panelId)
    {
      if IsPanel(es[i], panelId) { return Some(es[i]); }
    }
    return None;
  }

  ghost predicate AllDrawn(tagged: seq<Entity>) {
    forall i :: 0 <= i < |tagged| ==> tagged[i].drawing != []
  }

  lemma {:induction false} DrawnMore(es: seq<Entity>, i: nat, panelId: string)
    requires i < |es| && AllDrawn(Tagged(es[..i], panelId)) && es[i].panelTag == panelId
    ensures Tagged(es[..i + 1], panelId) == Tagged(es[..i], panelId) + [es[i]]
    ensures es[i].drawing != [] ==> AllDrawn(Tagged(es[..i + 1], panelId))
    ensures es[i].drawing == [] ==> !AllDrawn(Tagged(es, panelId))
  {
    TaggedMore(es, i, panelId);
    var before := Tagged(es[..i], panelId);
    if es[i].drawing == [] {
      TaggedSplit(es[..i + 1], es[i + 1..], panelId);
      assert es[..i + 1] + es[i + 1..] == es;
      assert Tagged(es, panelId)[|before|] == es[i];
    }
  }

  /** The loop over the entities of the page. */
  method ScanPanel(es: seq<Entity>, panelId: string, box: Bounds, margin: real)
    returns (drawn: bool, entityCount: nat, violations: seq<Violation>)
    ensures drawn <==> AllDrawn(Tagged(es, panelId))
    ensures drawn ==> entityCount == |Tagged(es, panelId)| && Lists(violations, Tagged(es, panelId), box, margin)
  {
    violations, entityCount := [], 0;
    for i := 0 to |es|
      invariant entityCount == |Tagged(es[..i], panelId)| && AllDrawn(Tagged(es[..i], panelId))
      invariant Lists(violations, Tagged(es[..i], panelId), box, margin)
    {
      var e := es[i];
      if e.panelTag == panelId {
        DrawnMore(es, i, panelId);
        entityCount := entityCount + 1;
        if e.drawing == [] { return false, entityCount, violations; }
        ListsNext(violations, Tagged(es[..i], panelId), e, box, margin);
        var fits := DrawingFits(e, box, margin);
        if !fits { violations := violations + [ViolationOf(e)]; }
      } else {
        TaggedMore(es, i, panelId);
        assert Tagged(es[..i + 1], panelId) == Tagged(es[..i], panelId);
      }
    }
    assert es[..|es|] == es;
    return true, entityCount, violations;
  }

  /** The check of one page. */
  method CheckPanel(es: seq<Entity>, panelId: string, margin: real) returns (r: PanelReport, panel: Option<Entity>)
    ensures r.PanelMissing? <==> forall i :: 0 <= i < |es| ==> !IsPanel(es[i], panelId)
    ensures panel.None? <==> r.PanelMissing?
    ensures !r.PanelIdRequired?
    ensures panel.Some? ==> FirstPanel(es, panelId, panel.value)
    ensures panel.Some? ==>
              var tagged := Tagged(es, panelId);
              && (r.ValidationFailed? <==> !AllDrawn(tagged))
              && (r.Report? ==>
                    && r.entityCount == |tagged| && r.panelBoundsMm == BoundsMm(panel.value.box)
                    && (r.fits <==> forall i :: 0 <= i < |tagged| ==> WithinPanel(tagged[i], panel.value.box, margin))
                    && Lists(r.violations, tagged, panel.value.box, margin))
  {
    panel := FindPanel(es, panelId);
    if panel.None? { return PanelMissing, None; }
    var box := panel.value.box;
    var drawn, entityCount, violations := ScanPanel(es, panelId, box, margin);
    if !drawn { return ValidationFailed, panel; }
    ListsEmpty(violations, Tagged(es, panelId), box, margin);
    return Report(BoundsMm(box), entityCount, violations == [], violations), panel;
  }

  /**
   validate_layout_panel, for a panel id without surrounding blanks. The document and the page
   come first, then the id, then the panel. The panel fits exactly when every drawing point of
   every entity tagged with it lies inside the panel inset by the margin; the entities that do
   not are listed with their enclosing bounds, in page order.
   */
  method ValidatePanel(pages: Option<seq<seq<Entity>>>, index: int, panelId: string, margin: real)
    returns (r: PanelReport, panel: Option<Entity>)
    ensures r.PanelIdRequired? <==> HasPage(pages, index) && panelId == ""
    ensures r.PanelMissing? <==>
              HasPage(pages, index) && panelId != "" && forall i :: 0 <= i < |pages.value[index]| ==> !IsPanel(pages.value[index][i], panelId)
    ensures !HasPage(pages, index) ==> r.ValidationFailed? && panel.None?
    ensures panel.Some? <==> HasPage(pages, index) && !r.PanelIdRequired? && !r.PanelMissing?
    ensures panel.Some? ==> FirstPanel(pages.value[index], panelId, panel.value)
    ensures panel.Some? ==>
              var tagged := Tagged(pages.value[index], panelId);
              && (r.ValidationFailed? <==> !AllDrawn(tagged))
              && (r.Report? ==>
                    && r.entityCount == |tagged| && r.panelBoundsMm == BoundsMm(panel.value.box)
                    && (r.fits <==> forall i :: 0 <= i < |tagged| ==> WithinPanel(tagged[i], panel.value.box, margin))
                    && Lists(r.violations, tagged, panel.value.box, margin))
  {
    if !HasPage(pages, index) { return ValidationFailed, None; }
    if panelId == "" { return PanelIdRequired, None; }
    r, panel := CheckPanel(pages.value[index], panelId, margin);
  }
}
