/**
 Valid fixtures whose first presentation pass succeeds and whose second cannot: one because of
 its names, one because of an edit the tracker hides.
 */
module Fixtures {
  import opened Basics
  import opened Names
  import opened Vectors
  import opened Presentation
  import opened LiveModel
  import opened Matching
  import opened Passes
  import opened Settling
  import opened Repeating
  import opened Runner
  import Mutations
  import Tracking

  const EYE := Vec3(0.0, -1.0, 0.0)
  const TARGET := Vec3(0.0, 0.0, 0.0)
  const UP := Vec3(0.0, 0.0, 1.0)

  function FrontView(name: string): SceneSpec {
    SceneSpec(name, EYE, TARGET, UP, true, 0.0, 45.0, "", false)
  }

  function SceneStep(name: string): Step {
    Step(SceneKind, "", None, Some(FrontView(name)))
  }

  function TwoScenes(a: string, b: string): seq<Step> {
    [SceneStep(a), SceneStep(b)]
  }

  lemma {:induction false} ByteSizeBound(s: string)
    ensures Mutations.ByteSize(s) <= 4 * |s|
  {
    if s != [] { ByteSizeBound(s[1..]); }
  }

  lemma {:induction false} Visible(name: string)
    requires |name| <= 32 && name != "" && name[0] == 'P' && !Space(name[|name| - 1])
    ensures ValidName(name)
  {
    assert TrimLeft(name) == name && TrimRight(name) == name;
    assert 'P' in name;
    ByteSizeBound(name);
  }

  lemma {:induction false} UnitVector(root: Root, v: Vec3)
    requires IsRoot(root) && Dot(v, v) == 1.0
    ensures Normalize(root, v) == Some(v)
  {
    RootOfSquare(root, 1.0);
  }

  /** A unit up vector perpendicular to a unit view direction is canonical. */
  lemma {:induction false} Upright(root: Root, eye: Vec3, target: Vec3, up: Vec3)
    requires IsRoot(root) && Dot(up, up) == 1.0
    requires var d := Minus(target, eye); Dot(d, d) == 1.0 && Dot(up, d) == 0.0
    ensures CanonicalUp(root, eye, target, up) == Some(up)
  {
    var d := Minus(target, eye);
    UnitVector(root, d);
    UnitVector(root, up);
    assert Minus(up, Scale(0.0, d)) == up;
  }

  const ALONG_Y := Vec3(0.0, 1.0, 0.0)

  lemma {:induction false} DotY(v: Vec3)
    ensures Dot(ALONG_Y, v) == v.y
  {
  }

  lemma {:induction false} DotZ(v: Vec3)
    ensures Dot(UP, v) == v.z
  {
  }

  lemma {:induction false} Axes()
    ensures Dot(Minus(TARGET, EYE), Minus(TARGET, EYE)) == 1.0 && Dot(UP, Minus(TARGET, EYE)) == 0.0 && Dot(UP, UP) == 1.0
  {
    assert Minus(TARGET, EYE) == ALONG_Y;
    DotY(ALONG_Y);
    DotZ(ALONG_Y);
    DotZ(UP);
  }

  lemma {:induction false} CameraStands(root: Root)
    requires IsRoot(root)
    ensures CanonicalUp(root, EYE, TARGET, UP) == Some(UP)
  {
    Axes();
    Upright(root, EYE, TARGET, UP);
  }

  lemma {:induction false} FrontViewCreatable(c: Settings, name: string)
    requires CanonicalUp(c.root, EYE, TARGET, UP) == Some(UP) && ValidName(name)
    ensures CreatableScene(c, FrontView(name))
  {
  }

  lemma {:induction false} TwoScenesCreatable(c: Settings, a: string, b: string)
    requires IsRoot(c.root) && ValidName(a) && ValidName(b)
    ensures var steps := TwoScenes(a, b);
            forall k :: 0 <= k < |steps| ==> IsScene(steps[k]) && CreatableScene(c, steps[k].scene.value)
  {
    CameraStands(c.root);
    FrontViewCreatable(c, a);
    FrontViewCreatable(c, b);
  }

  lemma {:induction false} TwoScenesValid(a: string, b: string)
    requires ValidName(a) && ValidName(b) && a != b
    ensures ValidPresentation(TwoScenes(a, b))
    ensures Duplicate(a, b) ==> !NonConflicting(TwoScenes(a, b))
  {
    var steps := TwoScenes(a, b);
    assert steps[0].scene.value.name == a && steps[1].scene.value.name == b;
    assert Apart(steps[0], steps[1]);
  }

  lemma {:induction false} NoSections(steps: seq<Step>, n: nat)
    requires n <= |steps| && forall k :: 0 <= k < n ==> IsScene(steps[k])
    ensures MissingSections([], steps, n) == 0
  {
    if n > 0 { NoSections(steps, n - 1); }
  }

  /** An empty model is ready for any fixture of creatable scenes. */
  lemma {:induction false} EmptyIsReady(c: Settings, steps: seq<Step>, m: Model)
    requires IsRoot(c.root) && ValidPresentation(steps) && m.sections == [] && m.scenes == []
    requires forall k :: 0 <= k < |steps| ==> IsScene(steps[k]) && CreatableScene(c, steps[k].scene.value)
    ensures PassReady(c, m, steps, map[], true)
  {
    NoSections(steps, |steps|);
    forall k: nat | k < |steps|
      ensures SectionReady(c, [], steps, k, true) && SceneReady(c, [], steps, k, map[], true)
    {
      assert SceneMissing([], steps[k]);
    }
  }

  // ---------- a numbered copy ----------

  /** A process whose one model, just tracked, holds these contents. */
  function Opened(contents: Contents): Live {
    var app := Tracking.Host(0, map[0 := "model"], map[]);
    Live(app, Tracking.TrackAt(app, Tracking.Fresh, 0), map[0 := contents], true)
  }

  lemma {:induction false} OpenedShows(contents: Contents)
    ensures Shown(Opened(contents)) == Model("model", 0, contents.sections, contents.scenes) && Observes(Opened(contents))
  {
  }

  lemma {:induction false} NumberedFixture(c: Settings, m: Model)
    requires IsRoot(c.root) && m.sections == [] && m.scenes == []
    ensures var steps := TwoScenes("Plan", "Plan (2)");
            ValidPresentation(steps) && !NonConflicting(steps) && PassReady(c, m, steps, map[], true)
  {
    Visible("Plan");
    Visible("Plan (2)");
    NumberedNamesConflict();
    TwoScenesValid("Plan", "Plan (2)");
    TwoScenesCreatable(c, "Plan", "Plan (2)");
    EmptyIsReady(c, TwoScenes("Plan", "Plan (2)"), m);
  }

  /**
   Idempotence fails: on an empty model, with nobody interfering, the first pass over a valid
   fixture of two scenes, "Plan" and "Plan (2)", creates both, and the second pass over the
   result fails.
   */
  method SecondPassFails(c: Settings) returns (runner: PresentationRunner, first: bool, second: bool)
    requires IsRoot(c.root)
    ensures fresh(runner) && runner.c == c && runner.steps == TwoScenes("Plan", "Plan (2)") && ValidPresentation(runner.steps)
    ensures first && !second
  {
    var steps, host := TwoScenes("Plan", "Plan (2)"), Host(Opened(Contents([], [])), []);
    NumberedFixture(c, ModelOf(host));
    runner := new PresentationRunner(c, steps, host);
    PassSucceeds(c, steps, runner.View(), map[], true);
    ghost var middle;
    first, middle, second := runner.PrepareTwice([]);
  }

  // ---------- a hidden edit ----------

  lemma {:induction false} NotACopyOf(base: string, candidate: string)
    requires |base| > 1 && |candidate| > 1 && base[1] != candidate[1]
    ensures !Duplicate(base, candidate) && base != candidate
  {
  }

  lemma {:induction false} TwoScenesApart(a: string, b: string)
    requires ValidName(a) && ValidName(b) && !Duplicate(a, b) && !Duplicate(b, a) && a != b
    ensures ValidPresentation(TwoScenes(a, b)) && NonConflicting(TwoScenes(a, b))
  {
    TwoScenesValid(a, b);
    var steps := TwoScenes(a, b);
    forall k, j | 0 <= k < |steps| && 0 <= j < |steps| && k != j
      ensures !Duplicate(steps[k].scene.value.name, steps[j].scene.value.name)
    {
      assert steps[0].scene.value.name == a && steps[1].scene.value.name == b;
    }
  }

  /** Somebody deletes the model's scenes, then leaves for another model and comes back: the count restarts at 0. */
  const HIDDEN := Edit([Tracking.Transaction(0), Tracking.Activate(1), Tracking.Notify(1), Tracking.Activate(0), Tracking.Notify(0)],
                       map[0 := Contents([], [])])

  /** The edit happens just before the fourth call, which creates the second scene. */
  const HIDING := [CALM, CALM, CALM, Turn(HIDDEN, false, NO_EDIT, 1, 1.0, "A")]

  /** A call nothing interferes with, while the tracker observes the model, changes nothing. */
  lemma {:induction false} CalmCall(s: State)
    requires Observes(s.host.live) && s.host.script != [] && s.host.script[0] == CALM
    ensures Calling(s) == s.(host := Host(s.host.live, s.host.script[1..]))
  {
    EditedByNobody(s.host.live, NO_EDIT);
  }

  lemma {:induction false} SceneStepsOnly(c: Settings, a: string, b: string, items: seq<Section>, at: nat, s: State)
    requires ValidPresentation(TwoScenes(a, b))
    ensures Sections(c, TwoScenes(a, b), items, s) == Outcome(s, true, 0, 0)
    ensures Collect(c, TwoScenes(a, b), items, at, 2) == Some(map[])
  {
    var steps := TwoScenes(a, b);
    var turn := SectionTurns(c, steps, items);
    assert turn(0, s) == Outcome(s, true, 0, 0) && turn(1, s) == Outcome(s, true, 0, 0);
    assert Loop(turn, 2, 2, s) == Outcome(s, true, 0, 0);
    assert Loop(turn, 1, 2, s) == Outcome(s, true, 0, 0);
    assert Collect(c, steps, items, at, 0) == Some(map[]);
    assert Collect(c, steps, items, at, 1) == Some(map[]);
  }

  /** What the hidden edit leaves: the model shows the known GUID and revision, without the scene that was listed. */
  lemma {:induction false} HiddenShows(l: Live)
    requires l.app == Opened(Contents([], [])).app && l.tracker == Opened(Contents([], [])).tracker && l.watched
    ensures var l' := Looked(Edited(l, HIDDEN));
            Shown(l') == Model("model", 0, [], []) && Observes(l') && l'.app.active == 0
  {
  }

  function HiddenStart(a: Scene): State {
    State(Host(Opened(Contents([], [a])), HIDING), "model", 0, map[])
  }

  /** The state after n calls of the pass. */
  function HiddenAt(a: Scene, n: nat): State
    requires n <= 3
  {
    HiddenStart(a).(host := Host(Opened(Contents([], [a])), HIDING[n..]))
  }

  lemma {:induction false} HiddenCall(a: Scene, n: nat)
    requires n < 3
    ensures Calling(HiddenAt(a, n)) == HiddenAt(a, n + 1)
    ensures Look(HiddenAt(a, n + 1)) == Model("model", 0, [], [a]) && !Now(HiddenAt(a, n).host).fails
  {
    OpenedShows(Contents([], [a]));
    assert HIDING[n..][1..] == HIDING[n + 1..];
    CalmCall(HiddenAt(a, n));
  }

  /** The fourth call creates the second scene after the hidden edit, which nothing tells the runner of. */
  lemma {:induction false} HiddenCreate(c: Settings, a: Scene, spec: SceneSpec)
    requires CreatableScene(c, spec) && spec.sectionId == ""
    ensures var (s, ok) := MakeScene(c, HiddenAt(a, 3), spec, None);
            ok && Look(s) == Model("model", 1, [], [NewScene(c, spec, None).value])
  {
    var s := HiddenAt(a, 3);
    var s1 := Calling(s);
    assert HIDING[3..][1..] == [];
    HiddenShows(s.host.live);
    MakeQuiet(s1, Contents([], [] + [NewScene(c, spec, None).value]), Now(s.host));
  }

  lemma {:induction false} FirstReused(c: Settings, steps: seq<Step>, a: Scene, s: State)
    requires ValidPresentation(steps) && |steps| == 2 && IsScene(steps[0])
    requires a.name == steps[0].scene.value.name && SceneMatches(c, a, steps[0].scene.value, Pids(s.refs))
    ensures SceneTurn(c, steps, 0, [a], s) == Outcome(s, true, 0, 1)
  {
    assert Sole(SceneNames([a]), steps[0].scene.value.name, 0);
    ReuseSole(SceneNames([a]), steps[0].scene.value.name, 0);
  }

  lemma {:induction false} SecondCreated(c: Settings, steps: seq<Step>, a: Scene, s: State)
    requires ValidPresentation(steps) && |steps| == 2 && IsScene(steps[1]) && steps[1].scene.value.sectionId == ""
    requires a.name != steps[1].scene.value.name && !Duplicate(steps[1].scene.value.name, a.name)
    ensures SceneTurn(c, steps, 1, [a], s) == Creating(MakeScene(c, s, steps[1].scene.value, None))
  {
    assert Absent(SceneNames([a]), steps[1].scene.value.name);
  }

  /** The two scenes "Plan" and "Porch", and the scene that a pass made of the first. */
  lemma {:induction false} ApartFixture(c: Settings) returns (a: Scene)
    requires IsRoot(c.root)
    ensures NewScene(c, FrontView("Plan"), None) == Some(a)
    ensures var steps := TwoScenes("Plan", "Porch");
            && ValidPresentation(steps) && NonConflicting(steps) && CreatableScene(c, FrontView("Porch"))
            && a.name == "Plan" && SceneMatches(c, a, FrontView("Plan"), map[])
    ensures "Plan" != "Porch" && !Duplicate("Porch", "Plan")
  {
    Visible("Plan");
    Visible("Porch");
    NotACopyOf("Plan", "Porch");
    NotACopyOf("Porch", "Plan");
    TwoScenesApart("Plan", "Porch");
    CameraStands(c.root);
    FrontViewCreatable(c, "Plan");
    FrontViewCreatable(c, "Porch");
    a := NewScene(c, FrontView("Plan"), None).value;
    CreatedSceneMatches(c, FrontView("Plan"), map[]);
  }

  /** The scenes of the pass: the first is reused from the list, the second created without the first being there. */
  lemma {:induction false} HiddenScenes(c: Settings, a: Scene)
    requires var steps := TwoScenes("Plan", "Porch");
             && ValidPresentation(steps) && CreatableScene(c, FrontView("Porch"))
             && a.name == "Plan" && SceneMatches(c, a, FrontView("Plan"), map[])
    requires "Plan" != "Porch" && !Duplicate("Porch", "Plan")
    ensures var o := Scenes(c, TwoScenes("Plan", "Porch"), [a], HiddenAt(a, 3));
            && o.ok && o.created == 1 && o.reused == 1
            && Look(o.state) == Model("model", 1, [], [NewScene(c, FrontView("Porch"), None).value])
  {
    var steps, s := TwoScenes("Plan", "Porch"), HiddenAt(a, 3);
    var turn := SceneTurns(c, steps, [a]);
    assert Pids(s.refs) == map[];
    FirstReused(c, steps, a, s);
    assert turn(0, s) == Outcome(s, true, 0, 1);
    SecondCreated(c, steps, a, s);
    HiddenCreate(c, a, FrontView("Porch"));
    var o := turn(1, s);
    assert Loop(turn, 2, 2, o.state) == Outcome(o.state, true, 0, 0);
    assert Loop(turn, 1, 2, s) == o;
    assert Loop(turn, 0, 2, s) == Then(turn(0, s), o);
  }

  /** The whole pass: it succeeds, although its first scene is gone. */
  lemma {:induction false} HiddenPass(c: Settings, a: Scene)
    requires var steps := TwoScenes("Plan", "Porch");
             && ValidPresentation(steps) && CreatableScene(c, FrontView("Porch"))
             && a.name == "Plan" && SceneMatches(c, a, FrontView("Plan"), map[])
    requires "Plan" != "Porch" && !Duplicate("Porch", "Plan")
    ensures var o := Pass(c, TwoScenes("Plan", "Porch"), HiddenStart(a));
            && o.ok && o.created == 1 && o.reused == 1
            && Look(o.state) == Model("model", 1, [], [NewScene(c, FrontView("Porch"), None).value])
  {
    var steps := TwoScenes("Plan", "Porch");
    assert HIDING[0..] == HIDING;
    assert HiddenStart(a) == HiddenAt(a, 0);
    HiddenCall(a, 0);
    SceneStepsOnly(c, "Plan", "Porch", [], 0, HiddenAt(a, 1));
    assert SectionHalf(c, steps, HiddenAt(a, 0)) == Outcome(HiddenAt(a, 1), true, 0, 0);
    HiddenCall(a, 1);
    assert Refreshed(c, steps, HiddenAt(a, 1)) == (HiddenAt(a, 2), true);
    HiddenCall(a, 2);
    HiddenScenes(c, a);
  }

  lemma {:induction false} NotPrepared(c: Settings, steps: seq<Step>, m: Model)
    requires ValidPresentation(steps) && steps != [] && IsScene(steps[0])
    requires steps[0].scene.value.name !in SceneNames(m.scenes)
    ensures !Prepared(c, m, steps)
  {
    assert !ScenePresent(c, m.scenes, steps[0], PidsIn(c, m.sections, steps));
  }

  /**
   Idempotence fails without any conflict of names, too, when the tracker does not attend: the
   model, known at revision 0, holds the fixture's first scene. After the lists somebody deletes
   it, switches to another model and back, so that the count restarts at the revision that the
   creation of the second scene expects. The first pass succeeds, having reused a scene that is
   no longer there, and the second fails.
   */
  method HiddenEditFails(c: Settings) 
    returns (runner: PresentationRunner, ghost start: State, first: bool, ghost middle: State, second: bool)
    requires IsRoot(c.root)
    ensures fresh(runner) && runner.c == c && ValidPresentation(runner.steps) && NonConflicting(runner.steps)
    ensures InSync(start) && start.revision == 0 && |Look(start).scenes| == 1 && Observes(start.host.live)
    ensures first && middle == Pass(c, runner.steps, start).state && middle.revision == 1 && |Look(middle).scenes| == 1
    ensures !second
  {
    ghost var a := ApartFixture(c);
    var steps, host := TwoScenes("Plan", "Porch"), Host(Opened(Contents([], [NewScene(c, FrontView("Plan"), None).value])), HIDING);
    OpenedShows(Contents([], [a]));
    HiddenPass(c, a);
    runner := new PresentationRunner(c, steps, host);
    start := runner.View();
    assert start == HiddenStart(a);
    first, middle, second := runner.PrepareTwice([]);
    PassCounts(c, steps, HiddenStart(a));
    NotPrepared(c, steps, Look(middle));
  }
}
