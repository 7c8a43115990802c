/**
 What a successful pass means for the model, in coordinates: every section and scene the fixture
 asks for is there, and one that is there but elsewhere makes the pass fail.
 */
module Asking {
  import opened Basics
  import opened Names
  import opened Vectors
  import opened Presentation
  import opened LiveModel
  import opened Matching
  import opened Passes
  import opened Settling
  import opened Repeating
  import opened Cameras

  // ---------- a prepared model ----------

  /** The one section of the step's name, as asked. */
  ghost predicate SectionStands(c: Settings, sections: seq<Section>, st: Step, i: nat)
    requires st.section.Some?
  {
    Sole(SectionNames(sections), st.section.value.name, i) && SectionAsAsked(c, sections[i], st.section.value)
  }

  /** Item l is the one section of the name that step j, of this id, gives it. */
  ghost predicate SectionFor(sections: seq<Section>, steps: seq<Step>, id: string, j: nat, l: nat)
    requires ValidPresentation(steps)
  {
    && j < |steps| && IsSection(steps[j]) && steps[j].id == id
    && Sole(SectionNames(sections), steps[j].section.value.name, l)
  }

  /** The scene is cut by the section its step names, or by none. */
  ghost predicate CutBy(sections: seq<Section>, steps: seq<Step>, item: Scene, spec: SceneSpec)
    requires ValidPresentation(steps)
  {
    if spec.sectionId == "" then item.sectionPid == None
    else exists j: nat, l: nat :: SectionFor(sections, steps, spec.sectionId, j, l) && item.sectionPid == Some(sections[l].pid)
  }

  /** The one scene of the step's name, its camera as asked, cut by the section it is to be cut by. */
  ghost predicate SceneStands(c: Settings, m: Model, steps: seq<Step>, st: Step, i: nat)
    requires ValidPresentation(steps) && st.scene.Some?
  {
    && Sole(SceneNames(m.scenes), st.scene.value.name, i)
    && CameraAsAsked(c, m.scenes[i], st.scene.value) && CutBy(m.sections, steps, m.scenes[i], st.scene.value)
  }

  ghost predicate StepStands(c: Settings, m: Model, steps: seq<Step>, k: nat)
    requires ValidPresentation(steps) && k < |steps|
  {
    && (IsSection(steps[k]) ==> exists i: nat :: SectionStands(c, m.sections, steps[k], i))
    && (IsScene(steps[k]) ==> exists i: nat :: SceneStands(c, m, steps, steps[k], i))
  }

  /** Everything the fixture asks for is there, once, and as it asks. */
  ghost predicate Stands(c: Settings, m: Model, steps: seq<Step>)
    requires ValidPresentation(steps)
  {
    forall k: nat {:trigger StepStands(c, m, steps, k)} :: k < |steps| ==> StepStands(c, m, steps, k)
  }

  lemma {:induction false} SectionPresentIff(c: Settings, sections: seq<Section>, st: Step, i: nat)
    requires IsRoot(c.root) && st.section.Some?
    ensures SectionStands(c, sections, st, i) ==> Present(c, sections, st) && SectionPresent(c, sections, st, sections[i].pid)
    ensures Sole(SectionNames(sections), st.section.value.name, i) && SectionPresent(c, sections, st, sections[i].pid) ==>
              SectionStands(c, sections, st, i)
  {
    var names, wanted := SectionNames(sections), st.section.value.name;
    if Sole(names, wanted, i) {
      SectionIff(c, sections[i], st.section.value);
      if SectionPresent(c, sections, st, sections[i].pid) {
        var j: nat :| Sole(names, wanted, j) && SectionMatches(c, sections[j], st.section.value) && sections[j].pid == sections[i].pid;
        SoleUnique(names, wanted, i, j);
      }
      if SectionStands(c, sections, st, i) { assert SectionPresent(c, sections, st, sections[i].pid); }
    }
  }

  lemma {:induction false} PresentStands(c: Settings, sections: seq<Section>, st: Step)
    requires IsRoot(c.root) && st.section.Some?
    ensures Present(c, sections, st) <==> exists i: nat :: SectionStands(c, sections, st, i)
  {
    if Present(c, sections, st) {
      var pid :| SectionPresent(c, sections, st, pid);
      var i: nat :| Sole(SectionNames(sections), st.section.value.name, i) && sections[i].pid == pid;
      SectionPresentIff(c, sections, st, i);
      assert SectionStands(c, sections, st, i);
    }
    if i: nat :| SectionStands(c, sections, st, i) { SectionPresentIff(c, sections, st, i); }
  }

  /** The persistent id a fixture's section goes by is that of the one section of its name. */
  lemma {:induction false} PidIs(c: Settings, sections: seq<Section>, steps: seq<Step>, id: string, j: nat, l: nat)
    requires ValidPresentation(steps) && AllSectionsPresent(c, sections, steps) && SectionFor(sections, steps, id, j, l)
    ensures id in PidsIn(c, sections, steps) && PidsIn(c, sections, steps)[id] == sections[l].pid
  {
    SameStep(steps, j);
    assert Present(c, sections, steps[j]);
    var pid :| SectionPresent(c, sections, steps[j], pid);
    var i: nat :| Sole(SectionNames(sections), steps[j].section.value.name, i) && sections[i].pid == pid;
    SoleUnique(SectionNames(sections), steps[j].section.value.name, i, l);
    PidDetermined(c, sections, steps, id, pid);
  }

  lemma {:induction false} SomeSectionFor(c: Settings, sections: seq<Section>, steps: seq<Step>, id: string) returns (j: nat, l: nat)
    requires ValidPresentation(steps) && AllSectionsPresent(c, sections, steps) && id in SectionIds(steps)
    ensures SectionFor(sections, steps, id, j, l)
  {
    var st := StepOf(steps, id);
    j :| 0 <= j < |steps| && steps[j] == st;
    assert Present(c, sections, steps[j]);
    var pid :| SectionPresent(c, sections, steps[j], pid);
    l :| Sole(SectionNames(sections), st.section.value.name, l) && sections[l].pid == pid;
  }

  lemma {:induction false} CutIff(c: Settings, sections: seq<Section>, steps: seq<Step>, item: Scene, spec: SceneSpec)
    requires ValidPresentation(steps) && AllSectionsPresent(c, sections, steps)
    ensures CutAsAsked(item, spec, PidsIn(c, sections, steps)) <==> CutBy(sections, steps, item, spec)
  {
    var pids := PidsIn(c, sections, steps);
    if spec.sectionId != "" {
      if spec.sectionId in pids {
        var j, l := SomeSectionFor(c, sections, steps, spec.sectionId);
        PidIs(c, sections, steps, spec.sectionId, j, l);
      }
      if CutBy(sections, steps, item, spec) {
        var j: nat, l: nat :| SectionFor(sections, steps, spec.sectionId, j, l) && item.sectionPid == Some(sections[l].pid);
        PidIs(c, sections, steps, spec.sectionId, j, l);
      }
    }
  }

  lemma {:induction false} ScenePresentIff(c: Settings, m: Model, steps: seq<Step>, st: Step)
    requires ValidPresentation(steps) && IsRoot(c.root) && AllSectionsPresent(c, m.sections, steps) && st.scene.Some?
    ensures ScenePresent(c, m.scenes, st, PidsIn(c, m.sections, steps)) <==> exists i: nat :: SceneStands(c, m, steps, st, i)
  {
    var pids, names, spec := PidsIn(c, m.sections, steps), SceneNames(m.scenes), st.scene.value;
    if ScenePresent(c, m.scenes, st, pids) {
      var i: nat :| Sole(names, spec.name, i) && SceneMatches(c, m.scenes[i], spec, pids);
      SceneIff(c, m.scenes[i], spec, pids);
      CutIff(c, m.sections, steps, m.scenes[i], spec);
      assert SceneStands(c, m, steps, st, i);
    }
    if i: nat :| SceneStands(c, m, steps, st, i) {
      SceneIff(c, m.scenes[i], spec, pids);
      CutIff(c, m.sections, steps, m.scenes[i], spec);
      assert SceneMatches(c, m.scenes[i], spec, pids);
    }
  }

  /** A model is prepared for a fixture exactly if its sections can be listed and everything stands as the fixture asks. */
  lemma {:induction false} PreparedIff(c: Settings, m: Model, steps: seq<Step>)
    requires ValidPresentation(steps) && IsRoot(c.root)
    ensures Prepared(c, m, steps) <==> AllPlanes(c.root, m.sections) && |m.sections| <= 100 && Stands(c, m, steps)
  {
    if Prepared(c, m, steps) {
      forall k: nat | k < |steps| ensures StepStands(c, m, steps, k) {
        if IsSection(steps[k]) {
          assert Present(c, m.sections, steps[k]);
          PresentStands(c, m.sections, steps[k]);
        }
        if IsScene(steps[k]) { ScenePresentIff(c, m, steps, steps[k]); }
      }
    }
    if AllPlanes(c.root, m.sections) && |m.sections| <= 100 && Stands(c, m, steps) {
      forall k | 0 <= k < |steps| && IsSection(steps[k]) ensures Present(c, m.sections, steps[k]) {
        assert StepStands(c, m, steps, k);
        PresentStands(c, m.sections, steps[k]);
      }
      PidsPresent(c, m.sections, steps);
      forall k | 0 <= k < |steps| && IsScene(steps[k]) ensures ScenePresent(c, m.scenes, steps[k], PidsIn(c, m.sections, steps)) {
        assert StepStands(c, m, steps, k);
        ScenePresentIff(c, m, steps, steps[k]);
      }
    }
  }

  /**
   As long as the tracker attends, a pass that succeeds leaves everything the fixture asks for:
   cameras within the tolerance, upright, with the right lens and cut, and planes of the right
   direction and distance; provided no scene name is a numbered copy of another.
   */
  lemma {:induction false} PassStands(c: Settings, steps: seq<Step>, s: State)
    requires ValidPresentation(steps) && IsRoot(c.root) && InSync(s) && NonConflicting(steps)
    requires var o := Pass(c, steps, s); o.ok && Watched(s, o.state)
    ensures Stands(c, Look(Pass(c, steps, s).state), steps)
  {
    PassWatched(c, steps, s);
    PreparedIff(c, Look(Pass(c, steps, s).state), steps);
  }

  /** The sections stand even if scene names conflict. */
  lemma {:induction false} PassSectionsStand(c: Settings, steps: seq<Step>, s: State, k: nat)
    requires ValidPresentation(steps) && IsRoot(c.root) && InSync(s) && k < |steps| && IsSection(steps[k])
    requires var o := Pass(c, steps, s); o.ok && Watched(s, o.state)
    ensures exists i: nat :: SectionStands(c, Look(Pass(c, steps, s).state).sections, steps[k], i)
  {
    PassWatched(c, steps, s);
    var sections := Look(Pass(c, steps, s).state).sections;
    assert Present(c, sections, steps[k]);
    PresentStands(c, sections, steps[k]);
  }

  // ---------- one that stands elsewhere ----------

  lemma {:induction false} LoopFails(turn: Turner, i: nat, n: nat, k: nat, s: State)
    requires i <= k < n && forall s {:trigger turn(k, s)} :: !turn(k, s).ok
    ensures !Loop(turn, i, n, s).ok
    decreases n - i
  {
    var o := turn(i, s);
    if o.ok { LoopFails(turn, i + 1, n, k, o.state); }
  }

  /** A listed scene of the name whose camera is not as asked ends the loop, in every state. */
  lemma {:induction false} ScenesRefuse(c: Settings, steps: seq<Step>, items: seq<Scene>, s: State, k: nat, i: nat)
    requires ValidPresentation(steps) && IsRoot(c.root) && k < |steps| && IsScene(steps[k])
    requires Sole(SceneNames(items), steps[k].scene.value.name, i) && !CameraAsAsked(c, items[i], steps[k].scene.value)
    ensures !Scenes(c, steps, items, s).ok
  {
    var turn := SceneTurns(c, steps, items);
    ReuseSole(SceneNames(items), steps[k].scene.value.name, i);
    forall s ensures !turn(k, s).ok {
      SceneIff(c, items[i], steps[k].scene.value, Pids(s.refs));
    }
    LoopFails(turn, 0, |steps|, k, s);
  }

  /** A listed section of the name that is not as asked ends the loop, in every state. */
  lemma {:induction false} SectionsRefuse(c: Settings, steps: seq<Step>, items: seq<Section>, s: State, k: nat, i: nat)
    requires ValidPresentation(steps) && IsRoot(c.root) && k < |steps| && IsSection(steps[k])
    requires Sole(SectionNames(items), steps[k].section.value.name, i) && !SectionAsAsked(c, items[i], steps[k].section.value)
    ensures !Sections(c, steps, items, s).ok
  {
    var turn := SectionTurns(c, steps, items);
    ReuseSole(SectionNames(items), steps[k].section.value.name, i);
    SectionIff(c, items[i], steps[k].section.value);
    forall s ensures !turn(k, s).ok {
    }
    LoopFails(turn, 0, |steps|, k, s);
  }

  /** A pass that lists a section of the name that is not as asked fails, whatever others do. */
  lemma {:induction false} PassRefusesSection(c: Settings, steps: seq<Step>, s: State, k: nat, i: nat)
    requires ValidPresentation(steps) && IsRoot(c.root) && k < |steps| && IsSection(steps[k]) && SectionList(c, s).Some?
    requires Sole(SectionNames(SectionList(c, s).value), steps[k].section.value.name, i)
    requires !SectionAsAsked(c, SectionList(c, s).value[i], steps[k].section.value)
    ensures !Pass(c, steps, s).ok
  {
    SectionsRefuse(c, steps, SectionList(c, s).value, Calling(s), k, i);
  }

  /** While the tracker attends, the scenes the pass lists are those that were there before. */
  lemma {:induction false} ScenesListed(c: Settings, steps: seq<Step>, s: State)
    requires ValidPresentation(steps) && InSync(s)
    requires var o := Pass(c, steps, s); o.ok && Watched(s, o.state)
    ensures var s1 := Refreshed(c, steps, SectionHalf(c, steps, s).state).0;
            && SceneHalf(c, steps, s1).ok && SceneList(s1) == Some(Look(s).scenes)
  {
    var a := SectionHalf(c, steps, s);
    var s1 := Refreshed(c, steps, a.state).0;
    var b := SceneHalf(c, steps, s1);
    SectionHalfCounts(c, steps, s);
    RefreshedCounts(c, steps, a.state);
    SceneHalfCounts(c, steps, s1);
    LeadsOn(a.state.host.live, s1.host.live, b.state.host.live);
    Between(s, a.state, b.state);
    Between(a.state, s1, b.state);
    SectionHalfWatched(c, steps, s);
    CallWatched(a.state);
    FirstCallWatched(c, steps, s1);
  }

  lemma {:induction false} FirstCallWatched(c: Settings, steps: seq<Step>, s: State)
    requires ValidPresentation(steps) && InSync(s) && SceneHalf(c, steps, s).ok && Watched(s, SceneHalf(c, steps, s).state)
    ensures SceneList(s) == Some(Look(s).scenes)
  {
    var items := SceneList(s).value;
    CallLeads(s.host);
    ScenesCount(c, steps, items, Calling(s));
    Between(s, Calling(s), Scenes(c, steps, items, Calling(s)).state);
    CallWatched(s);
  }

  /** While the tracker attends, a pass over a model whose scene of the name has its camera elsewhere fails. */
  lemma {:induction false} PassRefusesScene(c: Settings, steps: seq<Step>, s: State, k: nat, i: nat)
    requires ValidPresentation(steps) && IsRoot(c.root) && InSync(s) && Watched(s, Pass(c, steps, s).state)
    requires k < |steps| && IsScene(steps[k]) && Sole(SceneNames(Look(s).scenes), steps[k].scene.value.name, i)
    requires !CameraAsAsked(c, Look(s).scenes[i], steps[k].scene.value)
    ensures !Pass(c, steps, s).ok
  {
    if Pass(c, steps, s).ok {
      ScenesListed(c, steps, s);
      var s1 := Refreshed(c, steps, SectionHalf(c, steps, s).state).0;
      ScenesRefuse(c, steps, Look(s).scenes, Calling(s1), k, i);
    }
  }

  lemma {:induction false} SameSole(before: seq<Scene>, after: seq<Scene>, wanted: string, i: nat, j: nat)
    requires before <= after && Sole(SceneNames(before), wanted, i) && Sole(SceneNames(after), wanted, j)
    ensures i == j && before[i] == after[j]
  {
    assert SceneNames(after)[i] == SceneNames(before)[i];
  }

  ghost predicate StillStands(c: Settings, m: Model, steps: seq<Step>, before: seq<Scene>, st: Step, i: nat)
    requires ValidPresentation(steps) && st.scene.Some? && i < |before|
  {
    before <= m.scenes && CameraAsAsked(c, before[i], st.scene.value) && CutBy(m.sections, steps, before[i], st.scene.value)
  }

  lemma {:induction false} SoleStands(c: Settings, m: Model, steps: seq<Step>, before: seq<Scene>, k: nat, i: nat)
    requires ValidPresentation(steps) && Stands(c, m, steps) && before <= m.scenes
    requires k < |steps| && IsScene(steps[k]) && Sole(SceneNames(before), steps[k].scene.value.name, i)
    ensures StillStands(c, m, steps, before, steps[k], i)
  {
    assert StepStands(c, m, steps, k);
    var j: nat :| SceneStands(c, m, steps, steps[k], j);
    SameSole(before, m.scenes, steps[k].scene.value.name, i, j);
  }

  /** A scene that is reused stands as asked, and is cut by the fixture's own section. */
  lemma {:induction false} ReusedStands(c: Settings, steps: seq<Step>, s: State, k: nat, i: nat)
    requires ValidPresentation(steps) && IsRoot(c.root) && InSync(s) && NonConflicting(steps)
    requires var o := Pass(c, steps, s); o.ok && Watched(s, o.state)
    requires k < |steps| && IsScene(steps[k]) && Sole(SceneNames(Look(s).scenes), steps[k].scene.value.name, i)
    ensures StillStands(c, Look(Pass(c, steps, s).state), steps, Look(s).scenes, steps[k], i)
  {
    PassWatched(c, steps, s);
    PassStands(c, steps, s);
    SoleStands(c, Look(Pass(c, steps, s).state), steps, Look(s).scenes, k, i);
  }

  /** With nobody else at work: a repetition succeeds exactly if all stands as asked and can be listed. */
  lemma {:induction false} RepeatsIfStanding(c: Settings, steps: seq<Step>, s: State)
    requires ValidPresentation(steps) && IsRoot(c.root) && InSync(s) && Quiet(s.host, false)
    ensures var m := Look(s);
            Repeated(c, steps, s).ok <==>
            AllPlanes(c.root, m.sections) && |m.sections| <= 100 && |m.scenes| <= 100 && Stands(c, m, steps)
  {
    RepeatsIff(c, steps, s);
    PreparedIff(c, Look(s), steps);
  }

  // ---------- what is made from one specification, taken for another ----------

  /** The two scenes have the same camera, within what the runner allows. */
  ghost predicate SameCamera(c: Settings, a: SceneSpec, b: SceneSpec) {
    && Near(a.eyeMm, b.eyeMm, Slack(c)) && Near(a.targetMm, b.targetMm, Slack(c))
    && (exists u, v :: Upright(u, Minus(a.targetMm, a.eyeMm), a.up) && UpAsAsked(u, v, b))
    && a.perspective == b.perspective
    && (b.perspective ==> b.fovDegrees - 0.000001 <= a.fovDegrees <= b.fovDegrees + 0.000001)
    && (!b.perspective ==> b.heightMm - Slack(c) <= a.heightMm <= b.heightMm + Slack(c))
    && a.displayPlane == b.displayPlane
  }

  /** What was created from one specification is taken for another exactly if the cameras agree and the cut is the right one. */
  lemma {:induction false} CreatedFromAnother(c: Settings, a: SceneSpec, b: SceneSpec, pid: Option<int>, pids: map<string, int>)
    requires IsRoot(c.root) && NewScene(c, a, pid).Some?
    ensures SceneMatches(c, NewScene(c, a, pid).value, b, pids) <==>
            && SameCamera(c, a, b)
            && (if b.sectionId == "" then pid == None else b.sectionId in pids && pid == Some(pids[b.sectionId]))
  {
    var item := NewScene(c, a, pid).value;
    SceneIff(c, item, b, pids);
    CanonicalIff(c.root, a.eyeMm, a.targetMm, a.up, item.up);
    if CameraAsAsked(c, item, b) {
      var v :| UpAsAsked(item.up, v, b);
      assert Upright(item.up, Minus(a.targetMm, a.eyeMm), a.up) && UpAsAsked(item.up, v, b);
    }
    if SameCamera(c, a, b) {
      var u, v :| Upright(u, Minus(a.targetMm, a.eyeMm), a.up) && UpAsAsked(u, v, b);
      CanonicalIff(c.root, a.eyeMm, a.targetMm, a.up, u);
    }
  }

  ghost predicate PlanesAgree(c: Settings, a: SectionSpec, b: SectionSpec, n: Vec3, m: Vec3) {
    && Direction(n, a.normal) && Direction(m, b.normal) && Near(n, m, 0.000001)
    && Dot(m, b.pointMm) - Slack(c) <= Dot(n, a.pointMm) <= Dot(m, b.pointMm) + Slack(c)
  }

  lemma {:induction false} NewPlaneLies(c: Settings, a: SectionSpec, t: Turn)
    requires IsRoot(c.root) && NewSection(c, a, t).Some?
    ensures var n := Normalize(c.root, a.normal).value;
            Direction(n, a.normal) && Lies(NewSection(c, a, t).value.plane, n, Dot(n, a.pointMm))
  {
    var n := Normalize(c.root, a.normal).value;
    NormalizeIff(c.root, n, a.normal);
    PlaneRoundTrip(c.root, a.pointMm, n, t.scale);
    SummarizedLies(c.root, NewSection(c, a, t).value.plane);
  }

  /** Likewise for sections: the name, the symbol it ended up with, and the plane. */
  lemma {:induction false} SectionFromAnother(c: Settings, a: SectionSpec, b: SectionSpec, t: Turn)
    requires IsRoot(c.root) && NewSection(c, a, t).Some?
    ensures SectionMatches(c, NewSection(c, a, t).value, b) <==>
            && a.name == b.name && (if a.symbol == "" then t.symbol else a.symbol) == b.symbol
            && exists n, m :: PlanesAgree(c, a, b, n, m)
  {
    var item, u := NewSection(c, a, t).value, Normalize(c.root, a.normal).value;
    NewPlaneLies(c, a, t);
    SectionIff(c, item, b);
    if SectionAsAsked(c, item, b) {
      var n, offsetMm: real, m :| PlaneAsAsked(c, item.plane, b, n, offsetMm, m);
      LiesSummarized(c.root, item.plane, n, offsetMm);
      LiesSummarized(c.root, item.plane, u, Dot(u, a.pointMm));
      assert PlanesAgree(c, a, b, u, m);
    }
    if n, m :| PlanesAgree(c, a, b, n, m) {
      NormalizeIff(c.root, n, a.normal);
      if a.name == b.name && (if a.symbol == "" then t.symbol else a.symbol) == b.symbol {
        assert PlaneAsAsked(c, item.plane, b, u, Dot(u, a.pointMm), m);
      }
    }
  }
}
