/** The presentation a fixture asks for, what the model holds of it, and what a pass may rely on. */
module Matching {
  import opened Basics
  import opened Names
  import opened Vectors
  import opened Presentation
  import opened LiveModel
  import Mutations

  // ---------- matching ----------

  const MAX_ITEMS := 100

  function SectionNames(sections: seq<Section>): seq<string> {
    seq(|sections|, i requires 0 <= i < |sections| => sections[i].name)
  }

  function SceneNames(scenes: seq<Scene>): seq<string> {
    seq(|scenes|, i requires 0 <= i < |scenes| => scenes[i].name)
  }

  /** Listing section planes fails on a plane without a direction. */
  predicate AllPlanes(root: Root, sections: seq<Section>) {
    forall i :: 0 <= i < |sections| ==> Summarize(root, sections[i].plane).Some?
  }

  datatype Settings = Settings(root: Root, toleranceMm: real)

  function Tolerance(c: Settings): real {
    Max(0.01, c.toleranceMm)
  }

  predicate SectionMatches(c: Settings, item: Section, spec: SectionSpec) {
    var listed, expected := Summarize(c.root, item.plane), Normalize(c.root, spec.normal);
    && item.name == spec.name && item.symbol == spec.symbol
    && listed.Some? && expected.Some?
    && Close(listed.value.normal, expected.value, 0.000001)
    && Abs(Dot(listed.value.normal, listed.value.originMm) - Dot(expected.value, spec.pointMm)) <= Tolerance(c)
  }

  predicate SceneMatches(c: Settings, item: Scene, spec: SceneSpec, pids: map<string, int>) {
    var expectedUp := CanonicalUp(c.root, spec.eyeMm, spec.targetMm, spec.up);
    && item.perspective == spec.perspective
    && Close(item.eyeMm, spec.eyeMm, Tolerance(c)) && Close(item.targetMm, spec.targetMm, Tolerance(c))
    && expectedUp.Some? && Close(item.up, expectedUp.value, 0.000001)
    && (if spec.perspective then Abs(item.fovDegrees - spec.fovDegrees) <= 0.000001
        else Abs(item.heightMm - spec.heightMm) <= Tolerance(c))
    && item.displayPlanes == spec.displayPlane
    && item.displayCuts == (spec.sectionId != "")
    && (if spec.sectionId == "" then item.sectionPid.None?
        else spec.sectionId in pids && item.sectionPid == Some(pids[spec.sectionId]))
  }

  // ---------- what is created ----------

  /** Both the tool and the engine refuse a name that is blank to them or longer than 128 bytes. */
  predicate ValidName(name: string) {
    !Blank(name) && !Mutations.Blank(name) && Mutations.ByteSize(name) <= 128
  }

  const NOWHERE := Vec3(0.0, 0.0, 0.0)

  predicate ValidSection(spec: SectionSpec) {
    ValidName(spec.name) && Mutations.ByteSize(spec.symbol) <= 3 && spec.normal != NOWHERE
  }

  predicate ValidScene(spec: SceneSpec) {
    && ValidName(spec.name) && spec.eyeMm != spec.targetMm && spec.up != NOWHERE
    && (if spec.perspective then 1.0 <= spec.fovDegrees <= 120.0 && spec.heightMm == 0.0
        else spec.heightMm > 0.0 && spec.fovDegrees == 0.0)
  }

  /** What the host lists for a section created from a specification. */
  function NewSection(c: Settings, spec: SectionSpec, t: Turn): Option<Section> {
    if !ValidSection(spec) then None
    else
      match Normalize(c.root, spec.normal)
      case None => None
      case Some(unit) =>
        Some(Section(spec.name, if spec.symbol == "" then t.symbol else spec.symbol, t.pid,
                     PlaneThrough(spec.pointMm, unit, t.scale)))
  }

  /** What the host lists for a scene created from a specification: it makes the camera's up vector canonical. */
  function NewScene(c: Settings, spec: SceneSpec, sectionPid: Option<int>): Option<Scene> {
    if !ValidScene(spec) then None
    else
      match CanonicalUp(c.root, spec.eyeMm, spec.targetMm, spec.up)
      case None => None
      case Some(up) =>
        Some(Scene(spec.name, spec.eyeMm, spec.targetMm, up, spec.perspective, if spec.perspective then 0.0 else spec.heightMm,
                   if spec.perspective then spec.fovDegrees else 0.0, sectionPid, sectionPid.Some?, spec.displayPlane))
  }

  lemma {:induction false} CloseToItself(v: Vec3, tolerance: real)
    requires tolerance >= 0.0
    ensures Close(v, v, tolerance)
  {
  }

  /**
   A created section matches the specification it came from, because its plane gives back the
   signed offset - unless the specification leaves the symbol to the host and the host sets one.
   */
  lemma {:induction false} CreatedSectionMatches(c: Settings, spec: SectionSpec, t: Turn)
    requires IsRoot(c.root) && NewSection(c, spec, t).Some?
    ensures SectionMatches(c, NewSection(c, spec, t).value, spec) <==> spec.symbol != "" || t.symbol == ""
  {
    var unit := Normalize(c.root, spec.normal).value;
    UnitLength(c.root, spec.normal);
    PlaneRoundTrip(c.root, spec.pointMm, unit, t.scale);
    CloseToItself(unit, 0.000001);
  }

  /** The specification can be created, and what is created matches it whatever the host chooses. */
  predicate CreatableSection(c: Settings, spec: SectionSpec) {
    ValidSection(spec) && spec.symbol != "" && Normalize(c.root, spec.normal).Some?
  }

  predicate CreatableScene(c: Settings, spec: SceneSpec) {
    ValidScene(spec) && CanonicalUp(c.root, spec.eyeMm, spec.targetMm, spec.up).Some?
  }

  lemma {:induction false} CreatedSceneMatches(c: Settings, spec: SceneSpec, pids: map<string, int>)
    requires spec.sectionId != "" ==> spec.sectionId in pids
    requires NewScene(c, spec, if spec.sectionId == "" then None else Some(pids[spec.sectionId])).Some?
    ensures SceneMatches(c, NewScene(c, spec, if spec.sectionId == "" then None else Some(pids[spec.sectionId])).value, spec, pids)
  {
    CloseToItself(spec.eyeMm, Tolerance(c));
    CloseToItself(spec.targetMm, Tolerance(c));
    CloseToItself(CanonicalUp(c.root, spec.eyeMm, spec.targetMm, spec.up).value, 0.000001);
  }

  // ---------- a settled presentation ----------

  ghost predicate SectionPresent(c: Settings, sections: seq<Section>, st: Step, pid: int)
    requires st.section.Some?
  {
    exists i: nat :: Sole(SectionNames(sections), st.section.value.name, i) &&
                     SectionMatches(c, sections[i], st.section.value) && sections[i].pid == pid
  }

  ghost predicate Present(c: Settings, sections: seq<Section>, st: Step)
    requires st.section.Some?
  {
    exists pid :: SectionPresent(c, sections, st, pid)
  }

  ghost predicate ScenePresent(c: Settings, scenes: seq<Scene>, st: Step, pids: map<string, int>)
    requires st.scene.Some?
  {
    exists i: nat :: Sole(SceneNames(scenes), st.scene.value.name, i) && SceneMatches(c, scenes[i], st.scene.value, pids)
  }

  /** Every section of the fixture is there, under some persistent id, and all can be listed. */
  ghost predicate AllSectionsPresent(c: Settings, sections: seq<Section>, steps: seq<Step>)
    requires ValidPresentation(steps)
  {
    && AllPlanes(c.root, sections) && |sections| <= MAX_ITEMS
    && forall k {:trigger Present(c, sections, steps[k])} :: 0 <= k < |steps| && IsSection(steps[k]) ==> Present(c, sections, steps[k])
  }

  /** The sections are all there, and these are their persistent ids. */
  ghost predicate SectionsPresent(c: Settings, sections: seq<Section>, steps: seq<Step>, pids: map<string, int>)
    requires ValidPresentation(steps)
  {
    && AllSectionsPresent(c, sections, steps)
    && forall k {:trigger SectionPresent(c, sections, steps[k], pids[steps[k].id])} {:trigger Present(c, sections, steps[k])} ::
         0 <= k < |steps| && IsSection(steps[k]) ==>
         steps[k].id in pids && SectionPresent(c, sections, steps[k], pids[steps[k].id])
  }

  ghost predicate ScenesPresent(c: Settings, scenes: seq<Scene>, steps: seq<Step>, pids: map<string, int>)
    requires ValidPresentation(steps)
  {
    forall k :: 0 <= k < |steps| && IsScene(steps[k]) ==> ScenePresent(c, scenes, steps[k], pids)
  }

  ghost predicate Settled(c: Settings, m: Model, steps: seq<Step>, pids: map<string, int>)
    requires ValidPresentation(steps)
  {
    SectionsPresent(c, m.sections, steps, pids) && ScenesPresent(c, m.scenes, steps, pids)
  }

  /** No scene name of the fixture is a numbered copy of another. */
  ghost predicate NonConflicting(steps: seq<Step>)
    requires ValidPresentation(steps)
  {
    forall k, j :: 0 <= k < |steps| && 0 <= j < |steps| && k != j && IsScene(steps[k]) && IsScene(steps[j]) ==>
      !Duplicate(steps[k].scene.value.name, steps[j].scene.value.name)
  }

  function SectionIds(steps: seq<Step>): set<string> {
    set st | st in steps && IsSection(st) :: st.id
  }

  /** How many of the first n steps are of a kind. */
  function Count(steps: seq<Step>, n: nat, kind: Kind): nat
    requires n <= |steps|
  {
    if n == 0 then 0 else Count(steps, n - 1, kind) + if steps[n - 1].kind == kind then 1 else 0
  }

  lemma {:induction false} CountNext(steps: seq<Step>, n: nat, kind: Kind)
    requires n < |steps|
    ensures Count(steps, n + 1, kind) == Count(steps, n, kind) + if steps[n].kind == kind then 1 else 0
  {
  }

  lemma {:induction false} CountsAdd(steps: seq<Step>, n: nat)
    requires n <= |steps| && ValidPresentation(steps)
    ensures Count(steps, n, SectionKind) + Count(steps, n, SceneKind) == n
  {
    if n > 0 {
      CountsAdd(steps, n - 1);
      assert WellFormedStep(steps[n - 1]);
    }
  }

  /** The persistent id of a section of the fixture. */
  ghost function PidIn(c: Settings, sections: seq<Section>, st: Step): int
    requires st.section.Some?
  {
    if Present(c, sections, st) then
      var pid :| SectionPresent(c, sections, st, pid);
      pid
    else 0
  }

  ghost function StepOf(steps: seq<Step>, id: string): (st: Step)
    requires id in SectionIds(steps)
    ensures st in steps && IsSection(st) && st.id == id
  {
    var st :| st in steps && IsSection(st) && st.id == id;
    st
  }

  /** The ids of the sections in a model are determined by their names. */
  ghost function PidsIn(c: Settings, sections: seq<Section>, steps: seq<Step>): map<string, int>
    requires ValidPresentation(steps)
  {
    map id | id in SectionIds(steps) :: PidIn(c, sections, StepOf(steps, id))
  }

  lemma {:induction false} OneStep(steps: seq<Step>, j: nat, k: nat)
    requires ValidPresentation(steps) && j < |steps| && k < |steps|
    requires IsSection(steps[j]) && IsSection(steps[k]) && steps[j].id == steps[k].id
    ensures j == k
  {
    assert j < k ==> Apart(steps[j], steps[k]);
    assert k < j ==> Apart(steps[k], steps[j]);
  }

  lemma {:induction false} SameStep(steps: seq<Step>, k: nat)
    requires ValidPresentation(steps) && k < |steps| && IsSection(steps[k])
    ensures steps[k].id in SectionIds(steps) && StepOf(steps, steps[k].id) == steps[k]
  {
    var st := StepOf(steps, steps[k].id);
    var j :| 0 <= j < |steps| && steps[j] == st;
    OneStep(steps, j, k);
  }

  lemma {:induction false} PidsPresent(c: Settings, sections: seq<Section>, steps: seq<Step>)
    requires ValidPresentation(steps) && AllSectionsPresent(c, sections, steps)
    ensures SectionsPresent(c, sections, steps, PidsIn(c, sections, steps))
  {
    forall k | 0 <= k < |steps| && IsSection(steps[k])
      ensures steps[k].id in PidsIn(c, sections, steps)
      ensures SectionPresent(c, sections, steps[k], PidsIn(c, sections, steps)[steps[k].id])
    {
      SameStep(steps, k);
      assert Present(c, sections, steps[k]);
    }
  }

  lemma {:induction false} PresentListed(c: Settings, sections: seq<Section>, steps: seq<Step>)
    requires ValidPresentation(steps) && AllSectionsPresent(c, sections, steps)
    ensures NoSectionMissing(sections, steps)
  {
    forall k | 0 <= k < |steps| ensures !SectionMissing(sections, steps[k]) {
      if IsSection(steps[k]) {
        assert Present(c, sections, steps[k]);
        var pid :| SectionPresent(c, sections, steps[k], pid);
      }
    }
  }

  /** Each of the ids is the persistent id of a section in the model. */
  lemma {:induction false} PidResolves(c: Settings, sections: seq<Section>, steps: seq<Step>, id: string)
    requires ValidPresentation(steps) && AllSectionsPresent(c, sections, steps) && id in SectionIds(steps)
    ensures exists i :: 0 <= i < |sections| && sections[i].pid == PidsIn(c, sections, steps)[id]
  {
    var st := StepOf(steps, id);
    var k :| 0 <= k < |steps| && steps[k] == st;
    assert SectionPresent(c, sections, st, PidIn(c, sections, st));
    var i: nat :| Sole(SectionNames(sections), st.section.value.name, i) && sections[i].pid == PidIn(c, sections, st);
  }

  lemma {:induction false} PidDetermined(c: Settings, sections: seq<Section>, steps: seq<Step>, id: string, pid: int)
    requires ValidPresentation(steps) && id in SectionIds(steps)
    requires SectionPresent(c, sections, StepOf(steps, id), pid)
    ensures PidsIn(c, sections, steps)[id] == pid
  {
    var st := StepOf(steps, id);
    assert SectionPresent(c, sections, st, PidIn(c, sections, st));
    SamePid(c, sections, st, pid, PidIn(c, sections, st));
  }

  lemma {:induction false} PidsDetermined(c: Settings, sections: seq<Section>, steps: seq<Step>, p: map<string, int>)
    requires ValidPresentation(steps) && p.Keys == SectionIds(steps)
    requires forall k :: 0 <= k < |steps| && IsSection(steps[k]) ==>
               steps[k].id in p && SectionPresent(c, sections, steps[k], p[steps[k].id])
    ensures p == PidsIn(c, sections, steps)
  {
    forall id | id in p ensures p[id] == PidsIn(c, sections, steps)[id] {
      var st := StepOf(steps, id);
      var k :| 0 <= k < |steps| && steps[k] == st;
      PidDetermined(c, sections, steps, id, p[steps[k].id]);
    }
  }

  /** None of these scenes bears the step's name or a numbered copy of it. */
  ghost predicate Foreign(made: seq<Scene>, st: Step)
    requires st.scene.Some?
  {
    Absent(SceneNames(made), st.scene.value.name)
  }

  lemma {:induction false} ForeignMore(made: seq<Scene>, more: seq<Scene>, st: Step)
    requires st.scene.Some? && Foreign(made, st) && Foreign(more, st)
    ensures Foreign(made + more, st)
  {
    assert SceneNames(made + more) == SceneNames(made) + SceneNames(more);
  }

  /** Scenes made for different steps do not get in each other's way. */
  lemma {:induction false} NoClash(steps: seq<Step>, i: nat, k: nat, s: Scene)
    requires ValidPresentation(steps) && NonConflicting(steps) && i < |steps| && k < |steps| && i != k
    requires IsScene(steps[i]) && IsScene(steps[k]) && s.name == steps[i].scene.value.name
    ensures Foreign([s], steps[k])
  {
    assert if k < i then Apart(steps[k], steps[i]) else Apart(steps[i], steps[k]);
  }

  lemma {:induction false} PresentAmong(c: Settings, items: seq<Scene>, made: seq<Scene>, st: Step, pids: map<string, int>)
    requires st.scene.Some? && ScenePresent(c, items, st, pids) && Foreign(made, st)
    ensures ScenePresent(c, items + made, st, pids)
  {
    var wanted := st.scene.value.name;
    var i: nat :| Sole(SceneNames(items), wanted, i) && SceneMatches(c, items[i], st.scene.value, pids);
    assert SceneNames(items + made) == SceneNames(items) + SceneNames(made);
    assert Sole(SceneNames(items + made), wanted, i);
  }

  lemma {:induction false} MadePresent(c: Settings, items: seq<Scene>, made: seq<Scene>, st: Step, pids: map<string, int>, s: Scene)
    requires st.scene.Some? && s.name == st.scene.value.name && SceneMatches(c, s, st.scene.value, pids)
    requires Absent(SceneNames(items), s.name) && Foreign(made, st)
    ensures ScenePresent(c, (items + made) + [s], st, pids)
  {
    var before := items + made;
    assert SceneNames(before) == SceneNames(items) + SceneNames(made);
    AbsentThenSole(SceneNames(before), s.name);
    assert SceneNames(before + [s]) == SceneNames(before) + [s.name];
    assert (before + [s])[|before|] == s;
  }

  // ---------- the same for sections ----------

  ghost predicate ForeignSections(made: seq<Section>, st: Step)
    requires st.section.Some?
  {
    Absent(SectionNames(made), st.section.value.name)
  }

  lemma {:induction false} SectionNamesAdd(a: seq<Section>, b: seq<Section>)
    ensures SectionNames(a + b) == SectionNames(a) + SectionNames(b)
  {
  }

  lemma {:induction false} SectionAmong(c: Settings, items: seq<Section>, made: seq<Section>, st: Step, pid: int)
    requires st.section.Some? && SectionPresent(c, items, st, pid) && ForeignSections(made, st)
    ensures SectionPresent(c, items + made, st, pid)
  {
    var wanted := st.section.value.name;
    var i: nat :| Sole(SectionNames(items), wanted, i) && SectionMatches(c, items[i], st.section.value) && items[i].pid == pid;
    SectionNamesAdd(items, made);
    assert Sole(SectionNames(items + made), wanted, i);
  }

  lemma {:induction false} SectionMadePresent(c: Settings, items: seq<Section>, made: seq<Section>, st: Step, s: Section)
    requires st.section.Some? && s.name == st.section.value.name && SectionMatches(c, s, st.section.value)
    requires Absent(SectionNames(items), s.name) && ForeignSections(made, st)
    ensures SectionPresent(c, (items + made) + [s], st, s.pid)
  {
    var before := items + made;
    SectionNamesAdd(items, made);
    AbsentThenSole(SectionNames(before), s.name);
    SectionNamesAdd(before, [s]);
    assert SectionNames([s]) == [s.name];
    assert (before + [s])[|before|] == s;
  }

  lemma {:induction false} SamePid(c: Settings, sections: seq<Section>, st: Step, p: int, q: int)
    requires st.section.Some? && SectionPresent(c, sections, st, p) && SectionPresent(c, sections, st, q)
    ensures p == q
  {
    var names, wanted := SectionNames(sections), st.section.value.name;
    var i: nat :| Sole(names, wanted, i) && sections[i].pid == p;
    var j: nat :| Sole(names, wanted, j) && sections[j].pid == q;
    SoleUnique(names, wanted, i, j);
  }

  // ---------- what a pass needs to succeed ----------

  ghost predicate SectionMissing(sections: seq<Section>, st: Step) {
    IsSection(st) && st.section.Some? && Absent(SectionNames(sections), st.section.value.name)
  }

  ghost predicate SceneMissing(scenes: seq<Scene>, st: Step) {
    IsScene(st) && st.scene.Some? && Absent(SceneNames(scenes), st.scene.value.name)
  }

  ghost predicate NoSectionMissing(sections: seq<Section>, steps: seq<Step>) {
    forall k :: 0 <= k < |steps| ==> !SectionMissing(sections, steps[k])
  }

  ghost predicate NoSceneMissing(scenes: seq<Scene>, steps: seq<Step>) {
    forall k :: 0 <= k < |steps| ==> !SceneMissing(scenes, steps[k])
  }

  /** How many of the first n steps a pass has to create. */
  ghost function MissingSections(sections: seq<Section>, steps: seq<Step>, n: nat): nat
    requires n <= |steps|
  {
    if n == 0 then 0
    else MissingSections(sections, steps, n - 1) + if SectionMissing(sections, steps[n - 1]) then 1 else 0
  }

  ghost function MissingScenes(scenes: seq<Scene>, steps: seq<Step>, n: nat): nat
    requires n <= |steps|
  {
    if n == 0 then 0
    else MissingScenes(scenes, steps, n - 1) + if SceneMissing(scenes, steps[n - 1]) then 1 else 0
  }

  /** The section is there and matches, or it can be created without getting in the way of another of the fixture. */
  ghost predicate SectionReady(c: Settings, sections: seq<Section>, steps: seq<Step>, k: nat, creates: bool)
    requires k < |steps| && ValidPresentation(steps)
  {
    IsSection(steps[k]) ==>
      || Present(c, sections, steps[k])
      || (&& creates && SectionMissing(sections, steps[k]) && CreatableSection(c, steps[k].section.value)
          && forall j :: 0 <= j < |steps| && j != k && IsSection(steps[j]) ==>
               !Duplicate(steps[j].section.value.name, steps[k].section.value.name))
  }

  ghost predicate SceneReady(c: Settings, scenes: seq<Scene>, steps: seq<Step>, k: nat, pids: map<string, int>, creates: bool)
    requires k < |steps| && ValidPresentation(steps)
  {
    IsScene(steps[k]) ==>
      || ScenePresent(c, scenes, steps[k], pids)
      || (creates && SceneMissing(scenes, steps[k]) && CreatableScene(c, steps[k].scene.value))
  }

  ghost predicate SectionsReady(c: Settings, sections: seq<Section>, steps: seq<Step>, creates: bool)
    requires ValidPresentation(steps)
  {
    && (creates ==> IsRoot(c.root)) && AllPlanes(c.root, sections)
    && |sections| + MissingSections(sections, steps, |steps|) <= MAX_ITEMS
    && forall k: nat {:trigger SectionReady(c, sections, steps, k, creates)} :: k < |steps| ==> SectionReady(c, sections, steps, k, creates)
  }

  ghost predicate ScenesReady(c: Settings, scenes: seq<Scene>, steps: seq<Step>, pids: map<string, int>, creates: bool)
    requires ValidPresentation(steps)
  {
    && |scenes| <= MAX_ITEMS
    && forall k: nat {:trigger SceneReady(c, scenes, steps, k, pids, creates)} :: k < |steps| ==> SceneReady(c, scenes, steps, k, pids, creates)
  }

  /** Every id is the persistent id of a section of the fixture that is there. */
  ghost predicate Known(c: Settings, sections: seq<Section>, steps: seq<Step>, pids: map<string, int>)
    requires ValidPresentation(steps)
  {
    forall id :: id in pids ==>
      exists k :: 0 <= k < |steps| && IsSection(steps[k]) && steps[k].id == id && SectionPresent(c, sections, steps[k], pids[id])
  }

  /** Every step is there and matching, or absent and creatable; the lists are complete; `pids` are known sections. */
  ghost predicate PassReady(c: Settings, m: Model, steps: seq<Step>, pids: map<string, int>, creates: bool)
    requires ValidPresentation(steps)
  {
    && SectionsReady(c, m.sections, steps, creates) && ScenesReady(c, m.scenes, steps, pids, creates)
    && Known(c, m.sections, steps, pids)
  }

  ghost function ToCreate(m: Model, steps: seq<Step>): nat {
    MissingSections(m.sections, steps, |steps|) + MissingScenes(m.scenes, steps, |steps|)
  }

  lemma {:induction false} PresentNotMissing(m: Model, c: Settings, steps: seq<Step>, pids: map<string, int>, k: nat)
    requires ValidPresentation(steps) && k < |steps|
    requires IsSection(steps[k]) ==> steps[k].id in pids && SectionPresent(c, m.sections, steps[k], pids[steps[k].id])
    requires IsScene(steps[k]) ==> ScenePresent(c, m.scenes, steps[k], pids)
    ensures !SectionMissing(m.sections, steps[k]) && !SceneMissing(m.scenes, steps[k])
  {
  }

  lemma {:induction false} NoneMissing(m: Model, c: Settings, steps: seq<Step>, n: nat)
    requires n <= |steps|
    requires forall k :: 0 <= k < n ==> !SectionMissing(m.sections, steps[k]) && !SceneMissing(m.scenes, steps[k])
    ensures MissingSections(m.sections, steps, n) == 0 && MissingScenes(m.scenes, steps, n) == 0
  {
    if n > 0 { NoneMissing(m, c, steps, n - 1); }
  }

  /** A settled presentation that can be listed completely is ready for a pass that has nothing to create. */
  lemma {:induction false} SettledIsReady(m: Model, c: Settings, steps: seq<Step>, pids: map<string, int>)
    requires ValidPresentation(steps) && Settled(c, m, steps, pids) && pids.Keys == SectionIds(steps)
    requires |m.scenes| <= MAX_ITEMS
    ensures PassReady(c, m, steps, pids, false) && ToCreate(m, steps) == 0
  {
    forall k: nat | k < |steps| ensures !SectionMissing(m.sections, steps[k]) && !SceneMissing(m.scenes, steps[k]) {
      PresentNotMissing(m, c, steps, pids, k);
    }
    NoneMissing(m, c, steps, |steps|);
    forall k: nat | k < |steps|
      ensures SectionReady(c, m.sections, steps, k, false) && SceneReady(c, m.scenes, steps, k, pids, false)
    {
      if IsSection(steps[k]) {
        assert Present(c, m.sections, steps[k]);
        assert SectionPresent(c, m.sections, steps[k], pids[steps[k].id]);
      }
      if IsScene(steps[k]) { assert ScenePresent(c, m.scenes, steps[k], pids); }
    }
    forall id | id in pids
      ensures exists k :: 0 <= k < |steps| && IsSection(steps[k]) && steps[k].id == id && SectionPresent(c, m.sections, steps[k], pids[id])
    {
      var st :| st in steps && IsSection(st) && st.id == id;
      var k :| 0 <= k < |steps| && steps[k] == st;
      assert SectionPresent(c, m.sections, steps[k], pids[steps[k].id]);
    }
  }

  /** A scene that matches with the known ids matches with all of them. */
  lemma {:induction false} MorePids(c: Settings, scenes: seq<Scene>, steps: seq<Step>, p: map<string, int>, q: map<string, int>, creates: bool)
    requires ValidPresentation(steps) && ScenesReady(c, scenes, steps, p, creates)
    requires forall id :: id in p ==> id in q && q[id] == p[id]
    ensures ScenesReady(c, scenes, steps, q, creates)
  {
    forall k: nat | k < |steps| ensures SceneReady(c, scenes, steps, k, q, creates) {
      assert SceneReady(c, scenes, steps, k, p, creates);
      if IsScene(steps[k]) && ScenePresent(c, scenes, steps[k], p) {
        var spec := steps[k].scene.value;
        var i: nat :| Sole(SceneNames(scenes), spec.name, i) && SceneMatches(c, scenes[i], spec, p);
        assert SceneMatches(c, scenes[i], spec, q);
      }
    }
  }

  /** From m to m' exactly n items were appended, one revision each, and nothing else changed. */
  ghost predicate Appended(m: Model, m': Model, n: nat) {
    && m'.guid == m.guid && m'.revision == m.revision + n
    && m.sections <= m'.sections && m.scenes <= m'.scenes
    && |m'.sections| + |m'.scenes| == |m.sections| + |m.scenes| + n
  }

  /** The name has one item, or none. */
  ghost predicate Reusable(names: seq<string>, wanted: string) {
    Absent(names, wanted) || exists i: nat :: Sole(names, wanted, i)
  }

  /** Every item of the fixture is there exactly once, without numbered copies. */
  ghost predicate OnceEach(steps: seq<Step>, m: Model, n: nat)
    requires n <= |steps| && ValidPresentation(steps)
  {
    forall k :: 0 <= k < n ==>
      && (IsSection(steps[k]) ==> exists i: nat :: Sole(SectionNames(m.sections), steps[k].section.value.name, i))
      && (IsScene(steps[k]) ==> exists i: nat :: Sole(SceneNames(m.scenes), steps[k].scene.value.name, i))
  }

  lemma {:induction false} SettledOnce(c: Settings, m: Model, steps: seq<Step>, pids: map<string, int>)
    requires ValidPresentation(steps) && Settled(c, m, steps, pids)
    ensures OnceEach(steps, m, |steps|)
  {
    forall k | 0 <= k < |steps|
      ensures IsSection(steps[k]) ==> exists i: nat :: Sole(SectionNames(m.sections), steps[k].section.value.name, i)
      ensures IsScene(steps[k]) ==> exists i: nat :: Sole(SceneNames(m.scenes), steps[k].scene.value.name, i)
    {
      if IsSection(steps[k]) {
        assert Present(c, m.sections, steps[k]);
        assert SectionPresent(c, m.sections, steps[k], pids[steps[k].id]);
      }
      if IsScene(steps[k]) { assert ScenePresent(c, m.scenes, steps[k], pids); }
    }
  }

  /** Every scene name of the fixture is among these scenes' names. */
  ghost predicate SceneListed(steps: seq<Step>, scenes: seq<Scene>)
    requires ValidPresentation(steps)
  {
    forall k :: 0 <= k < |steps| && IsScene(steps[k]) ==> steps[k].scene.value.name in SceneNames(scenes)
  }

  lemma {:induction false} ListedNotMissing(steps: seq<Step>, scenes: seq<Scene>)
    requires ValidPresentation(steps) && SceneListed(steps, scenes)
    ensures NoSceneMissing(scenes, steps)
  {
  }

  /** Two names of which one is a numbered copy of the other cannot both be listed and the first be reusable. */
  lemma {:induction false} CopyNotReusable(names: seq<string>, wanted: string, copy: string)
    requires wanted in names && copy in names && Duplicate(wanted, copy)
    ensures !Reusable(names, wanted)
  {
    var j :| 0 <= j < |names| && names[j] == copy;
    var k :| 0 <= k < |names| && names[k] == wanted;
    forall i: nat ensures !Sole(names, wanted, i) {
      assert i < |names| && names[i] == wanted ==> i != j;
    }
  }

  /** Listed together, the scenes of a fixture are reusable only if no name is a numbered copy of another. */
  lemma {:induction false} ReusableMeansApart(steps: seq<Step>, scenes: seq<Scene>)
    requires ValidPresentation(steps) && SceneListed(steps, scenes)
    requires forall k :: 0 <= k < |steps| && IsScene(steps[k]) ==> Reusable(SceneNames(scenes), steps[k].scene.value.name)
    ensures NonConflicting(steps)
  {
    forall k, j | 0 <= k < |steps| && 0 <= j < |steps| && k != j && IsScene(steps[k]) && IsScene(steps[j])
      ensures !Duplicate(steps[k].scene.value.name, steps[j].scene.value.name)
    {
      var wanted, copy := steps[k].scene.value.name, steps[j].scene.value.name;
      if Duplicate(wanted, copy) { CopyNotReusable(SceneNames(scenes), wanted, copy); }
    }
  }
}
