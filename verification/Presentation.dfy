/**
 The presentation pass of the layout runner: list what is there, create what is missing.
 Running it again must create nothing.
 */
module Presentation {
  import opened Basics
  import opened Names
  import opened Vectors

  datatype SectionSpec = SectionSpec(name: string, symbol: string, pointMm: Vec3, normal: Vec3)

  datatype SceneSpec = SceneSpec(name: string, eyeMm: Vec3, targetMm: Vec3, up: Vec3, perspective: bool,
                                 heightMm: real, fovDegrees: real, sectionId: string, displayPlane: bool)

  /** What the lower-cased kind of a step says. */
  datatype Kind = SectionKind | SceneKind | OtherKind

  /** A step of a fixture file as it was decoded. */
  datatype Step = Step(kind: Kind, id: string, section: Option<SectionSpec>, scene: Option<SceneSpec>)

  // ---------- fixtures ----------

  predicate IsSection(st: Step) {
    st.kind == SectionKind
  }

  predicate IsScene(st: Step) {
    st.kind == SceneKind
  }

  predicate Blank(s: string) {
    Trim(s) == ""
  }

  predicate WellFormedStep(st: Step) {
    || (IsSection(st) && st.section.Some? && st.scene.None? && !Blank(st.id))
    || (IsScene(st) && st.scene.Some? && st.section.None? && !Blank(st.scene.value.name))
  }

  /** The scene's section, if it names one, is created by an earlier step. */
  ghost predicate SectionBefore(steps: seq<Step>, i: nat)
    requires i < |steps| && WellFormedStep(steps[i])
  {
    IsScene(steps[i]) && steps[i].scene.value.sectionId != "" ==>
      exists j :: 0 <= j < i && IsSection(steps[j]) && steps[j].id == steps[i].scene.value.sectionId
  }

  ghost predicate Apart(a: Step, b: Step)
    requires WellFormedStep(a) && WellFormedStep(b)
  {
    && (IsSection(a) && IsSection(b) ==> a.id != b.id && a.section.value.name != b.section.value.name)
    && (IsScene(a) && IsScene(b) ==> a.scene.value.name != b.scene.value.name)
  }

  ghost predicate ValidUpTo(steps: seq<Step>, n: nat)
    requires n <= |steps|
  {
    && (forall i :: 0 <= i < n ==> WellFormedStep(steps[i]))
    && (forall i: nat {:trigger SectionBefore(steps, i)} :: i < n ==> SectionBefore(steps, i))
    && (forall i, j {:trigger Apart(steps[i], steps[j])} :: 0 <= i < j < n ==> Apart(steps[i], steps[j]))
  }

  /** Every step is one well-formed section or scene, ids and names are unique, sections come before the scenes that use them. */
  ghost predicate ValidPresentation(steps: seq<Step>) {
    ValidUpTo(steps, |steps|)
  }

  /** Step n fits behind the steps before it. */
  ghost predicate Fits(steps: seq<Step>, n: nat)
    requires n < |steps|
  {
    && WellFormedStep(steps[n]) && SectionBefore(steps, n)
    && forall j :: 0 <= j < n ==> WellFormedStep(steps[j]) && Apart(steps[j], steps[n])
  }

  lemma {:induction false} ValidMore(steps: seq<Step>, n: nat)
    requires n < |steps| && ValidUpTo(steps, n)
    ensures ValidUpTo(steps, n + 1) <==> Fits(steps, n)
    ensures ValidPresentation(steps) ==> Fits(steps, n)
  {
  }

  ghost predicate Ids(steps: seq<Step>, n: nat, ids: set<string>)
    requires n <= |steps|
  {
    forall id :: id in ids <==> exists j :: 0 <= j < n && IsSection(steps[j]) && steps[j].id == id
  }

  ghost predicate SectionNamesAre(steps: seq<Step>, n: nat, names: set<string>)
    requires n <= |steps| && ValidUpTo(steps, n)
  {
    forall name :: name in names <==> exists j :: 0 <= j < n && IsSection(steps[j]) && steps[j].section.value.name == name
  }

  ghost predicate SceneNamesAre(steps: seq<Step>, n: nat, names: set<string>)
    requires n <= |steps| && ValidUpTo(steps, n)
  {
    forall name :: name in names <==> exists j :: 0 <= j < n && IsScene(steps[j]) && steps[j].scene.value.name == name
  }

  function Named(names: set<string>, name: string, added: bool): set<string> {
    if added then names + {name} else names
  }

  lemma {:induction false} IdsMore(steps: seq<Step>, n: nat, ids: set<string>)
    requires n < |steps| && Ids(steps, n, ids)
    ensures Ids(steps, n + 1, Named(ids, steps[n].id, IsSection(steps[n])))
  {
  }

  lemma {:induction false} SectionNamesMore(steps: seq<Step>, n: nat, names: set<string>)
    requires n < |steps| && ValidUpTo(steps, n + 1) && SectionNamesAre(steps, n, names)
    ensures IsSection(steps[n]) ==> SectionNamesAre(steps, n + 1, names + {steps[n].section.value.name})
    ensures !IsSection(steps[n]) ==> SectionNamesAre(steps, n + 1, names)
  {
  }

  lemma {:induction false} SceneNamesMore(steps: seq<Step>, n: nat, names: set<string>)
    requires n < |steps| && ValidUpTo(steps, n + 1) && SceneNamesAre(steps, n, names)
    ensures IsScene(steps[n]) ==> SceneNamesAre(steps, n + 1, names + {steps[n].scene.value.name})
    ensures !IsScene(steps[n]) ==> SceneNamesAre(steps, n + 1, names)
  {
  }

  method CheckStep(steps: seq<Step>, i: nat, sectionIds: set<string>, sectionNames: set<string>, sceneNames: set<string>)
    returns (ok: bool)
    requires i < |steps| && ValidUpTo(steps, i)
    requires Ids(steps, i, sectionIds) && SectionNamesAre(steps, i, sectionNames) && SceneNamesAre(steps, i, sceneNames)
    ensures ok <==> Fits(steps, i)
  {
    var st := steps[i];
    match st.kind {
      case SectionKind =>
        if st.section.None? || st.scene.Some? || Blank(st.id) { return false; }
        return st.id !in sectionIds && st.section.value.name !in sectionNames;
      case SceneKind =>
        if st.scene.None? || st.section.Some? || Blank(st.scene.value.name) { return false; }
        if st.scene.value.name in sceneNames { return false; }
        return st.scene.value.sectionId == "" || st.scene.value.sectionId in sectionIds;
      case OtherKind => return false;
    }
  }

  /** The presentation part of Fixture.Validate. */
  method Validate(steps: seq<Step>) returns (valid: bool)
    ensures valid <==> ValidPresentation(steps)
  {
    var sectionIds, sectionNames, sceneNames := {}, {}, {};
    for i := 0 to |steps|
      invariant ValidUpTo(steps, i) && Ids(steps, i, sectionIds)
      invariant SectionNamesAre(steps, i, sectionNames) && SceneNamesAre(steps, i, sceneNames)
    {
      ValidMore(steps, i);
      var ok := CheckStep(steps, i, sectionIds, sectionNames, sceneNames);
      if !ok { return false; }
      IdsMore(steps, i, sectionIds);
      SectionNamesMore(steps, i, sectionNames);
      SceneNamesMore(steps, i, sceneNames);
      if IsSection(steps[i]) {
        sectionIds, sectionNames := sectionIds + {steps[i].id}, sectionNames + {steps[i].section.value.name};
      } else {
        sceneNames := sceneNames + {steps[i].scene.value.name};
      }
    }
    return true;
  }
}
