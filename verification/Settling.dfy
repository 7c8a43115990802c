/**
 What a successful presentation pass leaves behind. As long as the tracker attends, nothing
 others do can go unnoticed, and then the presentation is settled; when it does not, exactly
 the state of the model decides whether the pass can be repeated.
 */
module Settling {
  import opened Basics
  import opened Names
  import opened Vectors
  import opened Presentation
  import opened LiveModel
  import opened Matching
  import opened Passes

  /** The tracker attended from one state of the runner to another. */
  ghost predicate Watched(s: State, s': State) {
    Attended(s.host.live, s'.host.live)
  }

  lemma {:induction false} Between(a: State, b: State, c: State)
    requires Leads(a.host.live, b.host.live) && Leads(b.host.live, c.host.live) && Watched(a, c)
    ensures Watched(a, b) && Watched(b, c)
  {
    LeadsOn(a.host.live, b.host.live, c.host.live);
  }

  // ---------- one creation ----------

  lemma {:induction false} CallWatched(s: State)
    requires InSync(s) && InSync(Calling(s)) && Watched(s, Calling(s))
    ensures Look(Calling(s)) == Look(s)
  {
    AttendedCall(s.host);
  }

  function With(m: Model, contents: Contents): Model {
    m.(revision := m.revision + 1, sections := contents.sections, scenes := contents.scenes)
  }

  lemma {:induction false} MakeWatched(s: State, contents: Contents, t: Turn)
    requires InSync(s) && Make(s, contents, t).1 && Watched(s, Make(s, contents, t).0)
    ensures Look(Make(s, contents, t).0) == With(Look(s), contents)
  {
    var s1 := s.(host := Created(s.host, contents, t));
    CreateLeads(s.host, contents, t);
    CallLeads(s1.host);
    Between(s, s1, Calling(s1));
    AttendedCreate(s.host, contents, t);
    AttendedCall(s1.host);
  }

  lemma {:induction false} MakeSectionWatched(c: Settings, s: State, spec: SectionSpec) returns (item: Section)
    requires InSync(s) && MakeSection(c, s, spec).1 && Watched(s, MakeSection(c, s, spec).0)
    ensures NewSection(c, spec, Now(s.host)) == Some(item)
    ensures Look(MakeSection(c, s, spec).0) == With(Look(s), Contents(Look(s).sections + [item], Look(s).scenes))
  {
    item := NewSection(c, spec, Now(s.host)).value;
    var s1 := Calling(s);
    var contents := Contents(Look(s1).sections + [item], Look(s1).scenes);
    CallLeads(s.host);
    MakeCounts(s1, contents, Now(s.host));
    Between(s, s1, Make(s1, contents, Now(s.host)).0);
    CallWatched(s);
    MakeWatched(s1, contents, Now(s.host));
  }

  lemma {:induction false} MakeSceneWatched(c: Settings, s: State, spec: SceneSpec, ref: Option<Ref>) returns (item: Scene)
    requires InSync(s) && MakeScene(c, s, spec, ref).1 && Watched(s, MakeScene(c, s, spec, ref).0)
    ensures NewScene(c, spec, PidOf(ref)) == Some(item)
    ensures Look(MakeScene(c, s, spec, ref).0) == With(Look(s), Contents(Look(s).sections, Look(s).scenes + [item]))
  {
    item := NewScene(c, spec, PidOf(ref)).value;
    var s1 := Calling(s);
    var contents := Contents(Look(s1).sections, Look(s1).scenes + [item]);
    CallLeads(s.host);
    MakeCounts(s1, contents, Now(s.host));
    Between(s, s1, Make(s1, contents, Now(s.host)).0);
    CallWatched(s);
    MakeWatched(s1, contents, Now(s.host));
  }

  // ---------- sections ----------

  /** From s to o the runner is in step, and under the watch of the tracker only sections were appended. */
  ghost predicate GrewSections(s: State, o: Outcome) {
    InSync(s) ==>
      && Leads(s.host.live, o.state.host.live) && (o.ok ==> InSync(o.state))
      && (o.ok && Watched(s, o.state) ==>
            Appended(Look(s), Look(o.state), o.created) && Look(o.state).scenes == Look(s).scenes)
  }

  lemma {:induction false} SectionTurnGrew(c: Settings, steps: seq<Step>, i: nat, items: seq<Section>, s: State)
    requires i < |steps| && ValidPresentation(steps)
    ensures GrewSections(s, SectionTurn(c, steps, i, items, s))
  {
    var o := SectionTurn(c, steps, i, items, s);
    if InSync(s) {
      SectionTurnCounts(c, steps, i, items, s);
      if o.ok && o.created == 1 && Watched(s, o.state) { var _ := MakeSectionWatched(c, s, steps[i].section.value); }
    }
  }

  lemma {:induction false} GrewOn(s: State, o: Outcome, rest: Outcome)
    requires GrewSections(s, o) && o.ok && GrewSections(o.state, rest)
    ensures GrewSections(s, Then(o, rest))
  {
    if InSync(s) {
      LeadsOn(s.host.live, o.state.host.live, rest.state.host.live);
    }
  }

  lemma {:induction false} SectionsGrew(c: Settings, steps: seq<Step>, items: seq<Section>, s: State)
    requires ValidPresentation(steps)
    ensures GrewSections(s, Sections(c, steps, items, s))
  {
    var turn := SectionTurns(c, steps, items);
    var claim: Claim := (i: nat, s, o) => GrewSections(s, o);
    forall i: nat, s | i < |steps| ensures ClaimedStep(claim, turn, i, s) {
      var o := turn(i, s);
      SectionTurnGrew(c, steps, i, items, s);
      forall rest | o.ok && claim(i + 1, o.state, rest) ensures claim(i, s, Then(o, rest)) {
        GrewOn(s, o, rest);
      }
    }
    LoopRule(claim, turn, 0, |steps|, s);
  }

  /** References are those of the sections in the model, each of them there once and matching. */
  ghost predicate Referenced(c: Settings, steps: seq<Step>, s: State)
    requires ValidPresentation(steps)
  {
    var sections := Look(s).sections;
    && AllSectionsPresent(c, sections, steps)
    && s.refs.Keys == SectionIds(steps) && Pids(s.refs) == PidsIn(c, sections, steps)
  }

  lemma {:induction false} SeenIds(steps: seq<Step>, n: nat)
    requires n < |steps| && ValidPresentation(steps)
    ensures SectionIds(steps[..n + 1]) == SectionIds(steps[..n]) + if IsSection(steps[n]) then {steps[n].id} else {}
  {
    assert steps[..n + 1] == steps[..n] + [steps[n]];
  }

  ghost predicate CollectedUpTo(c: Settings, steps: seq<Step>, items: seq<Section>, at: nat, n: nat, refs: map<string, Ref>)
    requires n <= |steps| && ValidPresentation(steps)
  {
    && refs.Keys == SectionIds(steps[..n])
    && (forall id :: id in refs ==> refs[id].revision == at)
    && (forall k: nat :: k < n ==> RefAt(c, steps, items, refs, k))
  }

  lemma {:induction false} CollectNext(c: Settings, steps: seq<Step>, items: seq<Section>, at: nat, n: nat)
    requires 0 < n <= |steps| && ValidPresentation(steps) && Collect(c, steps, items, at, n).Some?
    ensures Collect(c, steps, items, at, n - 1).Some?
    ensures !IsSection(steps[n - 1]) ==> Collect(c, steps, items, at, n) == Collect(c, steps, items, at, n - 1)
    ensures IsSection(steps[n - 1]) ==>
              MatchingSection(c, items, steps[n - 1]).Some? &&
              Collect(c, steps, items, at, n).value ==
                Collect(c, steps, items, at, n - 1).value
                  [steps[n - 1].id := Ref(MatchingSection(c, items, steps[n - 1]).value.pid, at)]
  {
  }

  lemma {:induction false} Collected(c: Settings, steps: seq<Step>, items: seq<Section>, at: nat, n: nat)
    requires n <= |steps| && ValidPresentation(steps) && Collect(c, steps, items, at, n).Some?
    ensures CollectedUpTo(c, steps, items, at, n, Collect(c, steps, items, at, n).value)
  {
    if n > 0 {
      CollectNext(c, steps, items, at, n);
      Collected(c, steps, items, at, n - 1);
      var refs := Collect(c, steps, items, at, n - 1).value;
      if IsSection(steps[n - 1]) {
        MatchingIsPresent(c, items, steps[n - 1]);
        CollectedMore(c, steps, items, at, n, refs, MatchingSection(c, items, steps[n - 1]).value.pid);
      } else {
        CollectedSame(c, steps, items, at, n, refs);
      }
    }
  }

  lemma {:induction false} CollectedSame(c: Settings, steps: seq<Step>, items: seq<Section>, at: nat, n: nat, refs: map<string, Ref>)
    requires 0 < n <= |steps| && ValidPresentation(steps) && !IsSection(steps[n - 1])
    requires CollectedUpTo(c, steps, items, at, n - 1, refs)
    ensures CollectedUpTo(c, steps, items, at, n, refs)
  {
    SeenIds(steps, n - 1);
  }

  /** The reference to the section of one step. */
  ghost predicate RefAt(c: Settings, steps: seq<Step>, items: seq<Section>, refs: map<string, Ref>, k: nat)
    requires k < |steps| && ValidPresentation(steps)
  {
    IsSection(steps[k]) ==> steps[k].id in refs && SectionPresent(c, items, steps[k], refs[steps[k].id].pid)
  }

  lemma {:induction false} RefKept(c: Settings, steps: seq<Step>, items: seq<Section>, refs: map<string, Ref>, k: nat, n: nat, ref: Ref)
    requires k < n < |steps| && ValidPresentation(steps) && IsSection(steps[n]) && RefAt(c, steps, items, refs, k)
    ensures RefAt(c, steps, items, refs[steps[n].id := ref], k)
  {
    assert Apart(steps[k], steps[n]);
  }

  lemma {:induction false} CollectedMore(c: Settings, steps: seq<Step>, items: seq<Section>, at: nat, n: nat,
                                         refs: map<string, Ref>, pid: int)
    requires 0 < n <= |steps| && ValidPresentation(steps) && IsSection(steps[n - 1])
    requires CollectedUpTo(c, steps, items, at, n - 1, refs) && SectionPresent(c, items, steps[n - 1], pid)
    ensures CollectedUpTo(c, steps, items, at, n, refs[steps[n - 1].id := Ref(pid, at)])
  {
    var id := steps[n - 1].id;
    var next := refs[id := Ref(pid, at)];
    SeenIds(steps, n - 1);
    assert next.Keys == refs.Keys + {id};
    forall k: nat | k < n ensures RefAt(c, steps, items, next, k) {
      if k < n - 1 { RefKept(c, steps, items, refs, k, n - 1, Ref(pid, at)); }
    }
  }

  /** The references collected from a complete list. */
  lemma {:induction false} CollectedReferences(c: Settings, steps: seq<Step>, items: seq<Section>, at: nat)
    requires ValidPresentation(steps) && Collect(c, steps, items, at, |steps|).Some?
    requires AllPlanes(c.root, items) && |items| <= MAX_ITEMS
    ensures var refs := Collect(c, steps, items, at, |steps|).value;
            && AllSectionsPresent(c, items, steps) && refs.Keys == SectionIds(steps) && Pids(refs) == PidsIn(c, items, steps)
            && forall id :: id in refs ==> refs[id].revision == at
  {
    Collected(c, steps, items, at, |steps|);
    assert steps[..|steps|] == steps;
    var refs := Collect(c, steps, items, at, |steps|).value;
    forall k | 0 <= k < |steps| && IsSection(steps[k])
      ensures Present(c, items, steps[k]) && steps[k].id in Pids(refs) && SectionPresent(c, items, steps[k], Pids(refs)[steps[k].id])
    {
      assert RefAt(c, steps, items, refs, k);
    }
    assert Pids(refs).Keys == SectionIds(steps);
    PidsDetermined(c, items, steps, Pids(refs));
  }

  /** A refresh that succeeds saw every section of the fixture, and its references are current. */
  lemma {:induction false} RefreshedReferences(c: Settings, steps: seq<Step>, s: State)
    requires ValidPresentation(steps) && Refreshed(c, steps, s).1
    ensures var s' := Refreshed(c, steps, s).0;
            Referenced(c, steps, s') && forall id :: id in s'.refs ==> s'.refs[id].revision == s'.revision
  {
    CollectedReferences(c, steps, SectionList(c, s).value, s.revision);
  }

  // ---------- scenes ----------

  lemma {:induction false} RefForWatched(c: Settings, steps: seq<Step>, s: State, i: nat)
    requires ValidPresentation(steps) && i < |steps| && IsScene(steps[i])
    requires InSync(s) && Referenced(c, steps, s)
    requires var (s', ref, ok) := RefFor(c, steps, s, steps[i].scene.value.sectionId); ok && Watched(s, s')
    ensures var (s', ref, ok) := RefFor(c, steps, s, steps[i].scene.value.sectionId);
            var id := steps[i].scene.value.sectionId;
            && Look(s') == Look(s) && Referenced(c, steps, s') && Pids(s'.refs) == Pids(s.refs)
            && (if id == "" then ref == None else id in Pids(s.refs) && PidOf(ref) == Some(Pids(s.refs)[id]))
  {
    var id := steps[i].scene.value.sectionId;
    if id != "" && id in s.refs && s.refs[id].revision != s.revision {
      RefreshedCounts(c, steps, s);
      CallWatched(s);
      RefreshedReferences(c, steps, s);
      assert id in Pids(Refreshed(c, steps, s).0.refs);
    }
    if id != "" && id in s.refs { assert id in Pids(s.refs); }
  }

  lemma {:induction false} NewSceneMatches(c: Settings, spec: SceneSpec, ref: Option<Ref>, pids: map<string, int>)
    requires NewScene(c, spec, PidOf(ref)).Some?
    requires if spec.sectionId == "" then ref == None else spec.sectionId in pids && PidOf(ref) == Some(pids[spec.sectionId])
    ensures var item := NewScene(c, spec, PidOf(ref)).value; item.name == spec.name && SceneMatches(c, item, spec, pids)
  {
    CreatedSceneMatches(c, spec, pids);
  }

  lemma {:induction false} MakeSceneForWatched(c: Settings, steps: seq<Step>, s: State, i: nat) returns (item: Scene)
    requires ValidPresentation(steps) && i < |steps| && IsScene(steps[i])
    requires InSync(s) && Referenced(c, steps, s)
    requires var (s', ok) := MakeSceneFor(c, steps, s, steps[i].scene.value); ok && Watched(s, s')
    ensures var s' := MakeSceneFor(c, steps, s, steps[i].scene.value).0;
            && Look(s') == With(Look(s), Contents(Look(s).sections, Look(s).scenes + [item]))
            && Referenced(c, steps, s') && Pids(s'.refs) == Pids(s.refs)
    ensures item.name == steps[i].scene.value.name && SceneMatches(c, item, steps[i].scene.value, Pids(s.refs))
  {
    var spec := steps[i].scene.value;
    var (s1, ref, ok) := RefFor(c, steps, s, spec.sectionId);
    RefForCounts(c, steps, s, spec.sectionId);
    MakeSceneCounts(c, s1, spec, ref);
    Between(s, s1, MakeScene(c, s1, spec, ref).0);
    RefForWatched(c, steps, s, i);
    item := MakeSceneWatched(c, s1, spec, ref);
    NewSceneMatches(c, spec, ref, Pids(s.refs));
  }

  /** After the scene steps before i: each is present, and nothing made so far stands in the way of a later one. */
  ghost predicate ScenesUpTo(c: Settings, steps: seq<Step>, i: nat, items: seq<Scene>, made: seq<Scene>, pids: map<string, int>)
    requires i <= |steps| && ValidPresentation(steps)
  {
    && (forall k :: 0 <= k < i && IsScene(steps[k]) ==> ScenePresent(c, items + made, steps[k], pids))
    && (forall k :: i <= k < |steps| && IsScene(steps[k]) ==> Foreign(made, steps[k]))
  }

  lemma {:induction false} ScenesReused(c: Settings, steps: seq<Step>, i: nat, items: seq<Scene>, made: seq<Scene>, pids: map<string, int>)
    requires i < |steps| && ValidPresentation(steps) && ScenesUpTo(c, steps, i, items, made, pids)
    requires IsScene(steps[i]) ==> ScenePresent(c, items, steps[i], pids)
    ensures ScenesUpTo(c, steps, i + 1, items, made, pids)
  {
    if IsScene(steps[i]) { PresentAmong(c, items, made, steps[i], pids); }
  }

  lemma {:induction false} ScenesMade(c: Settings, steps: seq<Step>, i: nat, items: seq<Scene>, made: seq<Scene>, pids: map<string, int>, s: Scene)
    requires i < |steps| && ValidPresentation(steps) && NonConflicting(steps) && ScenesUpTo(c, steps, i, items, made, pids)
    requires IsScene(steps[i]) && s.name == steps[i].scene.value.name
    requires Absent(SceneNames(items), s.name) && SceneMatches(c, s, steps[i].scene.value, pids)
    ensures ScenesUpTo(c, steps, i + 1, items, made + [s], pids)
  {
    assert items + (made + [s]) == (items + made) + [s];
    MadePresent(c, items, made, steps[i], pids, s);
    forall k | 0 <= k < i && IsScene(steps[k]) ensures ScenePresent(c, items + (made + [s]), steps[k], pids) {
      NoClash(steps, i, k, s);
      PresentAmong(c, items + made, [s], steps[k], pids);
    }
    forall k | i + 1 <= k < |steps| && IsScene(steps[k]) ensures Foreign(made + [s], steps[k]) {
      NoClash(steps, i, k, s);
      ForeignMore(made, [s], steps[k]);
    }
  }

  /** Every scene step before i had at most one item to reuse at the start, and has one now. */
  ghost predicate Accounted(steps: seq<Step>, i: nat, items: seq<Scene>, now: seq<Scene>)
    requires i <= |steps| && ValidPresentation(steps)
  {
    forall k :: 0 <= k < i && IsScene(steps[k]) ==>
      Reusable(SceneNames(items), steps[k].scene.value.name) && steps[k].scene.value.name in SceneNames(now)
  }

  lemma {:induction false} AccountedReused(steps: seq<Step>, i: nat, items: seq<Scene>, now: seq<Scene>)
    requires i < |steps| && ValidPresentation(steps) && Accounted(steps, i, items, now) && items <= now
    requires IsScene(steps[i]) ==> Reuse(SceneNames(items), steps[i].scene.value.name).Found?
    ensures Accounted(steps, i + 1, items, now)
  {
    if IsScene(steps[i]) {
      var names, j := SceneNames(items), Reuse(SceneNames(items), steps[i].scene.value.name).index;
      assert Sole(names, steps[i].scene.value.name, j);
      assert SceneNames(now)[j] == names[j];
    }
  }

  lemma {:induction false} AccountedMade(steps: seq<Step>, i: nat, items: seq<Scene>, now: seq<Scene>, item: Scene)
    requires i < |steps| && ValidPresentation(steps) && Accounted(steps, i, items, now)
    requires IsScene(steps[i]) && item.name == steps[i].scene.value.name && Absent(SceneNames(items), item.name)
    ensures Accounted(steps, i + 1, items, now + [item])
  {
    var a, b := SceneNames(now), SceneNames(now + [item]);
    assert b == a + SceneNames([item]);
    assert b[|a|] == item.name;
  }

  /** Where the scene loop stands before step i: what follows `items` was created since they were listed. */
  ghost predicate Standing(c: Settings, steps: seq<Step>, i: nat, items: seq<Scene>, s: State)
    requires i <= |steps| && ValidPresentation(steps)
  {
    && InSync(s) && Referenced(c, steps, s) && items <= Look(s).scenes
    && Accounted(steps, i, items, Look(s).scenes)
    && (NonConflicting(steps) ==> ScenesUpTo(c, steps, i, items, Look(s).scenes[|items|..], Pids(s.refs)))
  }

  lemma {:induction false} FoundIsPresent(c: Settings, steps: seq<Step>, i: nat, items: seq<Scene>, pids: map<string, int>)
    requires i < |steps| && ValidPresentation(steps) && IsScene(steps[i])
    requires var r := Reuse(SceneNames(items), steps[i].scene.value.name);
             r.Found? && SceneMatches(c, items[r.index], steps[i].scene.value, pids)
    ensures ScenePresent(c, items, steps[i], pids)
  {
  }

  lemma {:induction false} UpToMade(c: Settings, steps: seq<Step>, i: nat, items: seq<Scene>, now: seq<Scene>, pids: map<string, int>,
                                    item: Scene)
    requires i < |steps| && ValidPresentation(steps) && NonConflicting(steps) && items <= now
    requires ScenesUpTo(c, steps, i, items, now[|items|..], pids)
    requires IsScene(steps[i]) && item.name == steps[i].scene.value.name && Absent(SceneNames(items), item.name)
    requires SceneMatches(c, item, steps[i].scene.value, pids)
    ensures ScenesUpTo(c, steps, i + 1, items, (now + [item])[|items|..], pids)
  {
    var made := now[|items|..];
    assert (now + [item])[|items|..] == made + [item];
    ScenesMade(c, steps, i, items, made, pids, item);
  }

  lemma {:induction false} StandingMade(c: Settings, steps: seq<Step>, i: nat, items: seq<Scene>, s: State, item: Scene, s': State)
    requires i < |steps| && ValidPresentation(steps) && Standing(c, steps, i, items, s)
    requires IsScene(steps[i]) && item.name == steps[i].scene.value.name && Absent(SceneNames(items), item.name)
    requires SceneMatches(c, item, steps[i].scene.value, Pids(s.refs))
    requires InSync(s') && Referenced(c, steps, s') && Pids(s'.refs) == Pids(s.refs)
    requires Look(s').scenes == Look(s).scenes + [item]
    ensures Standing(c, steps, i + 1, items, s')
  {
    AccountedMade(steps, i, items, Look(s).scenes, item);
    if NonConflicting(steps) { UpToMade(c, steps, i, items, Look(s).scenes, Pids(s.refs), item); }
  }

  lemma {:induction false} StandingReused(c: Settings, steps: seq<Step>, i: nat, items: seq<Scene>, s: State)
    requires i < |steps| && ValidPresentation(steps) && Standing(c, steps, i, items, s)
    requires IsScene(steps[i]) ==>
               && Reuse(SceneNames(items), steps[i].scene.value.name).Found?
               && ScenePresent(c, items, steps[i], Pids(s.refs))
    ensures Standing(c, steps, i + 1, items, s)
  {
    AccountedReused(steps, i, items, Look(s).scenes);
    if NonConflicting(steps) { ScenesReused(c, steps, i, items, Look(s).scenes[|items|..], Pids(s.refs)); }
  }

  /** What a scene turn that succeeds does: it reuses and changes nothing, or it creates. */
  lemma {:induction false} SceneTurnCases(c: Settings, steps: seq<Step>, i: nat, items: seq<Scene>, s: State)
    requires i < |steps| && ValidPresentation(steps) && SceneTurn(c, steps, i, items, s).ok
    ensures var o := SceneTurn(c, steps, i, items, s);
            if o.created == 0 then
              && o.state == s
              && (IsScene(steps[i]) ==>
                    && Reuse(SceneNames(items), steps[i].scene.value.name).Found?
                    && ScenePresent(c, items, steps[i], Pids(s.refs)))
            else
              && o.created == 1 && IsScene(steps[i]) && Absent(SceneNames(items), steps[i].scene.value.name)
              && (o.state, true) == MakeSceneFor(c, steps, s, steps[i].scene.value)
  {
    if IsScene(steps[i]) && Reuse(SceneNames(items), steps[i].scene.value.name).Found? {
      FoundIsPresent(c, steps, i, items, Pids(s.refs));
    }
  }

  /** From step i in state s to o: in step, and under the watch of the tracker still standing, with scenes appended only. */
  ghost predicate GrewScenes(c: Settings, steps: seq<Step>, i: nat, j: nat, items: seq<Scene>, s: State, o: Outcome)
    requires i <= |steps| && j <= |steps| && ValidPresentation(steps)
  {
    InSync(s) ==>
      && Leads(s.host.live, o.state.host.live) && (o.ok ==> InSync(o.state))
      && (Standing(c, steps, i, items, s) && o.ok && Watched(s, o.state) ==>
            && Standing(c, steps, j, items, o.state)
            && Appended(Look(s), Look(o.state), o.created) && Look(o.state).sections == Look(s).sections)
  }

  lemma {:induction false} SceneTurnGrew(c: Settings, steps: seq<Step>, i: nat, items: seq<Scene>, s: State)
    requires i < |steps| && ValidPresentation(steps)
    ensures GrewScenes(c, steps, i, i + 1, items, s, SceneTurn(c, steps, i, items, s))
  {
    var o := SceneTurn(c, steps, i, items, s);
    if InSync(s) {
      SceneTurnCounts(c, steps, i, items, s);
      if Standing(c, steps, i, items, s) && o.ok && Watched(s, o.state) { SceneTurnWatched(c, steps, i, items, s); }
    }
  }

  lemma {:induction false} SceneTurnWatched(c: Settings, steps: seq<Step>, i: nat, items: seq<Scene>, s: State)
    requires i < |steps| && ValidPresentation(steps) && Standing(c, steps, i, items, s)
    requires var o := SceneTurn(c, steps, i, items, s); o.ok && InSync(o.state) && Watched(s, o.state)
    ensures var o := SceneTurn(c, steps, i, items, s);
            && Standing(c, steps, i + 1, items, o.state)
            && Appended(Look(s), Look(o.state), o.created) && Look(o.state).sections == Look(s).sections
  {
    var o := SceneTurn(c, steps, i, items, s);
    SceneTurnCases(c, steps, i, items, s);
    if o.created == 0 {
      StandingReused(c, steps, i, items, s);
    } else {
      var item := MakeSceneForWatched(c, steps, s, i);
      StandingMade(c, steps, i, items, s, item, o.state);
    }
  }

  lemma {:induction false} GrewScenesOn(c: Settings, steps: seq<Step>, i: nat, items: seq<Scene>, s: State, o: Outcome, rest: Outcome)
    requires i < |steps| && ValidPresentation(steps)
    requires GrewScenes(c, steps, i, i + 1, items, s, o) && o.ok
    requires GrewScenes(c, steps, i + 1, |steps|, items, o.state, rest)
    ensures GrewScenes(c, steps, i, |steps|, items, s, Then(o, rest))
  {
    if InSync(s) {
      LeadsOn(s.host.live, o.state.host.live, rest.state.host.live);
    }
  }

  lemma {:induction false} ScenesGrew(c: Settings, steps: seq<Step>, items: seq<Scene>, s: State)
    requires ValidPresentation(steps)
    ensures GrewScenes(c, steps, 0, |steps|, items, s, Scenes(c, steps, items, s))
  {
    var turn := SceneTurns(c, steps, items);
    var claim: Claim := (i: nat, s, o) => i <= |steps| && GrewScenes(c, steps, i, |steps|, items, s, o);
    forall s ensures claim(|steps|, s, Outcome(s, true, 0, 0)) {
    }
    forall i: nat, s | i < |steps| ensures ClaimedStep(claim, turn, i, s) {
      var o := turn(i, s);
      SceneTurnGrew(c, steps, i, items, s);
      forall rest | o.ok && claim(i + 1, o.state, rest) ensures claim(i, s, Then(o, rest)) {
        GrewScenesOn(c, steps, i, items, s, o, rest);
      }
    }
    LoopRule(claim, turn, 0, |steps|, s);
  }

  // ---------- the pass ----------

  /** Sections, references and scenes are there as the fixture asks for them. */
  ghost predicate Prepared(c: Settings, m: Model, steps: seq<Step>)
    requires ValidPresentation(steps)
  {
    Settled(c, m, steps, PidsIn(c, m.sections, steps))
  }

  /** What a pass found and left, under the watch of the tracker. */
  ghost predicate PassGrew(c: Settings, steps: seq<Step>, s: State, o: Outcome)
    requires ValidPresentation(steps)
  {
    && Appended(Look(s), Look(o.state), o.created)
    && |Look(s).scenes| <= MAX_ITEMS && Accounted(steps, |steps|, Look(s).scenes, Look(o.state).scenes)
    && AllSectionsPresent(c, Look(o.state).sections, steps)
    && (NonConflicting(steps) ==> Prepared(c, Look(o.state), steps))
  }

  lemma {:induction false} SectionHalfWatched(c: Settings, steps: seq<Step>, s: State)
    requires ValidPresentation(steps) && InSync(s)
    requires var o := SectionHalf(c, steps, s); o.ok && Watched(s, o.state)
    ensures var o := SectionHalf(c, steps, s);
            Appended(Look(s), Look(o.state), o.created) && Look(o.state).scenes == Look(s).scenes
  {
    var items := SectionList(c, s).value;
    var o := Sections(c, steps, items, Calling(s));
    CallLeads(s.host);
    SectionsGrew(c, steps, items, Calling(s));
    Between(s, Calling(s), o.state);
    CallWatched(s);
  }

  lemma {:induction false} Started(c: Settings, steps: seq<Step>, items: seq<Scene>, s: State)
    requires ValidPresentation(steps) && InSync(s) && Referenced(c, steps, s) && Look(s).scenes == items
    ensures Standing(c, steps, 0, items, s)
  {
  }

  lemma {:induction false} Finished(c: Settings, steps: seq<Step>, items: seq<Scene>, s: State)
    requires ValidPresentation(steps) && Standing(c, steps, |steps|, items, s)
    ensures AllSectionsPresent(c, Look(s).sections, steps) && Accounted(steps, |steps|, items, Look(s).scenes)
    ensures NonConflicting(steps) ==> Prepared(c, Look(s), steps)
  {
    PidsPresent(c, Look(s).sections, steps);
    assert Look(s).scenes == items + Look(s).scenes[|items|..];
  }

  lemma {:induction false} SceneHalfWatched(c: Settings, steps: seq<Step>, s: State)
    requires ValidPresentation(steps) && InSync(s) && Referenced(c, steps, s)
    requires var o := SceneHalf(c, steps, s); o.ok && Watched(s, o.state)
    ensures PassGrew(c, steps, s, SceneHalf(c, steps, s))
    ensures Look(SceneHalf(c, steps, s).state).sections == Look(s).sections
  {
    var items := SceneList(s).value;
    var s1 := Calling(s);
    var o := Scenes(c, steps, items, s1);
    CallLeads(s.host);
    ScenesGrew(c, steps, items, s1);
    Between(s, s1, o.state);
    CallWatched(s);
    Started(c, steps, items, s1);
    Finished(c, steps, items, o.state);
  }

  /**
   As long as the tracker attends, a successful pass only appended; it found at most one scene
   of each name among those there before, each step is there now, and if no scene name is a
   numbered copy of another, every item is there once and as the fixture asks.
   */
  lemma {:induction false} PassWatched(c: Settings, steps: seq<Step>, s: State)
    requires ValidPresentation(steps) && InSync(s)
    requires var o := Pass(c, steps, s); o.ok && Watched(s, o.state)
    ensures PassGrew(c, steps, s, Pass(c, steps, s))
  {
    var a := SectionHalf(c, steps, s);
    var s1 := Refreshed(c, steps, a.state).0;
    var b := SceneHalf(c, steps, s1);
    SectionHalfCounts(c, steps, s);
    RefreshedCounts(c, steps, a.state);
    SceneHalfCounts(c, steps, s1);
    LeadsOn(a.state.host.live, s1.host.live, b.state.host.live);
    Between(s, a.state, b.state);
    Between(a.state, s1, b.state);
    SectionHalfWatched(c, steps, s);
    CallWatched(a.state);
    RefreshedReferences(c, steps, a.state);
    SceneHalfWatched(c, steps, s1);
  }
}
