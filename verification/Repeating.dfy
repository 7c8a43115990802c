/** When a presentation pass succeeds, and when it can be repeated. */
module Repeating {
  import opened Basics
  import opened Names
  import opened Vectors
  import opened Presentation
  import opened LiveModel
  import opened Matching
  import opened Passes
  import opened Settling

  // ---------- loops that create nothing ----------

  /** From step i on: what creates nothing changes nothing, and what has nothing to create never does. */
  ghost predicate SectionsIdle(c: Settings, steps: seq<Step>, i: nat, items: seq<Section>, s: State, o: Outcome)
    requires i <= |steps| && ValidPresentation(steps)
  {
    && (o.ok && o.created == 0 ==>
          o.state == s && forall k {:trigger Present(c, items, steps[k])} :: i <= k < |steps| && IsSection(steps[k]) ==> Present(c, items, steps[k]))
    && (NoSectionMissing(items, steps) ==> o.state == s)
  }

  lemma {:induction false} SectionTurnIdle(c: Settings, steps: seq<Step>, i: nat, items: seq<Section>, s: State)
    requires i < |steps| && ValidPresentation(steps)
    ensures var o := SectionTurn(c, steps, i, items, s);
            && (o.ok && o.created == 0 ==> o.state == s && (IsSection(steps[i]) ==> Present(c, items, steps[i])))
            && (!SectionMissing(items, steps[i]) ==> o.state == s)
  {
    if IsSection(steps[i]) { MatchingIsPresent(c, items, steps[i]); }
  }

  lemma {:induction false} SectionsIdleOn(c: Settings, steps: seq<Step>, i: nat, items: seq<Section>, s: State, rest: Outcome)
    requires i < |steps| && ValidPresentation(steps)
    requires var o := SectionTurn(c, steps, i, items, s); o.ok && SectionsIdle(c, steps, i + 1, items, o.state, rest)
    ensures SectionsIdle(c, steps, i, items, s, Then(SectionTurn(c, steps, i, items, s), rest))
  {
    SectionTurnIdle(c, steps, i, items, s);
  }

  lemma {:induction false} SectionLoopIdle(c: Settings, steps: seq<Step>, items: seq<Section>, s: State)
    requires ValidPresentation(steps)
    ensures SectionsIdle(c, steps, 0, items, s, Sections(c, steps, items, s))
  {
    var turn := SectionTurns(c, steps, items);
    var claim: Claim := (i: nat, s, o) => i <= |steps| && SectionsIdle(c, steps, i, items, s, o);
    forall i: nat, s | i < |steps| ensures ClaimedStep(claim, turn, i, s) {
      var o := turn(i, s);
      SectionTurnIdle(c, steps, i, items, s);
      forall rest | o.ok && claim(i + 1, o.state, rest) ensures claim(i, s, Then(o, rest)) {
        SectionsIdleOn(c, steps, i, items, s, rest);
      }
    }
    LoopRule(claim, turn, 0, |steps|, s);
  }

  ghost predicate ScenesIdle(c: Settings, steps: seq<Step>, i: nat, items: seq<Scene>, s: State, o: Outcome)
    requires i <= |steps| && ValidPresentation(steps)
  {
    && (o.ok && o.created == 0 ==>
          o.state == s && forall k :: i <= k < |steps| && IsScene(steps[k]) ==> ScenePresent(c, items, steps[k], Pids(s.refs)))
    && (NoSceneMissing(items, steps) ==> o.state == s)
  }

  lemma {:induction false} SceneTurnIdle(c: Settings, steps: seq<Step>, i: nat, items: seq<Scene>, s: State)
    requires i < |steps| && ValidPresentation(steps)
    ensures var o := SceneTurn(c, steps, i, items, s);
            && (o.ok && o.created == 0 ==>
                  o.state == s && (IsScene(steps[i]) ==> ScenePresent(c, items, steps[i], Pids(s.refs))))
            && (!SceneMissing(items, steps[i]) ==> o.state == s)
  {
    if SceneTurn(c, steps, i, items, s).ok { SceneTurnCases(c, steps, i, items, s); }
  }

  lemma {:induction false} ScenesIdleOn(c: Settings, steps: seq<Step>, i: nat, items: seq<Scene>, s: State, rest: Outcome)
    requires i < |steps| && ValidPresentation(steps)
    requires var o := SceneTurn(c, steps, i, items, s); o.ok && ScenesIdle(c, steps, i + 1, items, o.state, rest)
    ensures ScenesIdle(c, steps, i, items, s, Then(SceneTurn(c, steps, i, items, s), rest))
  {
    SceneTurnIdle(c, steps, i, items, s);
  }

  lemma {:induction false} SceneLoopIdle(c: Settings, steps: seq<Step>, items: seq<Scene>, s: State)
    requires ValidPresentation(steps)
    ensures ScenesIdle(c, steps, 0, items, s, Scenes(c, steps, items, s))
  {
    var turn := SceneTurns(c, steps, items);
    var claim: Claim := (i: nat, s, o) => i <= |steps| && ScenesIdle(c, steps, i, items, s, o);
    forall i: nat, s | i < |steps| ensures ClaimedStep(claim, turn, i, s) {
      var o := turn(i, s);
      SceneTurnIdle(c, steps, i, items, s);
      forall rest | o.ok && claim(i + 1, o.state, rest) ensures claim(i, s, Then(o, rest)) {
        ScenesIdleOn(c, steps, i, items, s, rest);
      }
    }
    LoopRule(claim, turn, 0, |steps|, s);
  }

  // ---------- with nobody else at work ----------

  /** Nobody else is at work, and the model is as it was. */
  ghost predicate Undisturbed(s: State, s': State, creates: bool) {
    Quiet(s'.host, creates) && Look(s') == Look(s)
  }

  lemma {:induction false} CallUndisturbed(s: State, creates: bool)
    requires Quiet(s.host, creates)
    ensures Undisturbed(s, Calling(s), creates) && !Now(s.host).fails
  {
    QuietCall(s.host, creates);
  }

  lemma {:induction false} RefreshUndisturbed(c: Settings, steps: seq<Step>, s: State, creates: bool)
    requires ValidPresentation(steps) && Quiet(s.host, creates)
    ensures Undisturbed(s, Refreshed(c, steps, s).0, creates)
  {
    CallUndisturbed(s, creates);
  }

  lemma {:induction false} SectionHalfIdle(c: Settings, steps: seq<Step>, s: State)
    requires ValidPresentation(steps) && Quiet(s.host, false)
    ensures var o := SectionHalf(c, steps, s);
            (o.ok && o.created == 0) || NoSectionMissing(Look(s).sections, steps) ==> Undisturbed(s, o.state, false)
  {
    CallUndisturbed(s, false);
    match SectionList(c, s)
    case None =>
    case Some(items) => SectionLoopIdle(c, steps, items, Calling(s));
  }

  lemma {:induction false} SceneHalfIdle(c: Settings, steps: seq<Step>, s: State)
    requires ValidPresentation(steps) && Quiet(s.host, false)
    ensures var o := SceneHalf(c, steps, s);
            && ((o.ok && o.created == 0) || NoSceneMissing(Look(s).scenes, steps) ==> Undisturbed(s, o.state, false))
            && (o.ok && o.created == 0 ==>
                  ScenesPresent(c, Look(s).scenes, steps, Pids(s.refs)) && |Look(s).scenes| <= MAX_ITEMS)
  {
    CallUndisturbed(s, false);
    match SceneList(s)
    case None =>
    case Some(items) => SceneLoopIdle(c, steps, items, Calling(s));
  }

  /** With nobody else at work: a pass that has nothing to create changes nothing, succeed or not. */
  lemma {:induction false} PassStill(c: Settings, steps: seq<Step>, s: State)
    requires ValidPresentation(steps) && Quiet(s.host, false)
    requires NoSectionMissing(Look(s).sections, steps) && NoSceneMissing(Look(s).scenes, steps)
    ensures Undisturbed(s, Pass(c, steps, s).state, false)
  {
    var a := SectionHalf(c, steps, s);
    SectionHalfIdle(c, steps, s);
    if a.ok {
      var s1 := Refreshed(c, steps, a.state).0;
      RefreshUndisturbed(c, steps, a.state, false);
      SceneHalfIdle(c, steps, s1);
    }
  }

  /** With nobody else at work: a pass that succeeds and creates nothing found everything prepared. */
  lemma {:induction false} PassReuses(c: Settings, steps: seq<Step>, s: State)
    requires ValidPresentation(steps) && Quiet(s.host, false)
    requires Pass(c, steps, s).ok && Pass(c, steps, s).created == 0
    ensures Undisturbed(s, Pass(c, steps, s).state, false)
    ensures Prepared(c, Look(s), steps) && |Look(s).scenes| <= MAX_ITEMS
  {
    var a := SectionHalf(c, steps, s);
    SectionHalfIdle(c, steps, s);
    var s1 := Refreshed(c, steps, a.state).0;
    RefreshUndisturbed(c, steps, a.state, false);
    RefreshedReferences(c, steps, a.state);
    SceneHalfIdle(c, steps, s1);
    PidsPresent(c, Look(s).sections, steps);
  }

  // ---------- a pass that is ready ----------

  lemma {:induction false} MakeQuiet(s: State, contents: Contents, t: Turn)
    requires InSync(s) && Quiet(s.host, true) && t.after.events == []
    requires s.host.live.tracker == Tracking.Captured(s.host.live.app, s.host.live.tracker)
    ensures var (s', ok) := Make(s, contents, t);
            ok && Look(s') == With(Look(s), contents) && Quiet(s'.host, true) && s'.refs == s.refs
  {
    var s1 := s.(host := Created(s.host, contents, t));
    QuietCreate(s.host, contents, t);
    QuietCall(s1.host, true);
  }

  lemma {:induction false} CallCaptured(h: Host)
    ensures Called(h).live.tracker == Tracking.Captured(Called(h).live.app, Called(h).live.tracker)
  {
    var l := Edited(h.live, Now(h).edit);
    Tracking.CaptureAgrees(l.app, l.tracker);
  }

  lemma {:induction false} MakeSectionQuiet(c: Settings, s: State, spec: SectionSpec) returns (item: Section)
    requires InSync(s) && Quiet(s.host, true) && IsRoot(c.root) && CreatableSection(c, spec)
    ensures var (s', ok) := MakeSection(c, s, spec);
            && ok && Look(s') == With(Look(s), Contents(Look(s).sections + [item], Look(s).scenes))
            && Quiet(s'.host, true) && s'.refs == s.refs
    ensures item.name == spec.name && SectionMatches(c, item, spec)
  {
    item := NewSection(c, spec, Now(s.host)).value;
    QuietCall(s.host, true);
    CallCaptured(s.host);
    CreatedSectionMatches(c, spec, Now(s.host));
    MakeQuiet(Calling(s), Contents(Look(s).sections + [item], Look(s).scenes), Now(s.host));
  }

  lemma {:induction false} MakeSceneQuiet(c: Settings, s: State, spec: SceneSpec, ref: Option<Ref>) returns (item: Scene)
    requires InSync(s) && Quiet(s.host, true) && CreatableScene(c, spec) && Resolves(ref, Look(s))
    ensures var (s', ok) := MakeScene(c, s, spec, ref);
            && ok && Look(s') == With(Look(s), Contents(Look(s).sections, Look(s).scenes + [item]))
            && Quiet(s'.host, true) && s'.refs == s.refs
  {
    item := NewScene(c, spec, PidOf(ref)).value;
    QuietCall(s.host, true);
    CallCaptured(s.host);
    MakeQuiet(Calling(s), Contents(Look(s).sections, Look(s).scenes + [item]), Now(s.host));
  }

  /** After the section steps before i: each is present, and nothing made stands in the way of a later or listed one. */
  ghost predicate SectionsUpTo(c: Settings, steps: seq<Step>, i: nat, items: seq<Section>, made: seq<Section>)
    requires i <= |steps| && ValidPresentation(steps)
  {
    && AllPlanes(c.root, made)
    && (forall k :: 0 <= k < i && IsSection(steps[k]) ==> Present(c, items + made, steps[k]))
    && (forall k :: 0 <= k < |steps| && IsSection(steps[k]) && (k >= i || !SectionMissing(items, steps[k])) ==>
          ForeignSections(made, steps[k]))
  }

  lemma {:induction false} SectionReused(c: Settings, steps: seq<Step>, i: nat, items: seq<Section>, made: seq<Section>)
    requires i < |steps| && ValidPresentation(steps) && SectionsUpTo(c, steps, i, items, made)
    requires IsSection(steps[i]) ==> Present(c, items, steps[i])
    ensures SectionsUpTo(c, steps, i + 1, items, made)
  {
    if IsSection(steps[i]) {
      var pid :| SectionPresent(c, items, steps[i], pid);
      SectionAmong(c, items, made, steps[i], pid);
    }
  }

  lemma {:induction false} SectionApart(steps: seq<Step>, i: nat, k: nat, s: Section)
    requires i < |steps| && k < |steps| && i != k && ValidPresentation(steps)
    requires IsSection(steps[i]) && IsSection(steps[k]) && s.name == steps[i].section.value.name
    requires !Duplicate(steps[k].section.value.name, s.name)
    ensures ForeignSections([s], steps[k])
  {
    assert if k < i then Apart(steps[k], steps[i]) else Apart(steps[i], steps[k]);
  }

  lemma {:induction false} ForeignTwice(made: seq<Section>, s: Section, st: Step)
    requires st.section.Some? && ForeignSections(made, st) && ForeignSections([s], st)
    ensures ForeignSections(made + [s], st)
  {
    SectionNamesAdd(made, [s]);
  }

  /** No other section of the fixture takes the name of step i for a numbered copy of its own. */
  ghost predicate NotACopy(steps: seq<Step>, i: nat)
    requires i < |steps| && ValidPresentation(steps) && IsSection(steps[i])
  {
    forall j :: 0 <= j < |steps| && j != i && IsSection(steps[j]) ==>
      !Duplicate(steps[j].section.value.name, steps[i].section.value.name)
  }

  lemma {:induction false} SectionMade(c: Settings, steps: seq<Step>, i: nat, items: seq<Section>, made: seq<Section>, s: Section)
    requires i < |steps| && ValidPresentation(steps) && SectionsUpTo(c, steps, i, items, made)
    requires IsSection(steps[i]) && s.name == steps[i].section.value.name && SectionMissing(items, steps[i])
    requires SectionMatches(c, s, steps[i].section.value) && NotACopy(steps, i)
    ensures SectionsUpTo(c, steps, i + 1, items, made + [s])
  {
    assert items + (made + [s]) == (items + made) + [s];
    SectionMadePresent(c, items, made, steps[i], s);
    assert Present(c, (items + made) + [s], steps[i]);
    forall k | 0 <= k < i && IsSection(steps[k]) ensures Present(c, items + (made + [s]), steps[k]) {
      var pid :| SectionPresent(c, items + made, steps[k], pid);
      SectionApart(steps, i, k, s);
      SectionAmong(c, items + made, [s], steps[k], pid);
    }
    forall k | 0 <= k < |steps| && IsSection(steps[k]) && (k >= i + 1 || !SectionMissing(items, steps[k]))
      ensures ForeignSections(made + [s], steps[k])
    {
      SectionApart(steps, i, k, s);
      ForeignTwice(made, s, steps[k]);
    }
  }

  /** Where a section loop with nobody else at work stands before step i. */
  ghost predicate SectionsAt(c: Settings, steps: seq<Step>, i: nat, items: seq<Section>, s: State, creates: bool)
    requires i <= |steps| && ValidPresentation(steps)
  {
    && InSync(s) && Quiet(s.host, creates) && items <= Look(s).sections
    && SectionsUpTo(c, steps, i, items, Look(s).sections[|items|..])
    && |Look(s).sections| == |items| + MissingSections(items, steps, i)
  }

  /** From step i in state s to step j in o: it succeeds and only appends the missing sections. */
  ghost predicate SectionsGo(c: Settings, steps: seq<Step>, i: nat, j: nat, items: seq<Section>, s: State, o: Outcome, creates: bool)
    requires i <= |steps| && j <= |steps| && ValidPresentation(steps)
  {
    SectionsAt(c, steps, i, items, s, creates) ==>
      && o.ok && SectionsAt(c, steps, j, items, o.state, creates)
      && o.created == |Look(o.state).sections| - |Look(s).sections|
      && Look(o.state).scenes == Look(s).scenes
  }

  lemma {:induction false} SectionsAtMade(c: Settings, steps: seq<Step>, i: nat, items: seq<Section>, s: State, s': State, item: Section)
    requires i < |steps| && ValidPresentation(steps) && SectionsAt(c, steps, i, items, s, true)
    requires IsSection(steps[i]) && SectionMissing(items, steps[i]) && NotACopy(steps, i)
    requires item.name == steps[i].section.value.name && SectionMatches(c, item, steps[i].section.value)
    requires InSync(s') && Quiet(s'.host, true) && Look(s').sections == Look(s).sections + [item]
    ensures SectionsAt(c, steps, i + 1, items, s', true)
  {
    var made := Look(s).sections[|items|..];
    assert Look(s').sections[|items|..] == made + [item];
    SectionMade(c, steps, i, items, made, item);
  }

  lemma {:induction false} SectionTurnCreates(c: Settings, steps: seq<Step>, i: nat, items: seq<Section>, s: State)
    requires i < |steps| && ValidPresentation(steps) && SectionsAt(c, steps, i, items, s, true) && IsRoot(c.root)
    requires IsSection(steps[i]) && SectionMissing(items, steps[i]) && CreatableSection(c, steps[i].section.value)
    requires NotACopy(steps, i)
    ensures SectionsGo(c, steps, i, i + 1, items, s, SectionTurn(c, steps, i, items, s), true)
  {
    var spec := steps[i].section.value;
    var o := Creating(MakeSection(c, s, spec));
    assert SectionTurn(c, steps, i, items, s) == o;
    var item := MakeSectionQuiet(c, s, spec);
    MakeSectionCounts(c, s, spec);
    SectionsAtMade(c, steps, i, items, s, o.state, item);
  }

  lemma {:induction false} SectionTurnReuses(c: Settings, steps: seq<Step>, i: nat, items: seq<Section>, s: State, creates: bool)
    requires i < |steps| && ValidPresentation(steps) && SectionsAt(c, steps, i, items, s, creates)
    requires IsSection(steps[i]) ==> Present(c, items, steps[i])
    ensures SectionsGo(c, steps, i, i + 1, items, s, SectionTurn(c, steps, i, items, s), creates)
  {
    if IsSection(steps[i]) {
      MatchingIsPresent(c, items, steps[i]);
      assert !SectionMissing(items, steps[i]);
    }
    SectionReused(c, steps, i, items, Look(s).sections[|items|..]);
  }

  lemma {:induction false} SectionTurnGoes(c: Settings, steps: seq<Step>, i: nat, items: seq<Section>, s: State, creates: bool)
    requires i < |steps| && ValidPresentation(steps) && (creates ==> IsRoot(c.root))
    requires SectionReady(c, items, steps, i, creates)
    ensures SectionsGo(c, steps, i, i + 1, items, s, SectionTurn(c, steps, i, items, s), creates)
  {
    if SectionsAt(c, steps, i, items, s, creates) {
      if IsSection(steps[i]) && !Present(c, items, steps[i]) {
        SectionTurnCreates(c, steps, i, items, s);
      } else {
        SectionTurnReuses(c, steps, i, items, s, creates);
      }
    }
  }

  lemma {:induction false} SectionsGoThen(c: Settings, steps: seq<Step>, i: nat, items: seq<Section>, s: State,
                                          o: Outcome, rest: Outcome, creates: bool)
    requires i < |steps| && ValidPresentation(steps)
    requires SectionsGo(c, steps, i, i + 1, items, s, o, creates)
    requires SectionsGo(c, steps, i + 1, |steps|, items, o.state, rest, creates)
    ensures SectionsGo(c, steps, i, |steps|, items, s, Then(o, rest), creates)
  {
  }

  /** Each turn goes on from where the loop stands. */
  ghost predicate SectionTurnsGo(c: Settings, steps: seq<Step>, items: seq<Section>, creates: bool)
    requires ValidPresentation(steps)
  {
    forall i: nat, s {:trigger SectionTurn(c, steps, i, items, s)} :: i < |steps| ==>
      SectionsGo(c, steps, i, i + 1, items, s, SectionTurn(c, steps, i, items, s), creates)
  }

  lemma {:induction false} ReadyTurnsGo(c: Settings, steps: seq<Step>, items: seq<Section>, creates: bool)
    requires ValidPresentation(steps) && SectionsReady(c, items, steps, creates)
    ensures SectionTurnsGo(c, steps, items, creates)
  {
    forall i: nat, s | i < |steps|
      ensures SectionsGo(c, steps, i, i + 1, items, s, SectionTurn(c, steps, i, items, s), creates)
    {
      assert SectionReady(c, items, steps, i, creates);
      SectionTurnGoes(c, steps, i, items, s, creates);
    }
  }

  ghost function SectionsGoing(c: Settings, steps: seq<Step>, items: seq<Section>, creates: bool): Claim
    requires ValidPresentation(steps)
  {
    (i: nat, s, o) => i <= |steps| && SectionsGo(c, steps, i, |steps|, items, s, o, creates)
  }

  lemma {:induction false} SectionsGoStep(c: Settings, steps: seq<Step>, items: seq<Section>, creates: bool, i: nat, s: State)
    requires ValidPresentation(steps) && SectionTurnsGo(c, steps, items, creates) && i < |steps|
    ensures ClaimedStep(SectionsGoing(c, steps, items, creates), SectionTurns(c, steps, items), i, s)
  {
    var o := SectionTurn(c, steps, i, items, s);
    assert SectionTurns(c, steps, items)(i, s) == o;
    assert SectionsGo(c, steps, i, i + 1, items, s, o, creates);
    forall rest | o.ok && SectionsGo(c, steps, i + 1, |steps|, items, o.state, rest, creates)
      ensures SectionsGo(c, steps, i, |steps|, items, s, Then(o, rest), creates)
    {
      SectionsGoThen(c, steps, i, items, s, o, rest, creates);
    }
  }

  lemma {:induction false} SectionsGoOn(c: Settings, steps: seq<Step>, items: seq<Section>, s: State, creates: bool)
    requires ValidPresentation(steps) && SectionTurnsGo(c, steps, items, creates)
    ensures SectionsGo(c, steps, 0, |steps|, items, s, Sections(c, steps, items, s), creates)
  {
    var turn, claim := SectionTurns(c, steps, items), SectionsGoing(c, steps, items, creates);
    forall i: nat, s | i < |steps| ensures ClaimedStep(claim, turn, i, s) {
      SectionsGoStep(c, steps, items, creates, i, s);
    }
    LoopRule(claim, turn, 0, |steps|, s);
  }

  // ---------- the section half of a ready pass ----------

  lemma {:induction false} KnownStay(c: Settings, steps: seq<Step>, items: seq<Section>, made: seq<Section>, pids: map<string, int>)
    requires ValidPresentation(steps) && SectionsUpTo(c, steps, |steps|, items, made) && Known(c, items, steps, pids)
    ensures Known(c, items + made, steps, pids)
  {
    forall id | id in pids
      ensures exists k :: 0 <= k < |steps| && IsSection(steps[k]) && steps[k].id == id &&
                          SectionPresent(c, items + made, steps[k], pids[id])
    {
      var k :| 0 <= k < |steps| && IsSection(steps[k]) && steps[k].id == id && SectionPresent(c, items, steps[k], pids[id]);
      SectionAmong(c, items, made, steps[k], pids[id]);
    }
  }

  lemma {:induction false} KnownAgree(c: Settings, steps: seq<Step>, sections: seq<Section>, pids: map<string, int>)
    requires ValidPresentation(steps) && AllSectionsPresent(c, sections, steps) && Known(c, sections, steps, pids)
    ensures forall id :: id in pids ==> id in PidsIn(c, sections, steps) && PidsIn(c, sections, steps)[id] == pids[id]
  {
    forall id | id in pids ensures id in PidsIn(c, sections, steps) && PidsIn(c, sections, steps)[id] == pids[id] {
      var k :| 0 <= k < |steps| && IsSection(steps[k]) && steps[k].id == id && SectionPresent(c, sections, steps[k], pids[id]);
      SameStep(steps, k);
      PidDetermined(c, sections, steps, id, pids[id]);
    }
  }

  lemma {:induction false} AllSectionsUpTo(c: Settings, steps: seq<Step>, items: seq<Section>, made: seq<Section>)
    requires ValidPresentation(steps) && SectionsUpTo(c, steps, |steps|, items, made)
    requires AllPlanes(c.root, items) && |items| + |made| <= MAX_ITEMS
    ensures AllSectionsPresent(c, items + made, steps)
  {
  }

  /** Where the section loop ends. */
  lemma {:induction false} SectionsDone(c: Settings, steps: seq<Step>, items: seq<Section>, s: State, pids: map<string, int>, creates: bool)
    requires ValidPresentation(steps) && SectionsAt(c, steps, |steps|, items, s, creates)
    requires AllPlanes(c.root, items) && |items| + MissingSections(items, steps, |steps|) <= MAX_ITEMS
    requires Known(c, items, steps, pids)
    ensures AllSectionsPresent(c, Look(s).sections, steps) && Known(c, Look(s).sections, steps, pids)
  {
    var made := Look(s).sections[|items|..];
    assert Look(s).sections == items + made;
    KnownStay(c, steps, items, made, pids);
    AllSectionsUpTo(c, steps, items, made);
  }

  lemma {:induction false} SectionsStart(c: Settings, steps: seq<Step>, s: State, creates: bool)
    requires ValidPresentation(steps) && InSync(s) && Quiet(s.host, creates)
    ensures SectionsAt(c, steps, 0, Look(s).sections, Calling(s), creates) && Look(Calling(s)) == Look(s) && !Now(s.host).fails
  {
    CallUndisturbed(s, creates);
  }

  /** With nobody else at work: the section half creates what is missing, and then every section is there. */
  lemma {:induction false} SectionHalfSucceeds(c: Settings, steps: seq<Step>, s: State, pids: map<string, int>, creates: bool)
    requires ValidPresentation(steps) && InSync(s) && Quiet(s.host, creates)
    requires SectionsReady(c, Look(s).sections, steps, creates) && Known(c, Look(s).sections, steps, pids)
    ensures var o := SectionHalf(c, steps, s);
            && o.ok && o.created == MissingSections(Look(s).sections, steps, |steps|)
            && InSync(o.state) && Quiet(o.state.host, creates) && Look(o.state).scenes == Look(s).scenes
            && AllSectionsPresent(c, Look(o.state).sections, steps) && Known(c, Look(o.state).sections, steps, pids)
  {
    var items, s1 := Look(s).sections, Calling(s);
    SectionsStart(c, steps, s, creates);
    ReadyTurnsGo(c, steps, items, creates);
    SectionsGoOn(c, steps, items, s1, creates);
    assert SectionHalf(c, steps, s) == Sections(c, steps, items, s1);
    SectionsDone(c, steps, items, SectionHalf(c, steps, s).state, pids, creates);
  }

  // ---------- references with nobody else at work ----------

  lemma {:induction false} CollectSome(c: Settings, steps: seq<Step>, items: seq<Section>, at: nat, n: nat)
    requires n <= |steps| && ValidPresentation(steps) && AllSectionsPresent(c, items, steps)
    ensures Collect(c, steps, items, at, n).Some?
  {
    if n > 0 {
      CollectSome(c, steps, items, at, n - 1);
      if IsSection(steps[n - 1]) {
        assert Present(c, items, steps[n - 1]);
        MatchingIsPresent(c, items, steps[n - 1]);
      }
    }
  }

  lemma {:induction false} RefreshSucceeds(c: Settings, steps: seq<Step>, s: State, creates: bool)
    requires ValidPresentation(steps) && InSync(s) && Quiet(s.host, creates) && AllSectionsPresent(c, Look(s).sections, steps)
    ensures var (s', ok) := Refreshed(c, steps, s);
            && ok && InSync(s') && Undisturbed(s, s', creates) && Referenced(c, steps, s')
            && forall id :: id in s'.refs ==> s'.refs[id].revision == s'.revision
  {
    CallUndisturbed(s, creates);
    CollectSome(c, steps, Look(s).sections, s.revision, |steps|);
    RefreshedReferences(c, steps, s);
  }

  lemma {:induction false} SceneSectionKnown(steps: seq<Step>, i: nat)
    requires ValidPresentation(steps) && i < |steps| && IsScene(steps[i]) && steps[i].scene.value.sectionId != ""
    ensures steps[i].scene.value.sectionId in SectionIds(steps)
  {
    assert SectionBefore(steps, i);
  }

  lemma {:induction false} CurrentResolves(c: Settings, steps: seq<Step>, s: State, id: string)
    requires ValidPresentation(steps) && InSync(s) && Referenced(c, steps, s)
    requires id in SectionIds(steps) && s.refs[id].revision == s.revision
    ensures Resolves(Some(s.refs[id]), Look(s))
  {
    PidResolves(c, Look(s).sections, steps, id);
    assert Pids(s.refs)[id] == s.refs[id].pid;
  }

  lemma {:induction false} RefForQuiet(c: Settings, steps: seq<Step>, s: State, i: nat)
    requires ValidPresentation(steps) && i < |steps| && IsScene(steps[i])
    requires InSync(s) && Quiet(s.host, true) && Referenced(c, steps, s)
    ensures var (s', ref, ok) := RefFor(c, steps, s, steps[i].scene.value.sectionId);
            && ok && InSync(s') && Undisturbed(s, s', true) && Resolves(ref, Look(s'))
            && Referenced(c, steps, s') && Pids(s'.refs) == Pids(s.refs)
  {
    var id := steps[i].scene.value.sectionId;
    if id != "" {
      SceneSectionKnown(steps, i);
      if s.refs[id].revision == s.revision {
        CurrentResolves(c, steps, s, id);
      } else {
        RefreshSucceeds(c, steps, s, true);
        CurrentResolves(c, steps, Refreshed(c, steps, s).0, id);
      }
    }
  }

  // ---------- the scene half of a ready pass ----------

  /** Where a scene loop with nobody else at work stands. */
  ghost predicate ScenesAt(c: Settings, steps: seq<Step>, s: State, pids: map<string, int>, creates: bool)
    requires ValidPresentation(steps)
  {
    InSync(s) && Quiet(s.host, creates) && Referenced(c, steps, s) && Pids(s.refs) == pids
  }

  /** From step i in state s to step j in o: it succeeds and creates the missing scenes. */
  ghost predicate ScenesGo(c: Settings, steps: seq<Step>, i: nat, j: nat, items: seq<Scene>, pids: map<string, int>,
                           s: State, o: Outcome, creates: bool)
    requires i <= |steps| && j <= |steps| && ValidPresentation(steps)
  {
    ScenesAt(c, steps, s, pids, creates) ==>
      && o.ok && ScenesAt(c, steps, o.state, pids, creates)
      && o.created == MissingScenes(items, steps, j) - MissingScenes(items, steps, i)
  }

  lemma {:induction false} SceneTurnCreates(c: Settings, steps: seq<Step>, i: nat, items: seq<Scene>, pids: map<string, int>, s: State)
    requires i < |steps| && ValidPresentation(steps) && ScenesAt(c, steps, s, pids, true)
    requires SceneMissing(items, steps[i]) && CreatableScene(c, steps[i].scene.value)
    ensures ScenesGo(c, steps, i, i + 1, items, pids, s, SceneTurn(c, steps, i, items, s), true)
  {
    var spec := steps[i].scene.value;
    var (s', ref, ok) := RefFor(c, steps, s, spec.sectionId);
    RefForQuiet(c, steps, s, i);
    var o := Creating(MakeScene(c, s', spec, ref));
    assert SceneTurn(c, steps, i, items, s) == o;
    var _ := MakeSceneQuiet(c, s', spec, ref);
    MakeSceneCounts(c, s', spec, ref);
  }

  lemma {:induction false} SceneTurnReuses(c: Settings, steps: seq<Step>, i: nat, items: seq<Scene>, pids: map<string, int>,
                                           s: State, creates: bool)
    requires i < |steps| && ValidPresentation(steps)
    requires IsScene(steps[i]) ==> ScenePresent(c, items, steps[i], pids)
    ensures ScenesGo(c, steps, i, i + 1, items, pids, s, SceneTurn(c, steps, i, items, s), creates)
  {
    if IsScene(steps[i]) {
      var spec := steps[i].scene.value;
      var k: nat :| Sole(SceneNames(items), spec.name, k) && SceneMatches(c, items[k], spec, pids);
      ReuseSole(SceneNames(items), spec.name, k);
      assert SceneNames(items)[k] == spec.name;
      assert !SceneMissing(items, steps[i]);
    }
  }

  lemma {:induction false} SceneTurnGoes(c: Settings, steps: seq<Step>, i: nat, items: seq<Scene>, pids: map<string, int>,
                                         s: State, creates: bool)
    requires i < |steps| && ValidPresentation(steps) && SceneReady(c, items, steps, i, pids, creates)
    ensures ScenesGo(c, steps, i, i + 1, items, pids, s, SceneTurn(c, steps, i, items, s), creates)
  {
    if IsScene(steps[i]) && !ScenePresent(c, items, steps[i], pids) {
      if ScenesAt(c, steps, s, pids, creates) { SceneTurnCreates(c, steps, i, items, pids, s); }
    } else {
      SceneTurnReuses(c, steps, i, items, pids, s, creates);
    }
  }

  lemma {:induction false} ScenesGoThen(c: Settings, steps: seq<Step>, i: nat, items: seq<Scene>, pids: map<string, int>,
                                        s: State, o: Outcome, rest: Outcome, creates: bool)
    requires i < |steps| && ValidPresentation(steps)
    requires ScenesGo(c, steps, i, i + 1, items, pids, s, o, creates)
    requires ScenesGo(c, steps, i + 1, |steps|, items, pids, o.state, rest, creates)
    ensures ScenesGo(c, steps, i, |steps|, items, pids, s, Then(o, rest), creates)
  {
  }

  ghost predicate SceneTurnsGo(c: Settings, steps: seq<Step>, items: seq<Scene>, pids: map<string, int>, creates: bool)
    requires ValidPresentation(steps)
  {
    forall i: nat, s {:trigger SceneTurn(c, steps, i, items, s)} :: i < |steps| ==>
      ScenesGo(c, steps, i, i + 1, items, pids, s, SceneTurn(c, steps, i, items, s), creates)
  }

  lemma {:induction false} ReadyScenesGo(c: Settings, steps: seq<Step>, items: seq<Scene>, pids: map<string, int>, creates: bool)
    requires ValidPresentation(steps) && ScenesReady(c, items, steps, pids, creates)
    ensures SceneTurnsGo(c, steps, items, pids, creates)
  {
    forall i: nat, s | i < |steps|
      ensures ScenesGo(c, steps, i, i + 1, items, pids, s, SceneTurn(c, steps, i, items, s), creates)
    {
      assert SceneReady(c, items, steps, i, pids, creates);
      SceneTurnGoes(c, steps, i, items, pids, s, creates);
    }
  }

  ghost function ScenesGoing(c: Settings, steps: seq<Step>, items: seq<Scene>, pids: map<string, int>, creates: bool): Claim
    requires ValidPresentation(steps)
  {
    (i: nat, s, o) => i <= |steps| && ScenesGo(c, steps, i, |steps|, items, pids, s, o, creates)
  }

  lemma {:induction false} ScenesGoStep(c: Settings, steps: seq<Step>, items: seq<Scene>, pids: map<string, int>, creates: bool,
                                        i: nat, s: State)
    requires ValidPresentation(steps) && SceneTurnsGo(c, steps, items, pids, creates) && i < |steps|
    ensures ClaimedStep(ScenesGoing(c, steps, items, pids, creates), SceneTurns(c, steps, items), i, s)
  {
    var o := SceneTurn(c, steps, i, items, s);
    assert SceneTurns(c, steps, items)(i, s) == o;
    assert ScenesGo(c, steps, i, i + 1, items, pids, s, o, creates);
    forall rest | o.ok && ScenesGo(c, steps, i + 1, |steps|, items, pids, o.state, rest, creates)
      ensures ScenesGo(c, steps, i, |steps|, items, pids, s, Then(o, rest), creates)
    {
      ScenesGoThen(c, steps, i, items, pids, s, o, rest, creates);
    }
  }

  lemma {:induction false} ScenesGoOn(c: Settings, steps: seq<Step>, items: seq<Scene>, pids: map<string, int>, s: State, creates: bool)
    requires ValidPresentation(steps) && SceneTurnsGo(c, steps, items, pids, creates)
    ensures ScenesGo(c, steps, 0, |steps|, items, pids, s, Scenes(c, steps, items, s), creates)
  {
    var turn, claim := SceneTurns(c, steps, items), ScenesGoing(c, steps, items, pids, creates);
    forall i: nat, s | i < |steps| ensures ClaimedStep(claim, turn, i, s) {
      ScenesGoStep(c, steps, items, pids, creates, i, s);
    }
    LoopRule(claim, turn, 0, |steps|, s);
  }

  lemma {:induction false} SceneHalfSucceeds(c: Settings, steps: seq<Step>, s: State, creates: bool)
    requires ValidPresentation(steps) && ScenesAt(c, steps, s, Pids(s.refs), creates)
    requires ScenesReady(c, Look(s).scenes, steps, Pids(s.refs), creates)
    ensures var o := SceneHalf(c, steps, s);
            o.ok && o.created == MissingScenes(Look(s).scenes, steps, |steps|) && Quiet(o.state.host, creates)
  {
    var items, s1, pids := Look(s).scenes, Calling(s), Pids(s.refs);
    CallUndisturbed(s, creates);
    ReadyScenesGo(c, steps, items, pids, creates);
    ScenesGoOn(c, steps, items, pids, s1, creates);
    assert ScenesAt(c, steps, s1, pids, creates);
  }

  /**
   With nobody else at work: a pass succeeds when every step is there and matching, or absent
   and creatable; and it creates exactly the absent ones.
   */
  lemma {:induction false} PassSucceeds(c: Settings, steps: seq<Step>, s: State, pids: map<string, int>, creates: bool)
    requires ValidPresentation(steps) && InSync(s) && Quiet(s.host, creates) && PassReady(c, Look(s), steps, pids, creates)
    ensures var o := Pass(c, steps, s);
            o.ok && o.created == ToCreate(Look(s), steps) && Quiet(o.state.host, creates)
  {
    var a := SectionHalf(c, steps, s);
    SectionHalfSucceeds(c, steps, s, pids, creates);
    var s1 := Refreshed(c, steps, a.state).0;
    RefreshSucceeds(c, steps, a.state, creates);
    KnownAgree(c, steps, Look(s1).sections, pids);
    MorePids(c, Look(s1).scenes, steps, pids, Pids(s1.refs), creates);
    SceneHalfSucceeds(c, steps, s1, creates);
  }

  // ---------- the second pass ----------

  lemma {:induction false} OnceInBoth(steps: seq<Step>, m: Model, m': Model)
    requires ValidPresentation(steps) && m'.sections == m.sections && m'.scenes == m.scenes
    ensures OnceEach(steps, m', |steps|) == OnceEach(steps, m, |steps|)
  {
  }

  /** With nobody else at work: the check accepts exactly the models that hold every item once. */
  lemma {:induction false} VerifiedIff(c: Settings, steps: seq<Step>, s: State)
    requires ValidPresentation(steps) && Quiet(s.host, false)
    ensures var (s', ok) := Verified(c, steps, s);
            && Undisturbed(s, s', false)
            && (ok <==> && InSync(s) && AllPlanes(c.root, Look(s).sections) && |Look(s).sections| <= MAX_ITEMS
                        && |Look(s).scenes| <= MAX_ITEMS && OnceEach(steps, Look(s), |steps|))
  {
    CallUndisturbed(s, false);
    CallUndisturbed(Calling(s), false);
    OnceInBoth(steps, Look(s), Model("", 0, Look(s).sections, Look(s).scenes));
  }

  lemma {:induction false} PreparedRepeats(c: Settings, steps: seq<Step>, s: State)
    requires ValidPresentation(steps) && InSync(s) && Quiet(s.host, false)
    requires Prepared(c, Look(s), steps) && |Look(s).scenes| <= MAX_ITEMS
    ensures Repeated(c, steps, s).ok
  {
    var o, pids := Pass(c, steps, s), PidsIn(c, Look(s).sections, steps);
    SettledIsReady(Look(s), c, steps, pids);
    PassSucceeds(c, steps, s, pids, false);
    PassCounts(c, steps, s);
    PassReuses(c, steps, s);
    SettledOnce(c, Look(s), steps, pids);
    OnceInBoth(steps, Look(s), Look(o.state));
    VerifiedIff(c, steps, o.state);
  }

  /**
   With nobody else at work: a repetition succeeds exactly on a prepared model whose scenes can
   be listed completely, and then it creates nothing, accounts for every step and changes nothing.
   */
  lemma {:induction false} RepeatsIff(c: Settings, steps: seq<Step>, s: State)
    requires ValidPresentation(steps) && InSync(s) && Quiet(s.host, false)
    ensures var r := Repeated(c, steps, s);
            && (r.ok <==> Prepared(c, Look(s), steps) && |Look(s).scenes| <= MAX_ITEMS)
            && (r.ok ==> r.created == 0 && r.reused == |steps| && Look(r.state) == Look(s))
  {
    if Repeated(c, steps, s).ok {
      PassReuses(c, steps, s);
      VerifiedIff(c, steps, Pass(c, steps, s).state);
    } else if Prepared(c, Look(s), steps) && |Look(s).scenes| <= MAX_ITEMS {
      PreparedRepeats(c, steps, s);
    }
  }

  /** With nobody else at work: a repetition that has nothing to create changes nothing, succeed or not. */
  lemma {:induction false} RepeatStill(c: Settings, steps: seq<Step>, s: State)
    requires ValidPresentation(steps) && Quiet(s.host, false)
    requires NoSectionMissing(Look(s).sections, steps) && NoSceneMissing(Look(s).scenes, steps)
    ensures Look(Repeated(c, steps, s).state) == Look(s)
  {
    PassStill(c, steps, s);
    VerifiedIff(c, steps, Pass(c, steps, s).state);
  }

  lemma {:induction false} PreparedMeansApart(c: Settings, m: Model, steps: seq<Step>)
    requires ValidPresentation(steps) && Prepared(c, m, steps)
    ensures NonConflicting(steps)
  {
    forall k | 0 <= k < |steps| && IsScene(steps[k])
      ensures Reusable(SceneNames(m.scenes), steps[k].scene.value.name)
      ensures steps[k].scene.value.name in SceneNames(m.scenes)
    {
      assert ScenePresent(c, m.scenes, steps[k], PidsIn(c, m.sections, steps));
    }
    ReusableMeansApart(steps, m.scenes);
  }

  /** The runner after a pass, when the others are gone. */
  function Calmed(s: State, calm: seq<Turn>): State {
    s.(host := s.host.(script := calm))
  }

  /**
   Two passes, the second with nobody else at work. Whatever others did during the first, when
   it succeeds the second succeeds exactly on a prepared, listable model. If the tracker
   attended the first, that is so exactly when no scene name of the fixture is a numbered copy
   of another and the scenes can still be listed; and either way the second changes nothing.
   */
  lemma {:induction false} TwoPasses(c: Settings, steps: seq<Step>, s: State, calm: seq<Turn>)
    requires ValidPresentation(steps) && Pass(c, steps, s).ok
    requires Quiet(Calmed(Pass(c, steps, s).state, calm).host, false)
    ensures var between := Calmed(Pass(c, steps, s).state, calm);
            var m, r := Look(between), Repeated(c, steps, between);
            && (r.ok <==> Prepared(c, m, steps) && |m.scenes| <= MAX_ITEMS)
            && (r.ok ==> NonConflicting(steps) && r.created == 0 && r.reused == |steps| && Look(r.state) == m)
            && (InSync(s) && Watched(s, Pass(c, steps, s).state) ==>
                  (r.ok <==> NonConflicting(steps) && |m.scenes| <= MAX_ITEMS) && Look(r.state) == m)
  {
    var o := Pass(c, steps, s);
    var between := Calmed(o.state, calm);
    PassCounts(c, steps, s);
    RepeatsIff(c, steps, between);
    if Repeated(c, steps, between).ok { PreparedMeansApart(c, Look(between), steps); }
    if InSync(s) && Watched(s, o.state) {
      PassWatched(c, steps, s);
      PresentListed(c, Look(between).sections, steps);
      ListedNotMissing(steps, Look(between).scenes);
      RepeatStill(c, steps, between);
    }
  }
}
