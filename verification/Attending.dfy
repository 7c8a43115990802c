/**
 When the tracker attends a whole pass: it does so whenever it observes the active model at the
 start and others do nothing but commit, however much and to whatever model.
 */
module Attending {
  import opened Basics
  import opened Names
  import opened Presentation
  import opened LiveModel
  import opened Matching
  import opened Passes
  import opened Settling
  import opened Repeating

  /** From s to s' steadiness is kept, and the tracker attended. */
  ghost predicate Held(s: State, s': State) {
    Steady(s.host) ==> Steady(s'.host) && Watched(s, s')
  }

  lemma {:induction false} HeldOn(a: State, b: State, c: State)
    requires Held(a, b) && Held(b, c)
    ensures Held(a, c)
  {
  }

  lemma {:induction false} CallHeld(s: State)
    ensures Held(s, Calling(s))
  {
    if Steady(s.host) { SteadyCall(s.host); }
  }

  lemma {:induction false} MakeHeld(s: State, contents: Contents, t: Turn)
    requires Steady(s.host) ==> OnlyCommits(t.after)
    ensures Held(s, Make(s, contents, t).0)
  {
    var s1 := s.(host := Created(s.host, contents, t));
    if Steady(s.host) {
      SteadyCreate(s.host, contents, t);
      SteadyCall(s1.host);
    }
  }

  lemma {:induction false} MakeSectionHeld(c: Settings, s: State, spec: SectionSpec)
    ensures Held(s, MakeSection(c, s, spec).0)
  {
    var s1, item := Calling(s), NewSection(c, spec, Now(s.host));
    if Steady(s.host) {
      SteadyCall(s.host);
      if item.Some? { MakeHeld(s1, Contents(Look(s1).sections + [item.value], Look(s1).scenes), Now(s.host)); }
    }
  }

  lemma {:induction false} MakeSceneHeld(c: Settings, s: State, spec: SceneSpec, ref: Option<Ref>)
    ensures Held(s, MakeScene(c, s, spec, ref).0)
  {
    var s1, item := Calling(s), NewScene(c, spec, PidOf(ref));
    if Steady(s.host) {
      SteadyCall(s.host);
      if item.Some? { MakeHeld(s1, Contents(Look(s1).sections, Look(s1).scenes + [item.value]), Now(s.host)); }
    }
  }

  lemma {:induction false} RefForHeld(c: Settings, steps: seq<Step>, s: State, id: string)
    requires ValidPresentation(steps)
    ensures Held(s, RefFor(c, steps, s, id).0)
  {
    CallHeld(s);
  }

  lemma {:induction false} MakeSceneForHeld(c: Settings, steps: seq<Step>, s: State, spec: SceneSpec)
    requires ValidPresentation(steps)
    ensures Held(s, MakeSceneFor(c, steps, s, spec).0)
  {
    var (s', ref, ok) := RefFor(c, steps, s, spec.sectionId);
    RefForHeld(c, steps, s, spec.sectionId);
    MakeSceneHeld(c, s', spec, ref);
    HeldOn(s, s', MakeScene(c, s', spec, ref).0);
  }

  lemma {:induction false} SectionTurnHeld(c: Settings, steps: seq<Step>, i: nat, items: seq<Section>, s: State)
    requires i < |steps| && ValidPresentation(steps)
    ensures Held(s, SectionTurn(c, steps, i, items, s).state)
  {
    var o := SectionTurn(c, steps, i, items, s);
    if IsSection(steps[i]) {
      var spec := steps[i].section.value;
      assert o.state == s || o.state == MakeSection(c, s, spec).0;
      MakeSectionHeld(c, s, spec);
    }
  }

  lemma {:induction false} SceneTurnHeld(c: Settings, steps: seq<Step>, i: nat, items: seq<Scene>, s: State)
    requires i < |steps| && ValidPresentation(steps)
    ensures Held(s, SceneTurn(c, steps, i, items, s).state)
  {
    if IsScene(steps[i]) { MakeSceneForHeld(c, steps, s, steps[i].scene.value); }
  }

  lemma {:induction false} LoopHeld(turn: Turner, n: nat, s: State)
    requires forall i: nat, s {:trigger turn(i, s)} :: i < n ==> Held(s, turn(i, s).state)
    ensures Held(s, Loop(turn, 0, n, s).state)
  {
    var claim: Claim := (i: nat, s: State, o: Outcome) => Held(s, o.state);
    forall i: nat, s | i < n ensures ClaimedStep(claim, turn, i, s) {
      var o := turn(i, s);
      assert Held(s, o.state);
      forall rest | o.ok && claim(i + 1, o.state, rest) ensures claim(i, s, Then(o, rest)) {
        HeldOn(s, o.state, rest.state);
      }
    }
    LoopRule(claim, turn, 0, n, s);
  }

  lemma {:induction false} SectionHalfHeld(c: Settings, steps: seq<Step>, s: State)
    requires ValidPresentation(steps)
    ensures Held(s, SectionHalf(c, steps, s).state)
  {
    CallHeld(s);
    match SectionList(c, s)
    case None =>
    case Some(items) =>
      var turn := SectionTurns(c, steps, items);
      forall i: nat, s | i < |steps| ensures Held(s, turn(i, s).state) {
        SectionTurnHeld(c, steps, i, items, s);
      }
      LoopHeld(turn, |steps|, Calling(s));
      HeldOn(s, Calling(s), SectionHalf(c, steps, s).state);
  }

  lemma {:induction false} SceneHalfHeld(c: Settings, steps: seq<Step>, s: State)
    requires ValidPresentation(steps)
    ensures Held(s, SceneHalf(c, steps, s).state)
  {
    CallHeld(s);
    match SceneList(s)
    case None =>
    case Some(items) =>
      var turn := SceneTurns(c, steps, items);
      forall i: nat, s | i < |steps| ensures Held(s, turn(i, s).state) {
        SceneTurnHeld(c, steps, i, items, s);
      }
      LoopHeld(turn, |steps|, Calling(s));
      HeldOn(s, Calling(s), SceneHalf(c, steps, s).state);
  }

  lemma {:induction false} RefreshedHeld(c: Settings, steps: seq<Step>, s: State)
    requires ValidPresentation(steps)
    ensures Held(s, Refreshed(c, steps, s).0)
  {
    CallHeld(s);
  }

  lemma {:induction false} PassHeld(c: Settings, steps: seq<Step>, s: State)
    requires ValidPresentation(steps)
    ensures Held(s, Pass(c, steps, s).state)
  {
    var a := SectionHalf(c, steps, s);
    var s1 := Refreshed(c, steps, a.state).0;
    SectionHalfHeld(c, steps, s);
    RefreshedHeld(c, steps, a.state);
    SceneHalfHeld(c, steps, s1);
    HeldOn(s, a.state, s1);
    HeldOn(s, s1, SceneHalf(c, steps, s1).state);
  }

  /**
   Others may commit to any model between and within the calls of the first pass. If it succeeds
   nevertheless, and the second pass is left alone, the second succeeds exactly when no scene
   name of the fixture is a numbered copy of another and the scenes can be listed completely.
   */
  lemma {:induction false} TwoPassesAmongEditors(c: Settings, steps: seq<Step>, s: State, calm: seq<Turn>)
    requires ValidPresentation(steps) && InSync(s) && Steady(s.host) && Pass(c, steps, s).ok
    requires Quiet(Calmed(Pass(c, steps, s).state, calm).host, false)
    ensures var between := Calmed(Pass(c, steps, s).state, calm);
            var r := Repeated(c, steps, between);
            && (r.ok <==> NonConflicting(steps) && |Look(between).scenes| <= MAX_ITEMS)
            && Look(r.state) == Look(between)
            && Appended(Look(s), Look(between), Pass(c, steps, s).created)
  {
    PassHeld(c, steps, s);
    PassWatched(c, steps, s);
    TwoPasses(c, steps, s, calm);
  }
}
