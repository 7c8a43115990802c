/** The layout runner: its passes, call by call, against a model that others may edit. */
module Runner {
  import opened Basics
  import opened Names
  import opened Presentation
  import opened LiveModel
  import opened Matching
  import opened Passes
  import opened Settling
  import opened Repeating

  lemma {:induction false} CollectFails(c: Settings, steps: seq<Step>, items: seq<Section>, at: nat, n: nat, m: nat)
    requires n <= m <= |steps| && ValidPresentation(steps) && Collect(c, steps, items, at, n).None?
    ensures Collect(c, steps, items, at, m).None?
  {
    if n < m { CollectFails(c, steps, items, at, n, m - 1); }
  }

  /** What a loop has done before step i, and what it still does. */
  ghost predicate LoopStands(turn: Turner, i: nat, n: nat, done: Outcome, whole: Outcome) {
    done.ok && Then(done, Loop(turn, i, n, done.state)) == whole
  }

  lemma {:induction false} LoopNext(turn: Turner, i: nat, n: nat, done: Outcome, whole: Outcome)
    requires i < n && LoopStands(turn, i, n, done, whole)
    ensures var o := Then(done, turn(i, done.state)); if o.ok then LoopStands(turn, i + 1, n, o, whole) else o == whole
  {
  }

  class PresentationRunner {
    const c: Settings
    const steps: seq<Step>
    var host: Host
    var guid: string
    var revision: nat
    var refs: map<string, Ref>

    function View(): State
      reads this
    {
      State(host, guid, revision, refs)
    }

    constructor (c: Settings, steps: seq<Step>, host: Host)
      ensures this.c == c && this.steps == steps
      ensures View() == State(host, ModelOf(host).guid, ModelOf(host).revision, map[])
    {
      this.c, this.steps, this.host := c, steps, host;
      guid, revision, refs := ModelOf(host).guid, ModelOf(host).revision, map[];
    }

    // ---------- one tool call ----------

    /** The environment's share of one tool call. */
    method Serve() returns (turn: Turn)
      modifies this`host
      ensures turn == Now(old(host)) && View() == Calling(old(View()))
    {
      turn := Now(host);
      host := Called(host);
    }

    /**
     A list is taken exactly if the call goes through, shows the known model at the known
     revision, and is complete. While the tracker attends it is then the list of the known model.
     */
    method ListSections() returns (items: Option<seq<Section>>)
      modifies this`host
      ensures View() == Calling(old(View())) && items == SectionList(c, old(View()))
      ensures items.Some? <==>
                && !Now(old(host)).fails && InSync(View())
                && |Look(View()).sections| <= MAX_ITEMS && AllPlanes(c.root, Look(View()).sections)
      ensures items.Some? && old(InSync(View())) && Watched(old(View()), View()) ==> items.value == Look(old(View())).sections
    {
      ghost var before := View();
      var turn := Serve();
      if InSync(View()) && InSync(before) && Watched(before, View()) { CallWatched(before); }
      var m := ModelOf(host);
      if turn.fails || !AllPlanes(c.root, m.sections) { return None; }
      if m.guid != guid || m.revision != revision { return None; }
      if |m.sections| > MAX_ITEMS { return None; }
      return Some(m.sections);
    }

    method ListScenes() returns (items: Option<seq<Scene>>)
      modifies this`host
      ensures View() == Calling(old(View())) && items == SceneList(old(View()))
      ensures items.Some? <==> !Now(old(host)).fails && InSync(View()) && |Look(View()).scenes| <= MAX_ITEMS
      ensures items.Some? && old(InSync(View())) && Watched(old(View()), View()) ==> items.value == Look(old(View())).scenes
    {
      ghost var before := View();
      var turn := Serve();
      if InSync(View()) && InSync(before) && Watched(before, View()) { CallWatched(before); }
      var m := ModelOf(host);
      if turn.fails || m.guid != guid || m.revision != revision { return None; }
      if |m.scenes| > MAX_ITEMS { return None; }
      return Some(m.scenes);
    }

    /** readSummary: the model must be the same; the revision may have moved on. */
    method ReadSummary() returns (ok: bool)
      modifies this`host, this`revision
      ensures (View(), ok) == SummaryRead(old(View())) && host == Called(old(host))
      ensures ok <==> !Now(old(host)).fails && ModelOf(host).guid == guid && ModelOf(host).revision >= old(revision)
      ensures revision == if ok then ModelOf(host).revision else old(revision)
    {
      var turn := Serve();
      var m := ModelOf(host);
      if turn.fails || m.guid != guid || m.revision < revision { return false; }
      revision := m.revision;
      return true;
    }

    /** What callMutation demands after a creation: one revision further, in the answer and in the summary. */
    method Confirm() returns (ok: bool)
      modifies this`host, this`revision
      ensures (View(), ok) == Confirmed(old(View()))
    {
      var answered := ModelOf(host);
      if answered.guid != guid || answered.revision != revision + 1 { return false; }
      ok := ReadSummary();
      return ok && revision == answered.revision;
    }

    /**
     section_plane.create through callMutation. If it succeeds on a model the runner is in step
     with, the revision is one further; and while the tracker attends, the model is the one
     before with the new section behind its sections.
     */
    method CreateSection(spec: SectionSpec) returns (ok: bool)
      modifies this`host, this`revision
      ensures (View(), ok) == MakeSection(c, old(View()), spec)
      ensures ok ==> InSync(View()) && guid == ModelOf(host).guid && revision == old(revision) + 1
      ensures ok && old(InSync(View())) && Watched(old(View()), View()) ==>
                exists item :: NewSection(c, spec, Now(old(host))) == Some(item) &&
                               Look(View()) == With(Look(old(View())), Contents(Look(old(View())).sections + [item], Look(old(View())).scenes))
    {
      ghost var before := View();
      ok := Section(spec);
      MakeSectionCounts(c, before, spec);
      if ok && InSync(before) && Watched(before, View()) { var _ := MakeSectionWatched(c, before, spec); }
    }

    method Section(spec: SectionSpec) returns (ok: bool)
      modifies this`host, this`revision
      ensures (View(), ok) == MakeSection(c, old(View()), spec)
    {
      var turn := Serve();
      var m, item := ModelOf(host), NewSection(c, spec, turn);
      if turn.fails || item.None? || m.guid != guid || m.revision != revision { return false; }
      host := Created(host, Contents(m.sections + [item.value], m.scenes), turn);
      ok := Confirm();
    }

    /** scene.create through callMutation: a section reference must also be of the current revision and resolve. */
    method CreateScene(spec: SceneSpec, ref: Option<Ref>) returns (ok: bool)
      modifies this`host, this`revision
      ensures (View(), ok) == MakeScene(c, old(View()), spec, ref)
      ensures ok ==> InSync(View()) && guid == ModelOf(host).guid && revision == old(revision) + 1
      ensures ok && old(InSync(View())) && Watched(old(View()), View()) ==>
                exists item :: NewScene(c, spec, PidOf(ref)) == Some(item) &&
                               Look(View()) == With(Look(old(View())), Contents(Look(old(View())).sections, Look(old(View())).scenes + [item]))
    {
      ghost var before := View();
      ok := Scene(spec, ref);
      MakeSceneCounts(c, before, spec, ref);
      if ok && InSync(before) && Watched(before, View()) { var _ := MakeSceneWatched(c, before, spec, ref); }
    }

    method Scene(spec: SceneSpec, ref: Option<Ref>) returns (ok: bool)
      modifies this`host, this`revision
      ensures (View(), ok) == MakeScene(c, old(View()), spec, ref)
    {
      var turn := Serve();
      var m, item := ModelOf(host), NewScene(c, spec, PidOf(ref));
      if turn.fails || item.None? || m.guid != guid || m.revision != revision || !Resolves(ref, m) { return false; }
      host := Created(host, Contents(m.sections, m.scenes + [item.value]), turn);
      ok := Confirm();
    }

    // ---------- section references ----------

    method Find(names: seq<string>, wanted: string) returns (r: Search)
      ensures r == Reuse(names, wanted)
    {
      r := FindReusable(names, wanted);
      if r.Found? { ReuseSole(names, wanted, r.index); }
      if r.Ambiguous? { assert !Reuse(names, wanted).Found?; }
    }

    /** What refreshSectionRefs looks for: the one section of the name, if it matches. */
    method FindSection(items: seq<Section>, st: Step) returns (item: Option<Section>)
      requires st.section.Some?
      ensures item == MatchingSection(c, items, st)
    {
      var spec := st.section.value;
      var r := Find(SectionNames(items), spec.name);
      if r.Found? && SectionMatches(c, items[r.index], spec) { return Some(items[r.index]); }
      return None;
    }

    method CollectRefs(items: seq<Section>) returns (next: Option<map<string, Ref>>)
      requires ValidPresentation(steps)
      ensures next == Collect(c, steps, items, revision, |steps|)
    {
      var found: map<string, Ref> := map[];
      for i := 0 to |steps|
        invariant Collect(c, steps, items, revision, i) == Some(found)
      {
        if IsSection(steps[i]) {
          var item := FindSection(items, steps[i]);
          if item.None? {
            CollectFails(c, steps, items, revision, i + 1, |steps|);
            return None;
          }
          found := found[steps[i].id := Ref(item.value.pid, revision)];
        }
      }
      return Some(found);
    }

    /** refreshSectionRefs: if it succeeds, the references are those of the fixture's sections, at the current revision. */
    method RefreshSectionRefs() returns (ok: bool)
      requires ValidPresentation(steps)
      modifies this`host, this`refs
      ensures (View(), ok) == Refreshed(c, steps, old(View()))
      ensures ok ==> Referenced(c, steps, View()) && forall id :: id in refs ==> refs[id].revision == revision
    {
      ghost var before := View();
      if Refreshed(c, steps, before).1 { RefreshedReferences(c, steps, before); }
      ok := Refresh();
    }

    method Refresh() returns (ok: bool)
      requires ValidPresentation(steps)
      modifies this`host, this`refs
      ensures (View(), ok) == Refreshed(c, steps, old(View()))
    {
      var items := ListSections();
      if items.None? { return false; }
      var next := CollectRefs(items.value);
      if next.None? { return false; }
      refs := next.value;
      return true;
    }

    // ---------- the section half of the pass ----------

    method SectionStep(i: nat, items: seq<Section>) returns (ok: bool, created: nat, reused: nat)
      requires ValidPresentation(steps) && i < |steps|
      modifies this`host, this`revision
      ensures Outcome(View(), ok, created, reused) == SectionTurn(c, steps, i, items, old(View()))
    {
      if !IsSection(steps[i]) { return true, 0, 0; }
      var spec := steps[i].section.value;
      var r := Find(SectionNames(items), spec.name);
      if r.Missing? {
        ok := CreateSection(spec);
        return ok, if ok then 1 else 0, 0;
      }
      if r.Found? && SectionMatches(c, items[r.index], spec) { return true, 0, 1; }
      return false, 0, 0;
    }

    method SectionLoop(items: seq<LiveModel.Section>) returns (ok: bool, created: nat, reused: nat)
      requires ValidPresentation(steps)
      modifies this`host, this`revision
      ensures Outcome(View(), ok, created, reused) == Sections(c, steps, items, old(View()))
    {
      created, reused := 0, 0;
      ghost var turn, whole := SectionTurns(c, steps, items), Sections(c, steps, items, View());
      for i := 0 to |steps|
        invariant LoopStands(turn, i, |steps|, Outcome(View(), true, created, reused), whole)
      {
        LoopNext(turn, i, |steps|, Outcome(View(), true, created, reused), whole);
        var one, again;
        ok, one, again := SectionStep(i, items);
        created, reused := created + one, reused + again;
        if !ok { return; }
      }
      ok := true;
    }

    method PrepareSections() returns (ok: bool, created: nat, reused: nat)
      requires ValidPresentation(steps)
      modifies this`host, this`revision
      ensures Outcome(View(), ok, created, reused) == SectionHalf(c, steps, old(View()))
    {
      var items := ListSections();
      if items.None? { return false, 0, 0; }
      ok, created, reused := SectionLoop(items.value);
    }

    // ---------- the scene half of the pass ----------

    /** The section a scene refers to, under a current reference. */
    method SectionRef(id: string) returns (ref: Option<Ref>, ok: bool)
      requires ValidPresentation(steps)
      modifies this`host, this`refs
      ensures (View(), ref, ok) == RefFor(c, steps, old(View()), id)
    {
      if id == "" { return None, true; }
      if id !in refs { return None, false; }
      if refs[id].revision == revision { return Some(refs[id]), true; }
      ok := RefreshSectionRefs();
      if ok && id in refs { return Some(refs[id]), true; }
      return None, false;
    }

    method CreatePresentationScene(spec: SceneSpec) returns (ok: bool)
      requires ValidPresentation(steps)
      modifies this`host, this`revision, this`refs
      ensures (View(), ok) == MakeSceneFor(c, steps, old(View()), spec)
    {
      var ref;
      ref, ok := SectionRef(spec.sectionId);
      if ok { ok := CreateScene(spec, ref); }
    }

    method SceneStep(i: nat, items: seq<Scene>) returns (ok: bool, created: nat, reused: nat)
      requires ValidPresentation(steps) && i < |steps|
      modifies this`host, this`revision, this`refs
      ensures Outcome(View(), ok, created, reused) == SceneTurn(c, steps, i, items, old(View()))
    {
      if !IsScene(steps[i]) { return true, 0, 0; }
      var spec := steps[i].scene.value;
      var r := Find(SceneNames(items), spec.name);
      if r.Missing? {
        ok := CreatePresentationScene(spec);
        return ok, if ok then 1 else 0, 0;
      }
      if r.Found? && SceneMatches(c, items[r.index], spec, Pids(refs)) { return true, 0, 1; }
      return false, 0, 0;
    }

    method SceneLoop(items: seq<LiveModel.Scene>) returns (ok: bool, created: nat, reused: nat)
      requires ValidPresentation(steps)
      modifies this`host, this`revision, this`refs
      ensures Outcome(View(), ok, created, reused) == Scenes(c, steps, items, old(View()))
    {
      created, reused := 0, 0;
      ghost var turn, whole := SceneTurns(c, steps, items), Scenes(c, steps, items, View());
      for i := 0 to |steps|
        invariant LoopStands(turn, i, |steps|, Outcome(View(), true, created, reused), whole)
      {
        LoopNext(turn, i, |steps|, Outcome(View(), true, created, reused), whole);
        var one, again;
        ok, one, again := SceneStep(i, items);
        created, reused := created + one, reused + again;
        if !ok { return; }
      }
      ok := true;
    }

    method PrepareScenes() returns (ok: bool, created: nat, reused: nat)
      requires ValidPresentation(steps)
      modifies this`host, this`revision, this`refs
      ensures Outcome(View(), ok, created, reused) == SceneHalf(c, steps, old(View()))
    {
      var items := ListScenes();
      if items.None? { return false, 0, 0; }
      ok, created, reused := SceneLoop(items.value);
    }

    // ---------- the passes ----------

    method Prepare() returns (ok: bool, created: nat, reused: nat)
      requires ValidPresentation(steps)
      modifies this`host, this`revision, this`refs
      ensures Outcome(View(), ok, created, reused) == Pass(c, steps, old(View()))
    {
      ok, created, reused := PrepareSections();
      if !ok { return; }
      ok := RefreshSectionRefs();
      if !ok { return; }
      var created', reused';
      ok, created', reused' := PrepareScenes();
      created, reused := created + created', reused + reused';
    }

    /**
     preparePresentationPass. A pass that succeeds, whatever others did meanwhile, moved the
     revision by exactly what it created, created or reused every step once, and ends in step
     with the model. If the tracker attended it - no restart, and the active model observed at
     every call - nothing others did is in the result either: the pass only appended, it found
     at most one scene of each name among those there before, and every step is there; with
     scene names none of which is a numbered copy of another, each is there once and matching.
     */
    method PreparePass() returns (ok: bool, created: nat, reused: nat)
      requires ValidPresentation(steps)
      modifies this`host, this`revision, this`refs
      ensures Outcome(View(), ok, created, reused) == Pass(c, steps, old(View()))
      ensures ok ==> InSync(View()) && revision == old(revision) + created && created + reused == |steps|
      ensures ok && old(InSync(View())) && Watched(old(View()), View()) ==>
                && Appended(Look(old(View())), Look(View()), created)
                && |Look(old(View())).scenes| <= MAX_ITEMS
                && Accounted(steps, |steps|, Look(old(View())).scenes, Look(View()).scenes)
                && AllSectionsPresent(c, Look(View()).sections, steps)
                && (NonConflicting(steps) ==> Prepared(c, Look(View()), steps))
    {
      ghost var before := View();
      ok, created, reused := Prepare();
      PassCounts(c, steps, before);
      if ok && InSync(before) && Watched(before, View()) { PassWatched(c, steps, before); }
    }

    method StepOnce(m: Model, i: nat) returns (once: bool)
      requires ValidPresentation(steps) && i < |steps| && OnceEach(steps, m, i)
      ensures once <==> OnceEach(steps, m, i + 1)
    {
      if IsSection(steps[i]) {
        once := Once(SectionNames(m.sections), steps[i].section.value.name);
      } else {
        assert WellFormedStep(steps[i]);
        once := Once(SceneNames(m.scenes), steps[i].scene.value.name);
      }
    }

    method Once(names: seq<string>, wanted: string) returns (once: bool)
      ensures once <==> exists j: nat :: Sole(names, wanted, j)
    {
      var r := Find(names, wanted);
      if r.Missing? { assert forall j: nat :: !Sole(names, wanted, j); }
      return r.Found?;
    }

    /** verifyPresentationUnique: with nobody else at work it accepts exactly the models that hold every item once. */
    method VerifyUnique() returns (ok: bool)
      requires ValidPresentation(steps)
      modifies this`host
      ensures (View(), ok) == Verified(c, steps, old(View()))
      ensures old(Quiet(host, false)) ==>
                (ok <==> && old(InSync(View())) && AllPlanes(c.root, Look(old(View())).sections)
                         && |Look(old(View())).sections| <= MAX_ITEMS && |Look(old(View())).scenes| <= MAX_ITEMS
                         && OnceEach(steps, Look(old(View())), |steps|))
    {
      if Quiet(host, false) { VerifiedIff(c, steps, View()); }
      ok := Unique();
    }

    method Unique() returns (ok: bool)
      requires ValidPresentation(steps)
      modifies this`host
      ensures (View(), ok) == Verified(c, steps, old(View()))
    {
      var sections := ListSections();
      if sections.None? { return false; }
      var scenes := ListScenes();
      if scenes.None? { return false; }
      var listed := Model("", 0, sections.value, scenes.value);
      for i := 0 to |steps|
        modifies {}
        invariant OnceEach(steps, listed, i)
      {
        var once := StepOnce(listed, i);
        if !once { return false; }
      }
      return true;
    }

    /**
     repeatPresentation: the second pass must create nothing, account for every step, keep the
     revision, and leave every item once. With nobody else at work it succeeds exactly on a
     prepared model whose scenes can be listed completely, and changes nothing.
     */
    method RepeatPresentation() returns (ok: bool, created: nat, reused: nat)
      requires ValidPresentation(steps)
      modifies this`host, this`revision, this`refs
      ensures Outcome(View(), ok, created, reused) == Repeated(c, steps, old(View()))
      ensures ok ==> created == 0 && reused == |steps|
      ensures old(InSync(View()) && Quiet(host, false)) ==>
                && (ok <==> Prepared(c, Look(old(View())), steps) && |Look(old(View())).scenes| <= MAX_ITEMS)
                && (ok ==> Look(View()) == Look(old(View())))
    {
      if InSync(View()) && Quiet(host, false) { RepeatsIff(c, steps, View()); }
      var before := revision;
      ok, created, reused := PreparePass();
      if !ok || created != 0 || reused != |steps| || revision != before { return false, created, reused; }
      ok := VerifyUnique();
    }

    /**
     Two passes with nobody else at work in the second, whatever others did during the first.
     `middle` is where the first leaves the runner.
     */
    method PrepareTwice(calm: seq<Turn>) returns (first: bool, ghost middle: State, second: bool)
      requires ValidPresentation(steps) && Quiet(Host(host.live, calm), false)
      modifies this`host, this`revision, this`refs
      ensures middle == Pass(c, steps, old(View())).state && first == Pass(c, steps, old(View())).ok
      ensures !first ==> !second
      ensures first ==> (second <==> Prepared(c, Look(middle), steps) && |Look(middle).scenes| <= MAX_ITEMS)
      ensures first && old(InSync(View())) && Watched(old(View()), middle) ==>
                && (second <==> NonConflicting(steps) && |Look(middle).scenes| <= MAX_ITEMS)
                && Look(View()) == Look(middle)
      ensures second ==> NonConflicting(steps) && Look(View()) == Look(middle)
    {
      ghost var before := View();
      second := false;
      var created, reused;
      first, created, reused := PreparePass();
      middle := View();
      if !first { return; }
      host := host.(script := calm);
      TwoPasses(c, steps, before, calm);
      second, created, reused := RepeatPresentation();
    }
  }
}
