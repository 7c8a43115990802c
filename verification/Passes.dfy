/**
 The presentation passes as functions of the runner's state: what they do, step by step, and
 what can be said of the model afterwards although others may be at work on it.
 */
module Passes {
  import opened Basics
  import opened Names
  import opened Vectors
  import opened Presentation
  import opened LiveModel
  import opened Matching

  datatype Ref = Ref(pid: int, revision: nat)

  function Pids(refs: map<string, Ref>): map<string, int> {
    map id | id in refs :: refs[id].pid
  }

  /** The runner's fields, and the host it talks to. */
  datatype State = State(host: Host, guid: string, revision: nat, refs: map<string, Ref>)

  function Look(s: State): Model {
    ModelOf(s.host)
  }

  /** The runner knows the model's identity and revision. */
  predicate InSync(s: State) {
    s.guid == Look(s).guid && s.revision == Look(s).revision
  }

  // ---------- single calls ----------

  function Calling(s: State): State {
    s.(host := Called(s.host))
  }

  /** section_plane.list: taken if the call goes through, shows the known model at the known revision, and is complete. */
  function SectionList(c: Settings, s: State): Option<seq<Section>> {
    var m := Look(Calling(s));
    if Now(s.host).fails || !AllPlanes(c.root, m.sections) || !InSync(Calling(s)) || |m.sections| > MAX_ITEMS then None
    else Some(m.sections)
  }

  function SceneList(s: State): Option<seq<Scene>> {
    var m := Look(Calling(s));
    if Now(s.host).fails || !InSync(Calling(s)) || |m.scenes| > MAX_ITEMS then None else Some(m.scenes)
  }

  /** readSummary: the same model, at a revision that may have moved on. */
  function SummaryRead(s: State): (State, bool) {
    var s' := Calling(s);
    if Now(s.host).fails || Look(s').guid != s.guid || Look(s').revision < s.revision then (s', false)
    else (s'.(revision := Look(s').revision), true)
  }

  /** What callMutation demands after a creation: one revision further, in the answer and in the summary. */
  function Confirmed(s: State): (State, bool) {
    if Look(s).guid != s.guid || Look(s).revision != s.revision + 1 then (s, false)
    else
      var (s', ok) := SummaryRead(s);
      (s', ok && s'.revision == s.revision + 1)
  }

  function Make(s: State, contents: Contents, t: Turn): (State, bool) {
    Confirmed(s.(host := Created(s.host, contents, t)))
  }

  /** section_plane.create through callMutation: refused unless the expected revision is current. */
  function MakeSection(c: Settings, s: State, spec: SectionSpec): (State, bool) {
    var s1, item := Calling(s), NewSection(c, spec, Now(s.host));
    if Now(s.host).fails || item.None? || !InSync(s1) then (s1, false)
    else Make(s1, Contents(Look(s1).sections + [item.value], Look(s1).scenes), Now(s.host))
  }

  predicate Resolves(ref: Option<Ref>, m: Model) {
    ref.Some? ==> ref.value.revision == m.revision && exists i :: 0 <= i < |m.sections| && m.sections[i].pid == ref.value.pid
  }

  function PidOf(ref: Option<Ref>): Option<int> {
    if ref.Some? then Some(ref.value.pid) else None
  }

  /** scene.create through callMutation: a section reference must also be of the current revision and resolve. */
  function MakeScene(c: Settings, s: State, spec: SceneSpec, ref: Option<Ref>): (State, bool) {
    var s1, item := Calling(s), NewScene(c, spec, PidOf(ref));
    if Now(s.host).fails || item.None? || !InSync(s1) || !Resolves(ref, Look(s1)) then (s1, false)
    else Make(s1, Contents(Look(s1).sections, Look(s1).scenes + [item.value]), Now(s.host))
  }

  // ---------- section references ----------

  /** findReusablePresentationItem as a function of the names. */
  ghost function Reuse(names: seq<string>, wanted: string): (r: Search)
    ensures r.Missing? <==> Absent(names, wanted)
    ensures r.Found? ==> Sole(names, wanted, r.index)
    ensures r.Ambiguous? ==> !Reusable(names, wanted)
  {
    if Absent(names, wanted) then Missing
    else if exists i: nat :: Sole(names, wanted, i) then
      var i: nat :| Sole(names, wanted, i);
      Found(i)
    else Ambiguous
  }

  lemma {:induction false} ReuseSole(names: seq<string>, wanted: string, i: nat)
    requires Sole(names, wanted, i)
    ensures Reuse(names, wanted) == Found(i)
  {
    assert names[i] == wanted;
    SoleUnique(names, wanted, i, Reuse(names, wanted).index);
  }

  /** The one section of the step's name, if it matches. */
  ghost function MatchingSection(c: Settings, items: seq<Section>, st: Step): Option<Section>
    requires st.section.Some?
  {
    var r := Reuse(SectionNames(items), st.section.value.name);
    if r.Found? && SectionMatches(c, items[r.index], st.section.value) then Some(items[r.index]) else None
  }

  lemma {:induction false} MatchingIsPresent(c: Settings, items: seq<Section>, st: Step)
    requires st.section.Some?
    ensures MatchingSection(c, items, st).Some? <==> Present(c, items, st)
    ensures MatchingSection(c, items, st).Some? ==> SectionPresent(c, items, st, MatchingSection(c, items, st).value.pid)
  {
    var names, wanted := SectionNames(items), st.section.value.name;
    if MatchingSection(c, items, st).Some? {
      var i := Reuse(names, wanted).index;
      assert Sole(names, wanted, i);
      assert SectionPresent(c, items, st, items[i].pid);
    }
    if Present(c, items, st) {
      var i: nat :| Sole(names, wanted, i) && SectionMatches(c, items[i], st.section.value);
      ReuseSole(names, wanted, i);
    }
  }

  /** The references to the sections of the first n steps, taken from a list of the given revision. */
  ghost function Collect(c: Settings, steps: seq<Step>, items: seq<Section>, at: nat, n: nat): Option<map<string, Ref>>
    requires n <= |steps| && ValidPresentation(steps)
  {
    if n == 0 then Some(map[])
    else
      match Collect(c, steps, items, at, n - 1)
      case None => None
      case Some(refs) =>
        if !IsSection(steps[n - 1]) then Some(refs)
        else
          match MatchingSection(c, items, steps[n - 1])
          case None => None
          case Some(item) => Some(refs[steps[n - 1].id := Ref(item.pid, at)])
  }

  /** refreshSectionRefs */
  ghost function Refreshed(c: Settings, steps: seq<Step>, s: State): (State, bool)
    requires ValidPresentation(steps)
  {
    match SectionList(c, s)
    case None => (Calling(s), false)
    case Some(items) =>
      match Collect(c, steps, items, s.revision, |steps|)
      case None => (Calling(s), false)
      case Some(refs) => (Calling(s).(refs := refs), true)
  }

  // ---------- the pass ----------

  datatype Outcome = Outcome(state: State, ok: bool, created: nat, reused: nat)

  function Then(a: Outcome, b: Outcome): Outcome {
    Outcome(b.state, b.ok, a.created + b.created, a.reused + b.reused)
  }

  function Creating(made: (State, bool)): Outcome {
    Outcome(made.0, made.1, if made.1 then 1 else 0, 0)
  }

  /** One step of a loop over the fixture. */
  type Turner = (nat, State) -> Outcome

  /** The loop: it ends with the first step that fails. */
  ghost function Loop(turn: Turner, i: nat, n: nat, s: State): Outcome
    decreases n - i
  {
    if i >= n then Outcome(s, true, 0, 0)
    else
      var o := turn(i, s);
      if o.ok then Then(o, Loop(turn, i + 1, n, o.state)) else o
  }

  /** What is said of a loop from step i in state s that ends as o. */
  type Claim = (nat, State, Outcome) -> bool

  ghost predicate ClaimedStep(claim: Claim, turn: Turner, i: nat, s: State) {
    var o := turn(i, s);
    if o.ok then forall rest {:trigger claim(i + 1, o.state, rest)} :: claim(i + 1, o.state, rest) ==> claim(i, s, Then(o, rest))
    else claim(i, s, o)
  }

  ghost predicate Claimed(claim: Claim, turn: Turner, n: nat) {
    && (forall s {:trigger claim(n, s, Outcome(s, true, 0, 0))} :: claim(n, s, Outcome(s, true, 0, 0)))
    && (forall i: nat, s {:trigger ClaimedStep(claim, turn, i, s)} :: i < n ==> ClaimedStep(claim, turn, i, s))
  }

  lemma {:induction false} LoopRule(claim: Claim, turn: Turner, i: nat, n: nat, s: State)
    requires Claimed(claim, turn, n) && i <= n
    ensures claim(i, s, Loop(turn, i, n, s))
    decreases n - i
  {
    if i < n {
      assert ClaimedStep(claim, turn, i, s);
      var o := turn(i, s);
      if o.ok { LoopRule(claim, turn, i + 1, n, o.state); }
    }
  }

  /** One section step against the sections listed at the start. */
  ghost function SectionTurn(c: Settings, steps: seq<Step>, i: nat, items: seq<Section>, s: State): Outcome
    requires i < |steps| && ValidPresentation(steps)
  {
    if !IsSection(steps[i]) then Outcome(s, true, 0, 0)
    else
      var spec := steps[i].section.value;
      if Reuse(SectionNames(items), spec.name).Missing? then Creating(MakeSection(c, s, spec))
      else if MatchingSection(c, items, steps[i]).Some? then Outcome(s, true, 0, 1)
      else Outcome(s, false, 0, 0)
  }

  ghost function SectionTurns(c: Settings, steps: seq<Step>, items: seq<Section>): Turner
    requires ValidPresentation(steps)
  {
    (i: nat, s) => if i < |steps| then SectionTurn(c, steps, i, items, s) else Outcome(s, true, 0, 0)
  }

  ghost function Sections(c: Settings, steps: seq<Step>, items: seq<Section>, s: State): Outcome
    requires ValidPresentation(steps)
  {
    Loop(SectionTurns(c, steps, items), 0, |steps|, s)
  }

  ghost function SectionHalf(c: Settings, steps: seq<Step>, s: State): Outcome
    requires ValidPresentation(steps)
  {
    match SectionList(c, s)
    case None => Outcome(Calling(s), false, 0, 0)
    case Some(items) => Sections(c, steps, items, Calling(s))
  }

  /** The section a scene refers to, under a current reference; the flag says that none could be had. */
  ghost function RefFor(c: Settings, steps: seq<Step>, s: State, id: string): (State, Option<Ref>, bool)
    requires ValidPresentation(steps)
  {
    if id == "" then (s, None, true)
    else if id !in s.refs then (s, None, false)
    else if s.refs[id].revision == s.revision then (s, Some(s.refs[id]), true)
    else
      var (s', ok) := Refreshed(c, steps, s);
      if ok && id in s'.refs then (s', Some(s'.refs[id]), true) else (s', None, false)
  }

  ghost function MakeSceneFor(c: Settings, steps: seq<Step>, s: State, spec: SceneSpec): (State, bool)
    requires ValidPresentation(steps)
  {
    var (s', ref, ok) := RefFor(c, steps, s, spec.sectionId);
    if ok then MakeScene(c, s', spec, ref) else (s', false)
  }

  /** One scene step against the scenes listed at the start. */
  ghost function SceneTurn(c: Settings, steps: seq<Step>, i: nat, items: seq<Scene>, s: State): Outcome
    requires i < |steps| && ValidPresentation(steps)
  {
    if !IsScene(steps[i]) then Outcome(s, true, 0, 0)
    else
      var spec := steps[i].scene.value;
      match Reuse(SceneNames(items), spec.name)
      case Missing => Creating(MakeSceneFor(c, steps, s, spec))
      case Found(k) => if SceneMatches(c, items[k], spec, Pids(s.refs)) then Outcome(s, true, 0, 1) else Outcome(s, false, 0, 0)
      case Ambiguous => Outcome(s, false, 0, 0)
  }

  ghost function SceneTurns(c: Settings, steps: seq<Step>, items: seq<Scene>): Turner
    requires ValidPresentation(steps)
  {
    (i: nat, s) => if i < |steps| then SceneTurn(c, steps, i, items, s) else Outcome(s, true, 0, 0)
  }

  ghost function Scenes(c: Settings, steps: seq<Step>, items: seq<Scene>, s: State): Outcome
    requires ValidPresentation(steps)
  {
    Loop(SceneTurns(c, steps, items), 0, |steps|, s)
  }

  ghost function SceneHalf(c: Settings, steps: seq<Step>, s: State): Outcome
    requires ValidPresentation(steps)
  {
    match SceneList(s)
    case None => Outcome(Calling(s), false, 0, 0)
    case Some(items) => Scenes(c, steps, items, Calling(s))
  }

  /** preparePresentationPass */
  ghost function Pass(c: Settings, steps: seq<Step>, s: State): Outcome
    requires ValidPresentation(steps)
  {
    var a := SectionHalf(c, steps, s);
    if !a.ok then a
    else
      var (s', ok) := Refreshed(c, steps, a.state);
      if ok then Then(a, SceneHalf(c, steps, s')) else Outcome(s', false, a.created, a.reused)
  }

  // ---------- the second pass ----------

  /** verifyPresentationUnique */
  ghost function Verified(c: Settings, steps: seq<Step>, s: State): (State, bool)
    requires ValidPresentation(steps)
  {
    match SectionList(c, s)
    case None => (Calling(s), false)
    case Some(sections) =>
      match SceneList(Calling(s))
      case None => (Calling(Calling(s)), false)
      case Some(scenes) => (Calling(Calling(s)), OnceEach(steps, Model("", 0, sections, scenes), |steps|))
  }

  /** repeatPresentation */
  ghost function Repeated(c: Settings, steps: seq<Step>, s: State): Outcome
    requires ValidPresentation(steps)
  {
    var o := Pass(c, steps, s);
    if !o.ok || o.created != 0 || o.reused != |steps| || o.state.revision != s.revision then o.(ok := false)
    else
      var (s', ok) := Verified(c, steps, o.state);
      Outcome(s', ok, o.created, o.reused)
  }

  // ---------- whatever others do ----------

  /** The runner counts what it created, one revision each, and is in step with the model it talked to last. */
  ghost predicate Counted(s: State, o: Outcome) {
    && o.state.guid == s.guid && InSync(o.state) && o.state.revision == s.revision + o.created
  }

  lemma {:induction false} MakeCounts(s: State, contents: Contents, t: Turn)
    ensures var (s', ok) := Make(s, contents, t);
            && s'.refs == s.refs && Leads(s.host.live, s'.host.live)
            && (ok ==> s'.guid == s.guid && InSync(s') && s'.revision == s.revision + 1)
  {
    var s1 := s.(host := Created(s.host, contents, t));
    CreateLeads(s.host, contents, t);
    CallLeads(s1.host);
    LeadsOn(s.host.live, s1.host.live, Called(s1.host).live);
  }

  lemma {:induction false} MakeSectionCounts(c: Settings, s: State, spec: SectionSpec)
    ensures var o := Creating(MakeSection(c, s, spec));
            Leads(s.host.live, o.state.host.live) && o.state.refs == s.refs && (o.ok ==> Counted(s, o))
  {
    var s1, item := Calling(s), NewSection(c, spec, Now(s.host));
    CallLeads(s.host);
    if item.Some? {
      var contents := Contents(Look(s1).sections + [item.value], Look(s1).scenes);
      MakeCounts(s1, contents, Now(s.host));
      LeadsOn(s.host.live, s1.host.live, Make(s1, contents, Now(s.host)).0.host.live);
    }
  }

  lemma {:induction false} MakeSceneCounts(c: Settings, s: State, spec: SceneSpec, ref: Option<Ref>)
    ensures var o := Creating(MakeScene(c, s, spec, ref));
            Leads(s.host.live, o.state.host.live) && o.state.refs == s.refs && (o.ok ==> Counted(s, o))
  {
    var s1, item := Calling(s), NewScene(c, spec, PidOf(ref));
    CallLeads(s.host);
    if item.Some? {
      var contents := Contents(Look(s1).sections, Look(s1).scenes + [item.value]);
      MakeCounts(s1, contents, Now(s.host));
      LeadsOn(s.host.live, s1.host.live, Make(s1, contents, Now(s.host)).0.host.live);
    }
  }

  lemma {:induction false} SectionTurnCounts(c: Settings, steps: seq<Step>, i: nat, items: seq<Section>, s: State)
    requires i < |steps| && ValidPresentation(steps) && InSync(s)
    ensures var o := SectionTurn(c, steps, i, items, s);
            && Leads(s.host.live, o.state.host.live)
            && (o.ok ==> Counted(s, o) && o.created + o.reused == if IsSection(steps[i]) then 1 else 0)
  {
    var o := SectionTurn(c, steps, i, items, s);
    if IsSection(steps[i]) {
      var spec := steps[i].section.value;
      assert (o.state == s && o.created == 0) || o == Creating(MakeSection(c, s, spec));
      MakeSectionCounts(c, s, spec);
    }
  }

  /** From step i on: one created or reused item for each step of the kind, one revision for each creation. */
  ghost predicate CountsFrom(steps: seq<Step>, kind: Kind, i: nat, s: State, o: Outcome)
    requires i <= |steps|
  {
    InSync(s) ==>
      && Leads(s.host.live, o.state.host.live)
      && (o.ok ==> Counted(s, o) && Count(steps, i, kind) + o.created + o.reused == Count(steps, |steps|, kind))
  }

  lemma {:induction false} CountsThen(steps: seq<Step>, kind: Kind, i: nat, s: State, o: Outcome, rest: Outcome)
    requires i < |steps| && o.ok && CountsFrom(steps, kind, i + 1, o.state, rest)
    requires InSync(s) ==> Leads(s.host.live, o.state.host.live) && Counted(s, o)
    requires InSync(s) ==> o.created + o.reused == if steps[i].kind == kind then 1 else 0
    ensures CountsFrom(steps, kind, i, s, Then(o, rest))
  {
    CountNext(steps, i, kind);
    if InSync(s) { LeadsOn(s.host.live, o.state.host.live, rest.state.host.live); }
  }

  lemma {:induction false} SectionsCount(c: Settings, steps: seq<Step>, items: seq<Section>, s: State)
    requires ValidPresentation(steps)
    ensures CountsFrom(steps, SectionKind, 0, s, Sections(c, steps, items, s))
  {
    var turn := SectionTurns(c, steps, items);
    var claim: Claim := (i: nat, s, o) => i <= |steps| && CountsFrom(steps, SectionKind, i, s, o);
    forall i: nat, s | i < |steps| ensures ClaimedStep(claim, turn, i, s) {
      var o := turn(i, s);
      if InSync(s) { SectionTurnCounts(c, steps, i, items, s); }
      forall rest | o.ok && claim(i + 1, o.state, rest) ensures claim(i, s, Then(o, rest)) {
        CountsThen(steps, SectionKind, i, s, o, rest);
      }
    }
    LoopRule(claim, turn, 0, |steps|, s);
  }

  lemma {:induction false} RefreshedCounts(c: Settings, steps: seq<Step>, s: State)
    requires ValidPresentation(steps)
    ensures var (s', ok) := Refreshed(c, steps, s);
            && Leads(s.host.live, s'.host.live) && s'.host == Called(s.host)
            && s'.guid == s.guid && s'.revision == s.revision && (ok ==> InSync(s'))
  {
    CallLeads(s.host);
  }

  lemma {:induction false} RefForCounts(c: Settings, steps: seq<Step>, s: State, id: string)
    requires ValidPresentation(steps) && InSync(s)
    ensures var (s', ref, ok) := RefFor(c, steps, s, id);
            && Leads(s.host.live, s'.host.live)
            && s'.guid == s.guid && s'.revision == s.revision && (ok ==> InSync(s'))
  {
    RefreshedCounts(c, steps, s);
  }

  lemma {:induction false} MakeSceneForCounts(c: Settings, steps: seq<Step>, s: State, spec: SceneSpec)
    requires ValidPresentation(steps) && InSync(s)
    ensures var o := Creating(MakeSceneFor(c, steps, s, spec));
            Leads(s.host.live, o.state.host.live) && (o.ok ==> Counted(s, o))
  {
    var (s', ref, ok) := RefFor(c, steps, s, spec.sectionId);
    RefForCounts(c, steps, s, spec.sectionId);
    MakeSceneCounts(c, s', spec, ref);
    LeadsOn(s.host.live, s'.host.live, MakeScene(c, s', spec, ref).0.host.live);
  }

  lemma {:induction false} SceneTurnCounts(c: Settings, steps: seq<Step>, i: nat, items: seq<Scene>, s: State)
    requires i < |steps| && ValidPresentation(steps) && InSync(s)
    ensures var o := SceneTurn(c, steps, i, items, s);
            && Leads(s.host.live, o.state.host.live)
            && (o.ok ==> Counted(s, o) && o.created + o.reused == if IsScene(steps[i]) then 1 else 0)
  {
    if IsScene(steps[i]) { MakeSceneForCounts(c, steps, s, steps[i].scene.value); }
  }

  lemma {:induction false} ScenesCount(c: Settings, steps: seq<Step>, items: seq<Scene>, s: State)
    requires ValidPresentation(steps)
    ensures CountsFrom(steps, SceneKind, 0, s, Scenes(c, steps, items, s))
  {
    var turn := SceneTurns(c, steps, items);
    var claim: Claim := (i: nat, s, o) => i <= |steps| && CountsFrom(steps, SceneKind, i, s, o);
    forall i: nat, s | i < |steps| ensures ClaimedStep(claim, turn, i, s) {
      var o := turn(i, s);
      if InSync(s) { SceneTurnCounts(c, steps, i, items, s); }
      forall rest | o.ok && claim(i + 1, o.state, rest) ensures claim(i, s, Then(o, rest)) {
        CountsThen(steps, SceneKind, i, s, o, rest);
      }
    }
    LoopRule(claim, turn, 0, |steps|, s);
  }

  lemma {:induction false} SectionHalfCounts(c: Settings, steps: seq<Step>, s: State)
    requires ValidPresentation(steps)
    ensures var o := SectionHalf(c, steps, s);
            && Leads(s.host.live, o.state.host.live)
            && (o.ok ==> Counted(s, o) && o.created + o.reused == Count(steps, |steps|, SectionKind))
  {
    CallLeads(s.host);
    match SectionList(c, s)
    case None =>
    case Some(items) =>
      SectionsCount(c, steps, items, Calling(s));
      LeadsOn(s.host.live, Called(s.host).live, Sections(c, steps, items, Calling(s)).state.host.live);
  }

  lemma {:induction false} SceneHalfCounts(c: Settings, steps: seq<Step>, s: State)
    requires ValidPresentation(steps)
    ensures var o := SceneHalf(c, steps, s);
            && Leads(s.host.live, o.state.host.live)
            && (o.ok ==> Counted(s, o) && o.created + o.reused == Count(steps, |steps|, SceneKind))
  {
    CallLeads(s.host);
    match SceneList(s)
    case None =>
    case Some(items) =>
      ScenesCount(c, steps, items, Calling(s));
      LeadsOn(s.host.live, Called(s.host).live, Scenes(c, steps, items, Calling(s)).state.host.live);
  }

  /**
   Whatever others do: a pass that succeeds moved the runner's revision by exactly what it
   created, created or reused each step once, and leaves the runner in step with the model.
   */
  lemma {:induction false} PassCounts(c: Settings, steps: seq<Step>, s: State)
    requires ValidPresentation(steps)
    ensures var o := Pass(c, steps, s);
            && Leads(s.host.live, o.state.host.live)
            && (o.ok ==> Counted(s, o) && o.created + o.reused == |steps|)
  {
    var a := SectionHalf(c, steps, s);
    SectionHalfCounts(c, steps, s);
    var s' := Refreshed(c, steps, a.state).0;
    RefreshedCounts(c, steps, a.state);
    LeadsOn(s.host.live, a.state.host.live, s'.host.live);
    SceneHalfCounts(c, steps, s');
    LeadsOn(s.host.live, s'.host.live, SceneHalf(c, steps, s').state.host.live);
    CountsAdd(steps, |steps|);
  }
}
