/**
 The model behind the tools while others work on it: what a tool shows is the contents of the
 active model under the GUID and revision of the tracker, which may have missed an edit.
 */
module LiveModel {
  import opened Basics
  import opened Vectors
  import Tracking

  datatype Section = Section(name: string, symbol: string, pid: int, plane: Plane)

  datatype Scene = Scene(name: string, eyeMm: Vec3, targetMm: Vec3, up: Vec3, perspective: bool, heightMm: real,
                         fovDegrees: real, sectionPid: Option<int>, displayCuts: bool, displayPlanes: bool)

  datatype Contents = Contents(sections: seq<Section>, scenes: seq<Scene>)

  /** What the tools show. */
  datatype Model = Model(guid: string, revision: nat, sections: seq<Section>, scenes: seq<Scene>)

  /** `watched` says that at every tool call so far the tracker observed the active model itself. */
  datatype Live = Live(app: Tracking.Host, tracker: Tracking.Tracker, contents: map<Tracking.ModelId, Contents>, watched: bool)

  function ContentsOf(l: Live, m: Tracking.ModelId): Contents {
    if m in l.contents then l.contents[m] else Contents([], [])
  }

  function Shown(l: Live): Model {
    var s, contents := Tracking.Seen(l.app, l.tracker), ContentsOf(l, l.app.active);
    Model(s.guid, s.revision, contents.sections, contents.scenes)
  }

  /** What others do: callbacks, saves and switches in any order, and what the models they commit to become. */
  datatype Edit = Edit(events: seq<Tracking.Event>, made: map<Tracking.ModelId, Contents>)

  const NO_EDIT := Edit([], map[])

  /** What becomes of the models that were committed to. */
  function Remade(before: Tracking.Host, after: Tracking.Host, made: map<Tracking.ModelId, Contents>): map<Tracking.ModelId, Contents> {
    map m | m in made && after.CommitsOf(m) != before.CommitsOf(m) :: made[m]
  }

  /** A model's contents change only by commits to it. */
  function Edited(l: Live, e: Edit): Live {
    var app := Tracking.HostRun(l.app, e.events);
    l.(app := app, tracker := Tracking.TrackerRun(l.app, l.tracker, e.events),
       contents := l.contents + Remade(l.app, app, e.made))
  }

  /** Every tool captures the active model first. */
  function Looked(l: Live): Live {
    var t := Tracking.Captured(l.app, l.tracker);
    l.(tracker := t, watched := l.watched && t.model == Some(l.app.active))
  }

  /** One transaction of the engine on the active model. */
  function Committed(l: Live, contents: Contents): Live {
    var m := l.app.active;
    l.(app := Tracking.HostAfter(l.app, Tracking.Transaction(m)),
       tracker := Tracking.TrackerAfter(l.app, l.tracker, Tracking.Transaction(m)),
       contents := l.contents[m := contents])
  }

  type Positive = k: real | k > 0.0 witness 1.0

  /**
   What happens around one tool call: others work before it, the call may fail, and others work
   between a creation's commit and its answer. `pid`, `scale` and `symbol` are the host's
   choices for a new section plane.
   */
  datatype Turn = Turn(edit: Edit, fails: bool, after: Edit, pid: int, scale: Positive, symbol: string)

  const CALM := Turn(NO_EDIT, false, NO_EDIT, 1, 1.0, "A")

  datatype Host = Host(live: Live, script: seq<Turn>)

  function ModelOf(h: Host): Model {
    Shown(h.live)
  }

  function Now(h: Host): Turn {
    if h.script == [] then CALM else h.script[0]
  }

  /** The host when a tool call has looked at it. */
  function Called(h: Host): Host {
    Host(Looked(Edited(h.live, Now(h).edit)), if h.script == [] then [] else h.script[1..])
  }

  /** The host when a creation's answer is taken. */
  function Created(h: Host, contents: Contents, t: Turn): Host {
    h.(live := Looked(Edited(Committed(h.live, contents), t.after)))
  }

  // ---------- nobody else at work ----------

  /**
   Nothing interferes with any call; and if something is to be created, nothing follows a commit
   and the tracker observes the model that commits.
   */
  ghost predicate Quiet(h: Host, creates: bool) {
    && (forall i :: 0 <= i < |h.script| ==>
          h.script[i].edit.events == [] && !h.script[i].fails && (creates ==> h.script[i].after.events == []))
    && (creates ==> Tracking.Captured(h.live.app, h.live.tracker).model == Some(h.live.app.active))
  }

  lemma {:induction false} EditedByNobody(l: Live, e: Edit)
    requires e.events == []
    ensures Edited(l, e) == l
  {
    var none := Remade(l.app, l.app, e.made);
    assert none == map[];
    assert l.contents + none == l.contents;
  }

  lemma {:induction false} QuietCall(h: Host, creates: bool)
    requires Quiet(h, creates)
    ensures !Now(h).fails && ModelOf(Called(h)) == ModelOf(h) && Quiet(Called(h), creates)
    ensures creates ==> Now(h).after.events == [] && Called(h).live.tracker.model == Some(Called(h).live.app.active)
    ensures Called(h).live.app == h.live.app
  {
    EditedByNobody(h.live, Now(h).edit);
    Tracking.CaptureAgrees(h.live.app, h.live.tracker);
  }

  /** A commit with nobody else at work shows as one revision and the new contents. */
  lemma {:induction false} QuietCreate(h: Host, contents: Contents, t: Turn)
    requires Quiet(h, true) && t.after.events == []
    requires h.live.tracker == Tracking.Captured(h.live.app, h.live.tracker)
    ensures var h' := Created(h, contents, t);
            && ModelOf(h') == ModelOf(h).(revision := ModelOf(h).revision + 1, sections := contents.sections, scenes := contents.scenes)
            && Quiet(h', true)
  {
    EditedByNobody(Committed(h.live, contents), t.after);
  }

  // ---------- what the revision cannot hide ----------

  /** The tracker observes the active model under its current GUID. */
  predicate Observes(l: Live) {
    l.tracker.model == Some(l.app.active) && Tracking.Captured(l.app, l.tracker) == l.tracker
  }

  /** From a to b, and at every call in between, the tracker observed the active model and was not restarted. */
  predicate Attended(a: Live, b: Live) {
    Observes(a) && b.tracker.resets == a.tracker.resets && b.watched
  }

  /** b is a, or what calls and commits made of it. */
  predicate Leads(a: Live, b: Live) {
    && a.tracker.resets <= b.tracker.resets
    && (b.watched ==> a.watched)
    && (b == a || (b.watched ==> Observes(b)))
  }

  lemma {:induction false} LeadsOn(a: Live, b: Live, c: Live)
    requires Leads(a, b) && Leads(b, c)
    ensures Leads(a, c)
    ensures Attended(a, c) ==> Attended(a, b) && Attended(b, c)
  {
  }

  lemma {:induction false} LookedObserves(l: Live)
    ensures Looked(l).watched ==> Observes(Looked(l)) && l.watched
    ensures Looked(l).tracker.resets >= l.tracker.resets
  {
    Tracking.CaptureAgrees(l.app, l.tracker);
  }

  /** An edit and the look after it, against what was committed. */
  lemma {:induction false} EditAccounts(l: Live, e: Edit)
    ensures var l' := Looked(Edited(l, e)); Tracking.Accounts(l.app, l.tracker, l'.app, l'.tracker)
  {
    var app, tracker := Tracking.HostRun(l.app, e.events), Tracking.TrackerRun(l.app, l.tracker, e.events);
    Tracking.RunAccounts(l.app, l.tracker, e.events);
    Tracking.CaptureAccounts(app, tracker);
    Tracking.AccountsTrans(l.app, l.tracker, app, tracker, app, Tracking.Captured(app, tracker));
  }

  lemma {:induction false} CallLeads(h: Host)
    ensures Leads(h.live, Called(h).live)
  {
    EditAccounts(h.live, Now(h).edit);
    LookedObserves(Edited(h.live, Now(h).edit));
  }

  lemma {:induction false} CreateLeads(h: Host, contents: Contents, t: Turn)
    ensures Leads(h.live, Created(h, contents, t).live)
  {
    var l := Committed(h.live, contents);
    Tracking.EventAccounts(h.live.app, h.live.tracker, Tracking.Transaction(h.live.app.active));
    EditAccounts(l, t.after);
    LookedObserves(Edited(l, t.after));
  }

  /** While the tracker attends, what is shown under the same GUID and revision is the same model. */
  lemma {:induction false} AttendedCall(h: Host)
    requires Attended(h.live, Called(h).live)
    requires ModelOf(Called(h)).guid == ModelOf(h).guid && ModelOf(Called(h)).revision == ModelOf(h).revision
    ensures ModelOf(Called(h)) == ModelOf(h)
  {
    EditAccounts(h.live, Now(h).edit);
    LookedObserves(Edited(h.live, Now(h).edit));
  }

  /** While the tracker attends, one revision further under the same GUID is the creation and nothing else. */
  lemma {:induction false} AttendedCreate(h: Host, contents: Contents, t: Turn)
    requires Attended(h.live, Created(h, contents, t).live)
    requires var h' := Created(h, contents, t);
             ModelOf(h').guid == ModelOf(h).guid && ModelOf(h').revision == ModelOf(h).revision + 1
    ensures ModelOf(Created(h, contents, t)) ==
            ModelOf(h).(revision := ModelOf(h).revision + 1, sections := contents.sections, scenes := contents.scenes)
  {
    var l, m := Committed(h.live, contents), h.live.app.active;
    Tracking.EventAccounts(h.live.app, h.live.tracker, Tracking.Transaction(m));
    EditAccounts(l, t.after);
    LookedObserves(Edited(l, t.after));
  }

  // ---------- others who only commit ----------

  predicate OnlyCommits(e: Edit) {
    forall i :: 0 <= i < |e.events| ==> e.events[i].Transaction?
  }

  /** The tracker observes the active model, and others commit, to any model, but neither save nor switch nor reopen. */
  ghost predicate Steady(h: Host) {
    && Observes(h.live) && h.live.watched
    && forall i :: 0 <= i < |h.script| ==> OnlyCommits(h.script[i].edit) && OnlyCommits(h.script[i].after)
  }

  lemma {:induction false} CommitsKeep(h: Tracking.Host, t: Tracking.Tracker, es: seq<Tracking.Event>)
    requires t.model == Some(h.active) && t.guid == Some(h.GuidOf(h.active))
    requires forall i :: 0 <= i < |es| ==> es[i].Transaction?
    ensures var h', t' := Tracking.HostRun(h, es), Tracking.TrackerRun(h, t, es);
            && h'.active == h.active && h'.guids == h.guids
            && t'.model == t.model && t'.guid == t.guid && t'.resets == t.resets
    decreases |es|
  {
    if es != [] { CommitsKeep(Tracking.HostAfter(h, es[0]), Tracking.TrackerAfter(h, t, es[0]), es[1..]); }
  }

  lemma {:induction false} LookedSteady(l: Live, e: Edit)
    requires Observes(l) && OnlyCommits(e)
    ensures var l' := Looked(Edited(l, e));
            Observes(l') && l'.watched == l.watched && l'.tracker.resets == l.tracker.resets
  {
    CommitsKeep(l.app, l.tracker, e.events);
  }

  lemma {:induction false} SteadyCall(h: Host)
    requires Steady(h)
    ensures Steady(Called(h)) && Attended(h.live, Called(h).live) && OnlyCommits(Now(h).after)
  {
    LookedSteady(h.live, Now(h).edit);
  }

  lemma {:induction false} SteadyCreate(h: Host, contents: Contents, t: Turn)
    requires Steady(h) && OnlyCommits(t.after)
    ensures Steady(Created(h, contents, t)) && Attended(h.live, Created(h, contents, t).live)
  {
    LookedSteady(Committed(h.live, contents), t.after);
  }
}
