/**
 The revision tracker and the part of the SketchUp process it watches. A Model is an
 identity; its GUID lives in the host because saving a modified model rotates it. The
 observer is attached to the tracked model only, so only that model's transactions count.
 */
module Tracking {
  import opened Basics

  type ModelId = nat
  type Guid = string

  /** `commits` counts the non-empty transactions of each model: it is unchanged exactly when nothing was committed to it. */
  datatype Host = Host(active: ModelId, guids: map<ModelId, Guid>, commits: map<ModelId, nat>) {
    function GuidOf(m: ModelId): Guid {
      if m in guids then guids[m] else ""
    }

    function CommitsOf(m: ModelId): nat {
      if m in commits then commits[m] else 0
    }
  }

  /** Everything outside the engine that can touch host or tracker. */
  datatype Event =
    | Transaction(m: ModelId)             // non-empty commit, undo or redo in model m
    | RotateGuid(m: ModelId, guid: Guid)  // a save of a modified model
    | Activate(m: ModelId)
    | Notify(m: ModelId)                  // application observer: new, opened or activated model
    | Stop

  /**
   `resets` counts how often the revision has restarted at 0, `callbacks` the transaction
   callbacks received while a model is tracked; neither is ever set back.
   */
  datatype Tracker = Tracker(model: Option<ModelId>, guid: Option<Guid>, revision: nat, resets: nat, callbacks: nat)

  datatype Snapshot = Snapshot(guid: Guid, revision: nat)

  const Fresh := Tracker(None, None, 0, 0, 0)

  // ---------- specification ----------

  function TrackAt(h: Host, t: Tracker, m: ModelId): Tracker {
    Tracker(Some(m), Some(h.GuidOf(m)), 0, t.resets + 1, t.callbacks)
  }

  /** The tracker after a capture of the active model. */
  function Captured(h: Host, t: Tracker): Tracker {
    if t.model.None? || t.guid != Some(h.GuidOf(h.active)) then TrackAt(h, t, h.active) else t
  }

  function Seen(h: Host, t: Tracker): Snapshot {
    Snapshot(h.GuidOf(h.active), Captured(h, t).revision)
  }

  function Changed(h: Host, t: Tracker, m: ModelId): Tracker {
    if t.model.None? then t
    else if t.guid != Some(h.GuidOf(m)) then
      t.(guid := Some(h.GuidOf(m)), revision := 0, resets := t.resets + 1, callbacks := t.callbacks + 1)
    else t.(revision := t.revision + 1, callbacks := t.callbacks + 1)
  }

  function HostAfter(h: Host, e: Event): Host {
    match e
    case Transaction(m) => h.(commits := h.commits[m := h.CommitsOf(m) + 1])
    case RotateGuid(m, g) => h.(guids := h.guids[m := g])
    case Activate(m) => h.(active := m)
    case _ => h
  }

  function TrackerAfter(h: Host, t: Tracker, e: Event): Tracker {
    match e
    case Transaction(m) => if t.model == Some(m) then Changed(h, t, m) else t
    case Notify(m) => TrackAt(h, t, m)
    case Stop => t.(model := None)
    case _ => t
  }

  function HostRun(h: Host, es: seq<Event>): Host
    decreases |es|
  {
    if es == [] then h else HostRun(HostAfter(h, es[0]), es[1..])
  }

  function TrackerRun(h: Host, t: Tracker, es: seq<Event>): Tracker
    decreases |es|
  {
    if es == [] then t
    else TrackerRun(HostAfter(h, es[0]), TrackerAfter(h, t, es[0]), es[1..])
  }

  // ---------- what the revision means ----------

  function Transactions(m: ModelId, es: seq<Event>): nat {
    if es == [] then 0
    else (if es[0] == Transaction(m) then 1 else 0) + Transactions(m, es[1..])
  }

  /**
   How the tracker can move: the count restarts, or it grows by one for each callback
   while the GUID stays.
   */
  ghost predicate Grew(t: Tracker, t': Tracker) {
    && t'.resets >= t.resets
    && t'.callbacks >= t.callbacks
    && (t'.resets == t.resets ==>
          t'.guid == t.guid && t'.revision - t.revision == t'.callbacks - t.callbacks)
    && (t'.resets > t.resets ==> t'.revision <= t'.callbacks - t.callbacks)
  }

  /**
   The same against what was committed: without a restart the revision moved by the commits of
   the tracked model, after one it is at most the commits since.
   */
  ghost predicate Accounts(h: Host, t: Tracker, h': Host, t': Tracker) {
    && (forall m {:trigger h'.CommitsOf(m)} :: h'.CommitsOf(m) >= h.CommitsOf(m))
    && t'.resets >= t.resets
    && (t'.model.Some? ==>
          var committed := h'.CommitsOf(t'.model.value) - h.CommitsOf(t'.model.value);
          if t'.resets == t.resets then t'.model == t.model && t'.revision - t.revision == committed
          else t'.revision <= committed)
  }

  lemma {:induction false} AccountsTrans(h: Host, t: Tracker, h1: Host, t1: Tracker, h2: Host, t2: Tracker)
    requires Accounts(h, t, h1, t1) && Accounts(h1, t1, h2, t2)
    ensures Accounts(h, t, h2, t2)
  {
    forall m ensures h2.CommitsOf(m) >= h.CommitsOf(m) {
      assert h1.CommitsOf(m) >= h.CommitsOf(m);
    }
  }

  lemma {:induction false} EventAccounts(h: Host, t: Tracker, e: Event)
    ensures Accounts(h, t, HostAfter(h, e), TrackerAfter(h, t, e))
  {
  }

  /** Commits of the tracked model are what the revision counts, whatever the host does. */
  lemma {:induction false} RunAccounts(h: Host, t: Tracker, es: seq<Event>)
    ensures Accounts(h, t, HostRun(h, es), TrackerRun(h, t, es))
    decreases |es|
  {
    if es != [] {
      var h1, t1 := HostAfter(h, es[0]), TrackerAfter(h, t, es[0]);
      EventAccounts(h, t, es[0]);
      RunAccounts(h1, t1, es[1..]);
      AccountsTrans(h, t, h1, t1, HostRun(h1, es[1..]), TrackerRun(h1, t1, es[1..]));
    }
  }

  lemma {:induction false} CaptureAccounts(h: Host, t: Tracker)
    ensures Accounts(h, t, h, Captured(h, t))
  {
  }

  lemma {:induction false} RevisionGrows(h: Host, t: Tracker, es: seq<Event>)
    ensures Grew(t, TrackerRun(h, t, es))
    decreases |es|
  {
    if es == [] {
    } else {
      RevisionGrows(HostAfter(h, es[0]), TrackerAfter(h, t, es[0]), es[1..]);
    }
  }

  /**
   Between two restarts the revision advances by exactly the number of non-empty
   transactions of the tracked model: none is lost and none is counted twice.
   */
  lemma {:induction false} RevisionCountsTransactions(h: Host, t: Tracker, es: seq<Event>)
    requires t.model.Some?
    requires TrackerRun(h, t, es).resets == t.resets
    requires TrackerRun(h, t, es).model == t.model
    ensures TrackerRun(h, t, es).revision == t.revision + Transactions(t.model.value, es)
    decreases |es|
  {
    if es == [] {
    } else {
      var h1, t1 := HostAfter(h, es[0]), TrackerAfter(h, t, es[0]);
      RevisionGrows(h1, t1, es[1..]);
      if es[0].Stop? { StoppedStays(h1, t1, es[1..]); }
      RevisionCountsTransactions(h1, t1, es[1..]);
    }
  }

  /** Once stopped, the tracker follows no model until something restarts the count. */
  lemma {:induction false} StoppedStays(h: Host, t: Tracker, es: seq<Event>)
    requires t.model.None?
    ensures TrackerRun(h, t, es).resets == t.resets ==> TrackerRun(h, t, es).model.None?
    decreases |es|
  {
    if es == [] {
    } else {
      RevisionGrows(HostAfter(h, es[0]), TrackerAfter(h, t, es[0]), es[1..]);
      if TrackerAfter(h, t, es[0]).model.None? {
        StoppedStays(HostAfter(h, es[0]), TrackerAfter(h, t, es[0]), es[1..]);
      }
    }
  }

  /** The commit counter of a model counts its non-empty transactions. */
  lemma {:induction false} CommitsCount(h: Host, es: seq<Event>, m: ModelId)
    ensures HostRun(h, es).CommitsOf(m) == h.CommitsOf(m) + Transactions(m, es)
    decreases |es|
  {
    if es != [] { CommitsCount(HostAfter(h, es[0]), es[1..], m); }
  }

  /** A capture agrees with the host and is stable: asking twice changes nothing. */
  lemma {:induction false} CaptureAgrees(h: Host, t: Tracker)
    ensures Captured(h, t).model.Some?
    ensures Captured(h, t).guid == Some(Seen(h, t).guid)
    ensures Captured(h, Captured(h, t)) == Captured(h, t)
    ensures Captured(h, t).resets == t.resets ==> Captured(h, t) == t
  {
  }

  /**
   A second model that carries the tracked GUID is never observed: capturing it keeps
   the observer on the first model, so its transactions leave the revision alone.
   */
  lemma {:induction false} TwinModelUnobserved(h: Host, t: Tracker, es: seq<Event>)
    requires t.model.Some? && h.active != t.model.value
    requires t.guid == Some(h.GuidOf(h.active))
    requires forall i :: 0 <= i < |es| ==> es[i] == Transaction(h.active)
    ensures Captured(h, t) == t
    ensures TrackerRun(h, t, es) == t
    decreases |es|
  {
    if es == [] {
    } else {
      assert es[0] == Transaction(h.active);
      TwinModelUnobserved(HostAfter(h, es[0]), t, es[1..]);
    }
  }

  lemma {:induction false} RunSplit(h: Host, t: Tracker, es: seq<Event>, fs: seq<Event>)
    ensures HostRun(h, es + fs) == HostRun(HostRun(h, es), fs)
    ensures TrackerRun(h, t, es + fs) == TrackerRun(HostRun(h, es), TrackerRun(h, t, es), fs)
    decreases |es|
  {
    if es == [] {
      assert es + fs == fs;
    } else {
      assert (es + fs)[1..] == es[1..] + fs;
      RunSplit(HostAfter(h, es[0]), TrackerAfter(h, t, es[0]), es[1..], fs);
    }
  }

  // ---------- implementation ----------

  class SketchUp {
    var active: ModelId
    var guids: map<ModelId, Guid>
    var commits: map<ModelId, nat>

    function View(): Host
      reads this
    {
      Host(active, guids, commits)
    }

    constructor (active: ModelId, guids: map<ModelId, Guid>)
      ensures View() == Host(active, guids, map[])
    {
      this.active, this.guids, this.commits := active, guids, map[];
    }
  }

  class ModelState {
    const app: SketchUp
    var model: Option<ModelId>
    var guid: Option<Guid>
    var revision: nat
    ghost var resets: nat
    ghost var callbacks: nat

    ghost function View(): Tracker
      reads this
    {
      Tracker(model, guid, revision, resets, callbacks)
    }

    constructor (app: SketchUp)
      ensures this.app == app && View() == Fresh
    {
      this.app := app;
      model, guid, revision, resets, callbacks := None, None, 0, 0, 0;
    }

    method Detach()
      modifies this
      ensures View() == old(View()).(model := None)
    {
      model := None;
    }

    method Track(m: ModelId)
      modifies this
      ensures View() == TrackAt(app.View(), old(View()), m)
    {
      Detach();
      model := Some(m);
      guid := Some(app.View().GuidOf(m));
      revision := 0;
      resets := resets + 1;
    }

    method Capture() returns (m: ModelId, s: Snapshot)
      modifies this
      ensures View() == Captured(app.View(), old(View()))
      ensures m == app.active && s == Seen(app.View(), old(View()))
    {
      m := app.active;
      if model.None? || guid != Some(app.View().GuidOf(m)) {
        Track(m);
      }
      s := Snapshot(guid.value, revision);
    }

    method RebaseGuid(m: ModelId) returns (rebased: bool)
      modifies this
      ensures rebased == (old(guid) != Some(app.View().GuidOf(m)))
      ensures View() == if rebased
                        then old(View()).(guid := Some(app.View().GuidOf(m)), revision := 0, resets := old(resets) + 1)
                        else old(View())
    {
      var current := Some(app.View().GuidOf(m));
      if current == guid { return false; }
      guid := current;
      revision := 0;
      resets := resets + 1;
      return true;
    }

    method TransactionChanged(m: ModelId)
      modifies this
      ensures View() == Changed(app.View(), old(View()), m)
    {
      if model.None? { return; }
      callbacks := callbacks + 1;
      var rebased := RebaseGuid(m);
      if rebased { return; }
      revision := revision + 1;
    }

    /** The host runs for a while; its callbacks reach the tracker in order. */
    method Deliver(events: seq<Event>)
      modifies this, app
      ensures app.View() == HostRun(old(app.View()), events)
      ensures View() == TrackerRun(old(app.View()), old(View()), events)
    {
      var i := 0;
      while i < |events|
        invariant 0 <= i <= |events|
        invariant HostRun(app.View(), events[i..]) == HostRun(old(app.View()), events)
        invariant TrackerRun(app.View(), View(), events[i..]) == TrackerRun(old(app.View()), old(View()), events)
      {
        var e := events[i];
        assert events[i..][1..] == events[i + 1..];
        match e {
          case Transaction(m) =>
            app.commits := app.commits[m := app.View().CommitsOf(m) + 1];
            if model == Some(m) { TransactionChanged(m); }
          case RotateGuid(m, g) => app.guids := app.guids[m := g];
          case Activate(m) => app.active := m;
          case Notify(m) => Track(m);
          case Stop => Detach();
        }
        i := i + 1;
      }
      assert events[i..] == [];
    }
  }
}
