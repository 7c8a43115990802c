/**
 What a reply says about the model: transaction bracketing, when a result is recorded as
 completed, and the concrete runs that show where stronger promises fail.
 */
module MutationOutcomes {
  import opened Basics
  import opened Json
  import opened Tracking
  import opened Mutations
  import opened MutationRuns
  import Fingerprint
  import Commands

  // ---------- bracketing ----------

  datatype Bracket = Idle | Open | Broken

  /** SketchUp operations are sequential: a start needs no open operation, commit and abort need one. */
  function Scan(s: Bracket, call: Call): Bracket {
    match call
    case StartCall(answer) => if s.Idle? then (if answer.Yes? then Open else Idle) else Broken
    case BodyCall(_, _) => s
    case CommitCall(answer) => if s.Open? then (if answer.Yes? then Idle else Open) else Broken
    case AbortCall => if s.Open? then Idle else Broken
  }

  function ScanAll(s: Bracket, calls: seq<Call>): Bracket {
    if calls == [] then s else Scan(ScanAll(s, calls[..|calls| - 1]), calls[|calls| - 1])
  }

  lemma {:induction false} ScanOne(calls: seq<Call>, call: Call)
    ensures ScanAll(Idle, calls + [call]) == Scan(ScanAll(Idle, calls), call)
  {
    assert (calls + [call])[..|calls + [call]| - 1] == calls;
  }

  lemma {:induction false} TickScan(w: World, call: Call, events: seq<Event>)
    ensures ScanAll(Idle, Tick(w, call, events).log.calls) == Scan(ScanAll(Idle, w.log.calls), call)
  {
    ScanOne(w.log.calls, call);
  }

  lemma {:induction false} AfterStartBracketed(w: World, c: Context, undoLabel: string, a: Attempt, firstResets: nat)
    requires ScanAll(Idle, w.log.calls) == Open
    ensures ScanAll(Idle, AfterStart(w, c, undoLabel, a, firstResets).0.log.calls) == Idle
  {
    var w1 := Tick(w, BodyCall(c.operationId, w.log.epoch), a.bodyEvents);
    TickScan(w, BodyCall(c.operationId, w.log.epoch), a.bodyEvents);
    if a.body.Raises? {
      TickScan(w1, AbortCall, a.abortEvents);
    } else {
      var w2 := Tick(w1, CommitCall(a.commit), a.commitEvents);
      TickScan(w1, CommitCall(a.commit), a.commitEvents);
      if a.commit.Yes? {
        assert AfterCommit(w2, c, undoLabel, a, firstResets).0.log.calls == w2.log.calls;
      } else {
        TickScan(w2, AbortCall, a.abortEvents);
      }
    }
  }

  lemma {:induction false} ExecuteBracketed(w: World, c: Context, op: Operation, a: Attempt)
    requires ScanAll(Idle, w.log.calls) == Idle
    ensures ScanAll(Idle, Execute(w, c, op, a).0.log.calls) == Idle
  {
    var w0 := MarkRunning(w, c);
    if op.kind.Modelling? {
      var w1 := Tick(w0, StartCall(a.start), a.startEvents);
      TickScan(w0, StartCall(a.start), a.startEvents);
      if a.start.Yes? {
        AfterStartBracketed(w1, c, op.undoLabel, a, w.tracker.resets);
      }
    } else {
      TickScan(w0, BodyCall(c.operationId, w.log.epoch), a.bodyEvents);
    }
  }

  /**
   In every run each operation that was started is closed exactly once, by a successful
   commit or else by an abort; abort never follows a successful commit, nothing is
   committed or aborted that was not started, and operations never nest.
   */
  lemma {:induction false} RunBracketed(w: World, steps: seq<Step>)
    requires ScanAll(Idle, w.log.calls) == Idle
    ensures ScanAll(Idle, Run(w, steps).log.calls) == Idle
    decreases |steps|
  {
    if steps != [] {
      var st := steps[0];
      if st.Request? {
        if Executes(w, st.op, st.payload, st.attempt) {
          ExecutedContext(w, st.op, st.payload, st.attempt);
          ExecuteBracketed(Synced(w), Admitted(w, st.op, st.payload).value, st.op, st.attempt);
        } else {
          NotExecuted(w, st.op, st.payload, st.attempt);
        }
      }
      RunBracketed(StepWorld(w, st), steps[1..]);
    }
  }

  // ---------- what is recorded ----------

  predicate Committed(a: Attempt) {
    a.start.Yes? && a.body.Returns? && a.commit.Yes?
  }

  /** Everything the host did from the start of the operation to the commit's return. */
  function CommitTrace(a: Attempt): seq<Event> {
    a.startEvents + a.bodyEvents + a.commitEvents
  }

  function SnapshotAfter(w: World, es: seq<Event>): Snapshot {
    Seen(HostRun(w.host, es), TrackerRun(w.host, w.tracker, es))
  }

  /**
   A model mutation is recorded completed, and reported as a success, exactly when the
   transaction committed, the tracker saw the revision advance under the same GUID, and
   the result builder returned. On every other exit it is recorded failed.
   */
  lemma {:induction false} PerformOutcome(w: World, c: Context, undoLabel: string, a: Attempt)
    ensures var (w', reply) := Perform(w, c, undoLabel, a);
            && c.operationId in w'.records
            && var rec := w'.records[c.operationId];
            && (rec.Completed? <==>
                  Committed(a) && Advanced(c.snapshot, SnapshotAfter(w, CommitTrace(a))) && a.builder.Returns?)
            && (!rec.Completed? ==> rec.Failed?)
            && (reply.Success? <==> rec.Completed?)
            && (rec.Completed? ==> reply == SuccessReply(c, SnapshotAfter(w, CommitTrace(a)), a.builder.payload))
  {
    RunSplit(w.host, w.tracker, a.startEvents + a.bodyEvents, a.commitEvents);
    RunSplit(w.host, w.tracker, a.startEvents, a.bodyEvents);
    var w1 := Tick(MarkRunning(w, c), StartCall(a.start), a.startEvents);
    if a.start.Yes? {
      var w2 := Tick(w1, BodyCall(c.operationId, w1.log.epoch), a.bodyEvents);
      if a.body.Returns? {
        var w3 := Tick(w2, CommitCall(a.commit), a.commitEvents);
        assert Seen(w3.host, w3.tracker) == SnapshotAfter(w, CommitTrace(a));
        if a.commit.Yes? {
          assert AfterStart(w1, c, undoLabel, a, w.tracker.resets) == AfterCommit(w3, c, undoLabel, a, w.tracker.resets);
        }
      }
    }
  }

  lemma {:induction false} AfterStartCommits(w: World, c: Context, undoLabel: string, a: Attempt, firstResets: nat)
    ensures var calls := AfterStart(w, c, undoLabel, a, firstResets).0.log.calls;
            calls != [] && (calls[|calls| - 1] == CommitCall(Yes) <==> a.body.Returns? && a.commit.Yes?)
  {
    var w2 := Tick(w, BodyCall(c.operationId, w.log.epoch), a.bodyEvents);
    if a.body.Returns? {
      var w3 := Tick(w2, CommitCall(a.commit), a.commitEvents);
      if a.commit.Yes? {
        assert AfterStart(w, c, undoLabel, a, firstResets) == AfterCommit(w3, c, undoLabel, a, firstResets);
      }
    }
  }

  /** The last host call of the handler is a successful commit exactly when the transaction committed. */
  lemma {:induction false} PerformCommits(w: World, c: Context, undoLabel: string, a: Attempt)
    ensures var calls := Perform(w, c, undoLabel, a).0.log.calls;
            calls != [] && (calls[|calls| - 1] == CommitCall(Yes) <==> Committed(a))
  {
    var w1 := Tick(MarkRunning(w, c), StartCall(a.start), a.startEvents);
    if a.start.Yes? { AfterStartCommits(w1, c, undoLabel, a, w.tracker.resets); }
  }

  /**
   The gap between the record and the transaction: a mutation is recorded failed although its
   operation was committed exactly when its revision went unseen or its result builder raised.
   */
  lemma {:induction false} FailedButCommittedIff(w: World, c: Context, undoLabel: string, a: Attempt)
    ensures var (w', reply) := Perform(w, c, undoLabel, a);
            var calls := w'.log.calls;
            && c.operationId in w'.records && calls != []
            && (w'.records[c.operationId].Failed? && calls[|calls| - 1] == CommitCall(Yes) <==>
                  Committed(a) &&
                  (a.builder.Raises? || !Advanced(c.snapshot, SnapshotAfter(w, CommitTrace(a)))))
  {
    PerformOutcome(w, c, undoLabel, a);
    PerformCommits(w, c, undoLabel, a);
  }

  lemma {:induction false} CommittedHost(w: World, c: Context, undoLabel: string, a: Attempt)
    requires Committed(a)
    ensures Perform(w, c, undoLabel, a).0.host == HostRun(w.host, CommitTrace(a))
  {
    RunSplit(w.host, w.tracker, a.startEvents + a.bodyEvents, a.commitEvents);
    RunSplit(w.host, w.tracker, a.startEvents, a.bodyEvents);
    var w1 := Tick(MarkRunning(w, c), StartCall(a.start), a.startEvents);
    var w2 := Tick(w1, BodyCall(c.operationId, w1.log.epoch), a.bodyEvents);
    var w3 := Tick(w2, CommitCall(a.commit), a.commitEvents);
    assert AfterStart(w1, c, undoLabel, a, w.tracker.resets) == AfterCommit(w3, c, undoLabel, a, w.tracker.resets);
  }

  /** And the gap between the record and the model: a commit that was not empty changed it for good. */
  lemma {:induction false} FailedButChangedIff(w: World, c: Context, undoLabel: string, a: Attempt, m: ModelId)
    ensures var (w', reply) := Perform(w, c, undoLabel, a);
            var calls := w'.log.calls;
            && c.operationId in w'.records && calls != []
            && (w'.records[c.operationId].Failed? && calls[|calls| - 1] == CommitCall(Yes) &&
                w'.host.CommitsOf(m) > w.host.CommitsOf(m) <==>
                  Committed(a) && Transactions(m, CommitTrace(a)) > 0 &&
                  (a.builder.Raises? || !Advanced(c.snapshot, SnapshotAfter(w, CommitTrace(a)))))
  {
    FailedButCommittedIff(w, c, undoLabel, a);
    if Committed(a) {
      CommittedHost(w, c, undoLabel, a);
      CommitsCount(w.host, CommitTrace(a), m);
    }
  }

  /**
   With the count not restarted and the same model tracked, "the revision advanced" means
   exactly that the tracked model ran at least one non-empty transaction.
   */
  lemma {:induction false} AdvancedIffTransaction(w: World, c: Context, es: seq<Event>)
    requires c.snapshot == Seen(w.host, w.tracker) && Captured(w.host, w.tracker) == w.tracker
    requires var t' := Captured(HostRun(w.host, es), TrackerRun(w.host, w.tracker, es));
             t'.resets == w.tracker.resets && t'.model == w.tracker.model
    ensures Advanced(c.snapshot, SnapshotAfter(w, es)) <==> Transactions(w.tracker.model.value, es) > 0
  {
    CaptureAgrees(w.host, w.tracker);
    CaptureAgrees(HostRun(w.host, es), TrackerRun(w.host, w.tracker, es));
    RevisionGrows(w.host, w.tracker, es);
    RevisionCountsTransactions(w.host, w.tracker, es);
  }

  /**
   With the observer still on another model of the same GUID, no mutation of the active
   model is ever recorded completed, however often it commits.
   */
  lemma {:induction false} TwinModelNeverCompletes(w: World, c: Context, undoLabel: string, a: Attempt)
    requires c.snapshot == Seen(w.host, w.tracker) && Captured(w.host, w.tracker) == w.tracker
    requires w.tracker.model != Some(w.host.active)
    requires forall i :: 0 <= i < |CommitTrace(a)| ==> CommitTrace(a)[i] == Transaction(w.host.active)
    ensures Perform(w, c, undoLabel, a).0.records[c.operationId].Failed?
  {
    TwinModelUnobserved(w.host, w.tracker, CommitTrace(a));
    TransactionsKeepHost(w.host, CommitTrace(a));
    PerformOutcome(w, c, undoLabel, a);
  }

  lemma {:induction false} TransactionsKeepHost(h: Host, es: seq<Event>)
    requires forall i :: 0 <= i < |es| ==> es[i] == Transaction(h.active)
    ensures HostRun(h, es).active == h.active && HostRun(h, es).guids == h.guids
    decreases |es|
  {
    if es != [] {
      assert es[0] == Transaction(h.active);
      TransactionsKeepHost(HostAfter(h, es[0]), es[1..]);
    }
  }

  lemma {:induction false} UndoOutcome(w: World, c: Context, a: Attempt)
    ensures var (w', reply) := PerformUndo(w, c, a);
            && c.operationId in w'.records
            && var rec := w'.records[c.operationId];
            && (rec.Completed? <==> a.body.Returns? && Advanced(c.snapshot, SnapshotAfter(w, a.bodyEvents)))
            && (!rec.Completed? ==> rec.Failed?)
            && (reply.Success? <==> rec.Completed?)
  {
  }

  /** A file operation is recorded completed exactly when GUID and revision are what they were before it. */
  lemma {:induction false} FileOutcome(w: World, c: Context, kind: Kind, name: string, a: Attempt)
    ensures var (w', reply) := PerformFile(w, c, kind, name, a);
            && c.operationId in w'.records
            && var rec := w'.records[c.operationId];
            && (rec.Completed? <==> a.body.Returns? && SnapshotAfter(w, a.bodyEvents) == c.snapshot)
            && (!rec.Completed? ==> rec.Failed?)
            && (reply.Success? <==> rec.Completed?)
            && (a.body.Returns? && !rec.Completed? ==> reply.Failure? && reply.code == "STALE_REVISION")
  {
  }

  /** The cache is cleared exactly by a well-formed request that meets another GUID than the cache's. */
  lemma {:induction false} ClearedIff(w: World, op: Operation, payload: Json, a: Attempt)
    ensures Handle(w, op, payload, a).0.log.epoch == w.log.epoch + 1 <==>
              Parse(op, payload).Good? &&
              w.cacheGuid != Some(Seen(w.host, w.tracker).guid)
    ensures Handle(w, op, payload, a).0.log.epoch <= w.log.epoch + 1
  {
    if Executes(w, op, payload, a) {
      ExecutedContext(w, op, payload, a);
      ExecuteExecuted(Synced(w), Admitted(w, op, payload).value, op, a);
    }
  }

  // ---------- concrete runs ----------

  const SOME_HOST := Host(0, map[0 := "guid-a"], map[])
  const SOME_WORLD := World(SOME_HOST, Fresh, None, map[], Log(0, [], []))

  function UndoPayload(id: string, guid: Guid, revision: int): Json {
    Obj([Field("mutation", Obj([
      Field("operation_id", Str(id)), Field("expected_model_guid", Str(guid)),
      Field("expected_revision", Int(revision)), Field("undo_label", Str("SketchUp MCP: Undo"))]))])
  }

  const UNDO_ONCE := Attempt(None, Yes, [], Returns([]), [Transaction(0)], Yes, [], [], Returns([]))

  lemma {:induction false} UndoPayloadParses(id: string, guid: Guid, revision: nat)
    requires !Blank(id) && ByteSize(id) <= 128 && guid != ""
    ensures Asks(Commands.CHANGES_UNDO, UndoPayload(id, guid, revision), id, guid, revision)
  {
    var fs := UndoPayload(id, guid, revision).fields;
    var m := fs[0].value.fields;
    EnvelopeParses(m, id, guid, revision, "SketchUp MCP: Undo");
    assert fs[0].key in Keys(fs);
    assert Keys(fs) == {"mutation"};
    ParseGood(Commands.CHANGES_UNDO, fs, m, id, guid, revision);
  }

  lemma {:induction false} ParseGood(op: Operation, fs: seq<Field>, m: seq<Field>, id: string, guid: Guid, revision: nat)
    requires Keys(fs) == op.keys && Get(fs, "mutation") == Some(Obj(m)) && Keys(m) == MUTATION_KEYS
    requires Get(m, "operation_id") == Some(Str(id)) && Get(m, "expected_model_guid") == Some(Str(guid))
    requires Get(m, "expected_revision") == Some(Int(revision)) && Get(m, "undo_label") == Some(Str(op.undoLabel))
    requires !Blank(id) && ByteSize(id) <= 128 && guid != ""
    ensures Asks(op, Obj(fs), id, guid, revision)
  {
  }

  lemma {:induction false} EnvelopeParses(m: seq<Field>, id: string, guid: Guid, revision: nat, undoLabel: string)
    requires m == [Field("operation_id", Str(id)), Field("expected_model_guid", Str(guid)),
                   Field("expected_revision", Int(revision)), Field("undo_label", Str(undoLabel))]
    ensures Keys(m) == MUTATION_KEYS
    ensures Get(m, "operation_id") == Some(Str(id))
    ensures Get(m, "expected_model_guid") == Some(Str(guid))
    ensures Get(m, "expected_revision") == Some(Int(revision))
    ensures Get(m, "undo_label") == Some(Str(undoLabel))
  {
    assert m[0].key in Keys(m) && m[1].key in Keys(m) && m[2].key in Keys(m) && m[3].key in Keys(m);
    GetFinds(m, 0);
    GetFinds(m, 1);
    GetFinds(m, 2);
    GetFinds(m, 3);
  }

  /** In steps every request is this one, and yet its body runs twice. */
  ghost predicate RunsTwice(w: World, op: Operation, p: Json, id: string, steps: seq<Step>) {
    && Initial(w)
    && (forall i :: 0 <= i < |steps| && steps[i].Request? ==> steps[i] == Request(op, p, UNDO_ONCE))
    && Bodies(Run(w, steps).log.calls) == [BodyCall(id, 1), BodyCall(id, 3)]
  }

  /**
   At most once does not hold across epochs. The GUID rotates away and back; the very
   request that is refused in between empties the cache, and the same bytes sent a third
   time are executed again.
   */
  lemma {:induction false} TwiceAcrossEpochs()
    ensures exists steps :: RunsTwice(SOME_WORLD, Commands.CHANGES_UNDO, UndoPayload("op", "guid-a", 0), "op", steps)
  {
    assert "op"[0] in "op";
    UndoPayloadParses("op", "guid-a", 0);
    AgainAfterReturn(SOME_WORLD, Commands.CHANGES_UNDO, UndoPayload("op", "guid-a", 0), "op", "guid-a", "guid-b");
  }

  lemma {:induction false} AgainAfterReturn(w: World, op: Operation, p: Json, id: string, guid: Guid, other: Guid)
    requires op.kind.Undoing? && Asks(op, p, id, guid, 0) && guid != other
    requires Initial(w) && w.tracker.model.None?
    requires w.host.active == 0 && Seen(w.host, w.tracker) == Snapshot(guid, 0)
    ensures exists steps :: RunsTwice(w, op, p, id, steps)
  {
    var undo := Request(op, p, UNDO_ONCE);
    var w4, first := OnceAndBack(w, op, p, id, guid, other);
    var w5 := UndoExecutes(w4, op, p, id, guid, 0);
    assert Run(w, first + [undo]) == w5 by {
      RunAppend(w, first, [undo]);
      assert [undo][1..] == [];
    }
    TwoBodies(w, op, p, id, first + [undo], w5);
  }

  lemma {:induction false} RunAppend(w: World, a: seq<Step>, b: seq<Step>)
    ensures Run(w, a + b) == Run(Run(w, a), b)
    decreases |a|
  {
    if a == [] {
      assert a + b == b;
    } else {
      assert (a + b)[1..] == a[1..] + b;
      RunAppend(StepWorld(w, a[0]), a[1..], b);
    }
  }

  lemma {:induction false} OnceAndBack(w: World, op: Operation, p: Json, id: string, guid: Guid, other: Guid)
    returns (w4: World, steps: seq<Step>)
    requires op.kind.Undoing? && Asks(op, p, id, guid, 0) && guid != other
    requires Initial(w) && w.tracker.model.None?
    requires w.host.active == 0 && Seen(w.host, w.tracker) == Snapshot(guid, 0)
    ensures w4 == Run(w, steps)
    ensures forall i :: 0 <= i < |steps| && steps[i].Request? ==> steps[i] == Request(op, p, UNDO_ONCE)
    ensures Seen(w4.host, w4.tracker) == Snapshot(guid, 0) && Captured(w4.host, w4.tracker).model == Some(0)
    ensures w4.records == map[] && w4.cacheGuid == Some(other) && w4.host.active == 0
    ensures w4.log.epoch == 2 && w4.log.calls == [BodyCall(id, 1)]
  {
    var undo := Request(op, p, UNDO_ONCE);
    var w1 := UndoExecutes(w, op, p, id, guid, 0);
    assert Run(w, [undo]) == w1 by {
      assert [undo][1..] == [];
    }
    var rest;
    w4, rest := AwayAndBack(w1, op, p, id, guid, other);
    steps := [undo] + rest;
    RunAppend(w, [undo], rest);
  }

  lemma {:induction false} TwoBodies(w: World, op: Operation, p: Json, id: string, steps: seq<Step>, w5: World)
    requires Initial(w) && w5 == Run(w, steps)
    requires forall i :: 0 <= i < |steps| && steps[i].Request? ==> steps[i] == Request(op, p, UNDO_ONCE)
    requires w5.log.calls == [BodyCall(id, 1), BodyCall(id, 3)]
    ensures RunsTwice(w, op, p, id, steps)
  {
    BodiesOne([BodyCall(id, 1)], BodyCall(id, 3));
    BodiesOne([], BodyCall(id, 1));
    assert [BodyCall(id, 1)] + [BodyCall(id, 3)] == [BodyCall(id, 1), BodyCall(id, 3)];
  }

  lemma {:induction false} AwayAndBack(w: World, op: Operation, p: Json, id: string, guid: Guid, other: Guid)
    returns (w': World, steps: seq<Step>)
    requires op.kind.Undoing? && Asks(op, p, id, guid, 0) && guid != other
    requires w.host.active == 0 && w.cacheGuid == Some(guid)
    ensures w' == Run(w, steps)
    ensures forall i :: 0 <= i < |steps| && steps[i].Request? ==> steps[i] == Request(op, p, UNDO_ONCE)
    ensures Seen(w'.host, w'.tracker) == Snapshot(guid, 0) && Captured(w'.host, w'.tracker).model == Some(0)
    ensures w'.records == map[] && w'.cacheGuid == Some(other) && w'.host.active == 0
    ensures w'.log == w.log.(epoch := w.log.epoch + 1)
  {
    steps := [Outside(RotateGuid(0, other)), Request(op, p, UNDO_ONCE), Outside(RotateGuid(0, guid))];
    var w2 := StepWorld(w, steps[0]);
    var w3 := UndoRefused(w2, op, p, id, guid, 0, other);
    w' := StepWorld(w3, steps[2]);
    RunThree(w, steps);
  }

  lemma {:induction false} RunThree(w: World, s: seq<Step>)
    requires |s| == 3
    ensures Run(w, s) == StepWorld(StepWorld(StepWorld(w, s[0]), s[1]), s[2])
  {
    var w1 := StepWorld(w, s[0]);
    var w2 := StepWorld(w1, s[1]);
    assert Run(StepWorld(w2, s[2]), s[1..][1..][1..]) == StepWorld(w2, s[2]);
    assert Run(w2, s[1..][1..]) == StepWorld(w2, s[2]);
    assert Run(w1, s[1..]) == Run(w2, s[1..][1..]);
  }

  /** p is a well-formed request of op with these arguments. */
  ghost predicate Asks(op: Operation, p: Json, id: string, guid: Guid, revision: nat) {
    p.Obj? && Parse(op, p) == Good(Arguments(p.fields, id, guid, revision))
  }

  /** The same undo while the host shows another GUID: refused, but the cache is emptied. */
  lemma {:induction false} UndoRefused(w: World, op: Operation, p: Json, id: string, guid: Guid, revision: nat, current: Guid)
    returns (w': World)
    requires op.kind.Undoing? && Asks(op, p, id, guid, revision) && guid != current
    requires Seen(w.host, w.tracker).guid == current
    ensures w' == StepWorld(w, Request(op, p, UNDO_ONCE))
    ensures w' == Synced(w)
  {
    w' := Handle(w, op, p, UNDO_ONCE).0;
  }

  /** One undo on model 0 that the cache lets through. */
  lemma {:induction false} UndoExecutes(w: World, op: Operation, p: Json, id: string, guid: Guid, revision: nat) returns (w': World)
    requires op.kind.Undoing? && Asks(op, p, id, guid, revision)
    requires w.host.active == 0 && Seen(w.host, w.tracker) == Snapshot(guid, revision)
    requires id !in Synced(w).records && Captured(w.host, w.tracker).model == Some(0)
    ensures w' == StepWorld(w, Request(op, p, UNDO_ONCE))
    ensures w'.log.calls == w.log.calls + [BodyCall(id, Synced(w).log.epoch)]
    ensures w'.log.epoch == Synced(w).log.epoch
    ensures w'.cacheGuid == Some(guid) && w'.host == HostAfter(w.host, Transaction(0))
    ensures w'.tracker == Captured(w.host, w.tracker).(revision := revision + 1, callbacks := w.tracker.callbacks + 1)
  {
    AdmittedIff(w, op, p);
    ExecutedContext(w, op, p, UNDO_ONCE);
    w' := Handle(w, op, p, UNDO_ONCE).0;
    var ws := Synced(w);
    assert HostRun(ws.host, [Transaction(0)]) == HostAfter(ws.host, Transaction(0));
    assert TrackerRun(ws.host, ws.tracker, [Transaction(0)]) == Changed(ws.host, ws.tracker, 0);
  }

  /** A new operation that asks for revision 1 is admitted exactly when revision 1 is what is seen. */
  lemma {:induction false} AsksAdmitted(w: World, op: Operation, p: Json, id: string, guid: Guid)
    requires Asks(op, p, id, guid, 1) && id !in w.records && Seen(w.host, w.tracker).guid == guid
    ensures Admitted(w, op, p).Some? <==> Seen(w.host, w.tracker).revision == 1
  {
    AdmittedIff(w, op, p);
  }

  /**
   A restart of the count under an unchanged GUID revives an old expectation: a request
   made stale by a user edit is executed after the model is merely activated again and
   edited once, although the model it now meets has moved on twice since it was current.
   */
  lemma {:induction false} StaleRevivedByRestart(w: World, op: Operation, p: Json, id: string, guid: Guid)
    requires Asks(op, p, id, guid, 1) && id !in w.records
    requires w.host.active == 0 && w.tracker.model == Some(0) && w.tracker.guid == Some(guid)
    requires w.host.GuidOf(0) == guid && w.tracker.revision == 1
    ensures var edit := Outside(Transaction(0));
            var w1 := StepWorld(w, edit);
            var w3 := StepWorld(StepWorld(w1, Outside(Notify(0))), edit);
            && Admitted(w, op, p).Some?
            && Admitted(w1, op, p).None?
            && Admitted(w3, op, p).Some?
            && w3.tracker.callbacks == w.tracker.callbacks + 2
  {
    var w1 := StepWorld(w, Outside(Transaction(0)));
    var w2 := StepWorld(w1, Outside(Notify(0)));
    var w3 := StepWorld(w2, Outside(Transaction(0)));
    assert Seen(w.host, w.tracker) == Snapshot(guid, 1);
    assert w1.tracker.revision == 2 && Seen(w1.host, w1.tracker) == Snapshot(guid, 2);
    assert w2.tracker.revision == 0 && w2.tracker.model == Some(0);
    assert w3.tracker.revision == 1 && Seen(w3.host, w3.tracker) == Snapshot(guid, 1);
    AsksAdmitted(w, op, p, id, guid);
    AsksAdmitted(w1, op, p, id, guid);
    AsksAdmitted(w3, op, p, id, guid);
  }

  /**
   Without the observer on the active model the check sees nothing: a commit to a second
   model of the same GUID goes unnoticed, and the request is admitted on that model.
   */
  lemma {:induction false} TwinCommitUnseen(w: World, op: Operation, p: Json, id: string, guid: Guid)
    requires Asks(op, p, id, guid, 1) && id !in w.records
    requires w.host.active == 1 && w.tracker.model == Some(0) && w.tracker.guid == Some(guid) && w.tracker.revision == 1
    requires w.host.GuidOf(0) == guid && w.host.GuidOf(1) == guid
    ensures Captured(w.host, w.tracker) == w.tracker
    ensures var w1 := StepWorld(w, Outside(Transaction(1)));
            && Admitted(w1, op, p).Some? && Admitted(w1, op, p).value.model == 1
            && w1.tracker == w.tracker
            && w1.host.CommitsOf(1) == w.host.CommitsOf(1) + 1
  {
    var w1 := StepWorld(w, Outside(Transaction(1)));
    assert w1.host.GuidOf(1) == guid && w1.tracker == w.tracker;
    assert Seen(w1.host, w1.tracker) == Snapshot(guid, 1);
    AsksAdmitted(w1, op, p, id, guid);
    AdmittedRevision(w1, op, p);
  }

  /** A builder that raises after the commit: the model changed, the record says failed. */
  lemma {:induction false} BuilderFailureHidesCommit()
    ensures var a := Attempt(None, Yes, [], Returns([]), [], Yes, [Transaction(0)], [], Raises("entity has no persistent_id"));
            var w := CaptureWorld(SOME_WORLD);
            var c := Context(0, Snapshot("guid-a", 0), "op", Fingerprint.Digest("entity.translate", Null));
            var w' := Perform(w, c, "SketchUp MCP: Translate", a).0;
            && w'.records["op"].Failed?
            && w'.log.calls == [StartCall(Yes), BodyCall("op", 0), CommitCall(Yes)]
            && w'.tracker.revision == 1 && w'.host.CommitsOf(0) == 1
  {
    var a := Attempt(None, Yes, [], Returns([]), [], Yes, [Transaction(0)], [], Raises("entity has no persistent_id"));
    var w := CaptureWorld(SOME_WORLD);
    var c := Context(0, Snapshot("guid-a", 0), "op", Fingerprint.Digest("entity.translate", Null));
    var w1 := Tick(MarkRunning(w, c), StartCall(Yes), []);
    var w2 := Tick(w1, BodyCall("op", 0), []);
    var w3 := Tick(w2, CommitCall(Yes), [Transaction(0)]);
    assert TrackerRun(w2.host, w2.tracker, [Transaction(0)]) == Changed(w2.host, w2.tracker, 0);
    assert HostRun(w2.host, [Transaction(0)]) == HostAfter(w2.host, Transaction(0));
    assert w3.log.calls == [StartCall(Yes), BodyCall("op", 0), CommitCall(Yes)];
    assert AfterStart(w1, c, "SketchUp MCP: Translate", a, w.tracker.resets)
        == AfterCommit(w3, c, "SketchUp MCP: Translate", a, w.tracker.resets);
  }
}
