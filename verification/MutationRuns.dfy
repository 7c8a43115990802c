/**
 Whole runs of the engine: any interleaving of mutation requests, reads, user edits,
 undo and redo, saves that rotate the GUID, and model switches.
 */
module MutationRuns {
  import opened Basics
  import opened Json
  import opened Tracking
  import opened Mutations
  import Fingerprint

  datatype Step =
    | Request(op: Operation, payload: Json, attempt: Attempt)
    | Observe                 // a read command: it captures the model and nothing else
    | Outside(event: Event)

  function StepWorld(w: World, st: Step): World {
    match st
    case Request(op, payload, a) => Handle(w, op, payload, a).0
    case Observe => CaptureWorld(w)
    case Outside(e) => w.(host := HostAfter(w.host, e), tracker := TrackerAfter(w.host, w.tracker, e))
  }

  function Run(w: World, steps: seq<Step>): World
    decreases |steps|
  {
    if steps == [] then w else Run(StepWorld(w, steps[0]), steps[1..])
  }

  // ---------- one execution ----------

  ghost predicate Terminal(r: Record) {
    r.Completed? || r.Failed?
  }

  /** The context a request is executed in, when prepare_request lets it through. */
  function Admitted(w: World, op: Operation, payload: Json): Option<Context> {
    match Prepare(w, op, payload).1
    case Respond(_) => None
    case Proceed(c) => Some(c)
  }

  predicate Executes(w: World, op: Operation, payload: Json, a: Attempt) {
    Admitted(w, op, payload).Some? && (a.check.Some? ==> op.kind.Undoing?)
  }

  /** The world in which an admitted request is executed. */
  function Synced(w: World): World {
    SyncEpoch(CaptureWorld(w), Seen(w.host, w.tracker).guid)
  }

  function Bodies(calls: seq<Call>): seq<Call> {
    if calls == [] then []
    else (if calls[0].BodyCall? then [calls[0]] else []) + Bodies(calls[1..])
  }

  lemma {:induction false} BodiesSplit(a: seq<Call>, b: seq<Call>)
    ensures Bodies(a + b) == Bodies(a) + Bodies(b)
  {
    if a == [] {
      assert a + b == b;
    } else {
      assert (a + b)[1..] == a[1..] + b;
      BodiesSplit(a[1..], b);
    }
  }

  lemma {:induction false} BodiesOne(calls: seq<Call>, call: Call)
    ensures Bodies(calls + [call]) == Bodies(calls) + if call.BodyCall? then [call] else []
  {
    BodiesSplit(calls, [call]);
  }

  /** What an execution does to cache and log, whatever the host answers. */
  ghost predicate Executed(w: World, c: Context, w': World, reply: Reply, ran: bool) {
    && w'.cacheGuid == w.cacheGuid
    && w'.log.epoch == w.log.epoch
    && c.operationId in w'.records
    && Terminal(w'.records[c.operationId])
    && w'.records[c.operationId].digest == c.digest
    && w'.records[c.operationId].reply == reply
    && w'.records == w.records[c.operationId := w'.records[c.operationId]]
    && Bodies(w'.log.calls) == Bodies(w.log.calls) + if ran then [BodyCall(c.operationId, w.log.epoch)] else []
  }

  /** From w to w' the host was called and nothing else: `ran` bodies were started. */
  ghost predicate Called(w: World, w': World, ran: seq<Call>) {
    && w'.cacheGuid == w.cacheGuid
    && w'.records == w.records
    && w'.log.epoch == w.log.epoch
    && w'.log.writes == w.log.writes
    && Bodies(w'.log.calls) == Bodies(w.log.calls) + ran
  }

  lemma {:induction false} TickCalled(w: World, w1: World, ran: seq<Call>, call: Call, events: seq<Event>)
    requires Called(w, w1, ran)
    ensures Called(w, Tick(w1, call, events), ran + if call.BodyCall? then [call] else [])
  {
    BodiesOne(w1.log.calls, call);
    assert Bodies(w.log.calls) + ran + (if call.BodyCall? then [call] else [])
        == Bodies(w.log.calls) + (ran + if call.BodyCall? then [call] else []);
  }

  lemma {:induction false} RecordedExecuted(w: World, c: Context, w1: World, ran: bool, reply: Reply)
    requires Called(MarkRunning(w, c), w1, if ran then [BodyCall(c.operationId, w.log.epoch)] else [])
    ensures Executed(w, c, Fail(w1, c, reply).0, reply, ran)
    ensures Executed(w, c, Complete(w1, c, reply).0, reply, ran)
  {
  }

  lemma {:induction false} BodyRaisedExecuted(w: World, c: Context, undoLabel: string, a: Attempt, w1: World, body: Call, firstResets: nat)
    requires body == BodyCall(c.operationId, w.log.epoch) && w1.log.epoch == w.log.epoch && a.body.Raises?
    requires Called(MarkRunning(w, c), Tick(w1, body, a.bodyEvents), [body])
    ensures var (w', reply) := AfterStart(w1, c, undoLabel, a, firstResets); Executed(w, c, w', reply, true)
  {
    var w2 := Tick(w1, body, a.bodyEvents);
    TickCalled(MarkRunning(w, c), w2, [body], AbortCall, a.abortEvents);
    RecordedExecuted(w, c, Tick(w2, AbortCall, a.abortEvents), true, AfterStart(w1, c, undoLabel, a, firstResets).1);
  }

  lemma {:induction false} CommitExecuted(w: World, c: Context, undoLabel: string, a: Attempt, w1: World, body: Call, firstResets: nat)
    requires body == BodyCall(c.operationId, w.log.epoch) && w1.log.epoch == w.log.epoch && a.body.Returns?
    requires Called(MarkRunning(w, c), Tick(w1, body, a.bodyEvents), [body])
    ensures var (w', reply) := AfterStart(w1, c, undoLabel, a, firstResets); Executed(w, c, w', reply, true)
  {
    var w0, reply := MarkRunning(w, c), AfterStart(w1, c, undoLabel, a, firstResets).1;
    var w2 := Tick(w1, body, a.bodyEvents);
    var w3 := Tick(w2, CommitCall(a.commit), a.commitEvents);
    TickCalled(w0, w2, [body], CommitCall(a.commit), a.commitEvents);
    if a.commit.Yes? {
      RecordedExecuted(w, c, CaptureWorld(w3), true, reply);
    } else {
      TickCalled(w0, w3, [body], AbortCall, a.abortEvents);
      RecordedExecuted(w, c, Tick(w3, AbortCall, a.abortEvents), true, reply);
    }
  }

  lemma {:induction false} AfterStartExecuted(w: World, c: Context, undoLabel: string, a: Attempt, w1: World, firstResets: nat)
    requires Called(MarkRunning(w, c), w1, [])
    ensures var (w', reply) := AfterStart(w1, c, undoLabel, a, firstResets); Executed(w, c, w', reply, true)
  {
    var body := BodyCall(c.operationId, w.log.epoch);
    TickCalled(MarkRunning(w, c), w1, [], body, a.bodyEvents);
    assert [] + [body] == [body];
    if a.body.Raises? {
      BodyRaisedExecuted(w, c, undoLabel, a, w1, body, firstResets);
    } else {
      CommitExecuted(w, c, undoLabel, a, w1, body, firstResets);
    }
  }

  lemma {:induction false} PerformExecuted(w: World, c: Context, undoLabel: string, a: Attempt)
    ensures var (w', reply) := Perform(w, c, undoLabel, a); Executed(w, c, w', reply, a.start.Yes?)
  {
    var w0 := MarkRunning(w, c);
    TickCalled(w0, w0, [], StartCall(a.start), a.startEvents);
    NoneMore([]);
    var w1 := Tick(w0, StartCall(a.start), a.startEvents);
    if a.start.Yes? {
      AfterStartExecuted(w, c, undoLabel, a, w1, w.tracker.resets);
    } else {
      RecordedExecuted(w, c, w1, false, Perform(w, c, undoLabel, a).1);
    }
  }

  lemma {:induction false} NoneMore(calls: seq<Call>)
    ensures calls + [] == calls && [] + calls == calls
  {
  }

  /** The part undo and the file operations share: the record runs, then the host does. */
  lemma {:induction false} BodyCalled(w: World, c: Context, a: Attempt) returns (w1: World)
    ensures w1 == Tick(MarkRunning(w, c), BodyCall(c.operationId, w.log.epoch), a.bodyEvents)
    ensures Called(MarkRunning(w, c), w1, [BodyCall(c.operationId, w.log.epoch)])
    ensures Called(MarkRunning(w, c), CaptureWorld(w1), [BodyCall(c.operationId, w.log.epoch)])
  {
    var w0, body := MarkRunning(w, c), BodyCall(c.operationId, w.log.epoch);
    TickCalled(w0, w0, [], body, a.bodyEvents);
    NoneMore([body]);
    w1 := Tick(w0, body, a.bodyEvents);
  }

  lemma {:induction false} UndoExecuted(w: World, c: Context, a: Attempt)
    ensures var (w', reply) := PerformUndo(w, c, a); Executed(w, c, w', reply, true)
  {
    var reply := PerformUndo(w, c, a).1;
    var w1 := BodyCalled(w, c, a);
    RecordedExecuted(w, c, w1, true, reply);
    RecordedExecuted(w, c, CaptureWorld(w1), true, reply);
  }

  lemma {:induction false} FileExecuted(w: World, c: Context, kind: Kind, name: string, a: Attempt)
    ensures var (w', reply) := PerformFile(w, c, kind, name, a); Executed(w, c, w', reply, true)
  {
    var reply := PerformFile(w, c, kind, name, a).1;
    var w1 := BodyCalled(w, c, a);
    RecordedExecuted(w, c, w1, true, reply);
    RecordedExecuted(w, c, CaptureWorld(w1), true, reply);
  }

  lemma {:induction false} ExecuteExecuted(w: World, c: Context, op: Operation, a: Attempt)
    ensures var (w', reply) := Execute(w, c, op, a);
            Executed(w, c, w', reply, op.kind.Modelling? ==> a.start.Yes?)
  {
    match op.kind
    case Modelling => PerformExecuted(w, c, op.undoLabel, a);
    case Undoing => UndoExecuted(w, c, a);
    case _ => FileExecuted(w, c, op.kind, op.name, a);
  }

  /** A request that is not executed answers without touching the log or any record. */
  lemma {:induction false} NotExecuted(w: World, op: Operation, payload: Json, a: Attempt)
    requires !Executes(w, op, payload, a)
    ensures var w' := Handle(w, op, payload, a).0; w' == w || w' == Synced(w)
  {
  }

  lemma {:induction false} ExecutedContext(w: World, op: Operation, payload: Json, a: Attempt)
    requires Executes(w, op, payload, a)
    ensures var c := Admitted(w, op, payload).value;
            && Handle(w, op, payload, a) == Execute(Synced(w), c, op, a)
            && c.operationId !in Synced(w).records
            && c.snapshot == Seen(w.host, w.tracker)
            && c.model == w.host.active
            && Captured(Synced(w).host, Synced(w).tracker) == Synced(w).tracker
            && Seen(Synced(w).host, Synced(w).tracker) == c.snapshot
            && Synced(w).tracker.revision == c.snapshot.revision
  {
    CaptureAgrees(w.host, w.tracker);
  }

  // ---------- at most once ----------

  ghost predicate Once(bodies: seq<Call>) {
    forall i, j :: 0 <= i < j < |bodies| && bodies[i].BodyCall? && bodies[j].BodyCall? ==>
      bodies[i].epoch != bodies[j].epoch || bodies[i].operationId != bodies[j].operationId
  }

  ghost predicate CacheInv(w: World) {
    && (forall id :: id in w.records ==> Terminal(w.records[id]))
    && (forall b :: b in Bodies(w.log.calls) ==>
          b.BodyCall? && b.epoch <= w.log.epoch && (b.epoch == w.log.epoch ==> b.operationId in w.records))
    && Once(Bodies(w.log.calls))
  }

  lemma {:induction false} ExecutedKeepsInv(w: World, c: Context, w': World, reply: Reply, ran: bool)
    requires CacheInv(w) && c.operationId !in w.records && Executed(w, c, w', reply, ran)
    ensures CacheInv(w')
  {
    if ran {
      var old_ := Bodies(w.log.calls);
      forall i | 0 <= i < |old_|
        ensures old_[i].epoch != w.log.epoch || old_[i].operationId != c.operationId
      {
        assert old_[i] in old_;
      }
    }
  }

  lemma {:induction false} StepKeepsInv(w: World, st: Step)
    requires CacheInv(w)
    ensures CacheInv(StepWorld(w, st))
  {
    match st
    case Request(op, payload, a) =>
      if Executes(w, op, payload, a) {
        ExecutedContext(w, op, payload, a);
        var c := Admitted(w, op, payload).value;
        ExecuteExecuted(Synced(w), c, op, a);
        var (w', reply) := Handle(w, op, payload, a);
        var ran := op.kind.Modelling? ==> a.start.Yes?;
        ExecutedKeepsInv(Synced(w), c, w', reply, ran);
      } else {
        NotExecuted(w, op, payload, a);
      }
    case _ =>
  }

  lemma {:induction false} RunKeepsInv(w: World, steps: seq<Step>)
    requires CacheInv(w)
    ensures CacheInv(Run(w, steps))
    decreases |steps|
  {
    if steps != [] {
      StepKeepsInv(w, steps[0]);
      RunKeepsInv(StepWorld(w, steps[0]), steps[1..]);
    }
  }

  /**
   In every run, the body of a given operation_id executes at most once between two
   clearings of the cache, and no record is left running once its handler has returned.
   */
  lemma {:induction false} AtMostOncePerEpoch(w: World, steps: seq<Step>)
    requires Initial(w)
    ensures Once(Bodies(Run(w, steps).log.calls))
    ensures forall id :: id in Run(w, steps).records ==> Terminal(Run(w, steps).records[id])
  {
    RunKeepsInv(w, steps);
  }

  // ---------- when a request is executed ----------

  /**
   The exact admission condition: well-formed, for the GUID the host shows now, with an
   operation_id the surviving cache does not know, and at the current revision.
   */
  lemma {:induction false} AdmittedIff(w: World, op: Operation, payload: Json)
    ensures Admitted(w, op, payload).Some? <==>
            && Parse(op, payload).Good?
            && var args := Parse(op, payload).arguments;
            && var now := Seen(w.host, w.tracker);
            && args.guid == now.guid
            && args.revision == now.revision
            && (args.operationId !in w.records || w.cacheGuid != Some(now.guid))
  {
  }

  // ---------- replay ----------

  lemma {:induction false} StepRecordsStay(w: World, st: Step, id: string)
    requires id in w.records
    ensures StepWorld(w, st).log.epoch >= w.log.epoch
    ensures StepWorld(w, st).log.epoch == w.log.epoch ==>
              id in StepWorld(w, st).records && StepWorld(w, st).records[id] == w.records[id]
  {
    StepEpochGrows(w, st);
    if st.Request? {
      if Executes(w, st.op, st.payload, st.attempt) {
        ExecutedContext(w, st.op, st.payload, st.attempt);
        ExecuteExecuted(Synced(w), Admitted(w, st.op, st.payload).value, st.op, st.attempt);
      } else {
        NotExecuted(w, st.op, st.payload, st.attempt);
      }
    }
  }

  lemma {:induction false} StepEpochGrows(w: World, st: Step)
    ensures StepWorld(w, st).log.epoch >= w.log.epoch
  {
    if st.Request? {
      if Executes(w, st.op, st.payload, st.attempt) {
        ExecutedContext(w, st.op, st.payload, st.attempt);
        ExecuteExecuted(Synced(w), Admitted(w, st.op, st.payload).value, st.op, st.attempt);
      } else {
        NotExecuted(w, st.op, st.payload, st.attempt);
      }
    }
  }

  lemma {:induction false} EpochGrows(w: World, steps: seq<Step>)
    ensures Run(w, steps).log.epoch >= w.log.epoch
    decreases |steps|
  {
    if steps != [] {
      StepEpochGrows(w, steps[0]);
      EpochGrows(StepWorld(w, steps[0]), steps[1..]);
    }
  }

  /** Until the cache is cleared, a record once terminal never changes again. */
  lemma {:induction false} RecordsStay(w: World, steps: seq<Step>, id: string)
    requires id in w.records
    requires Run(w, steps).log.epoch == w.log.epoch
    ensures id in Run(w, steps).records && Run(w, steps).records[id] == w.records[id]
    decreases |steps|
  {
    if steps != [] {
      StepRecordsStay(w, steps[0], id);
      EpochGrows(StepWorld(w, steps[0]), steps[1..]);
      RecordsStay(StepWorld(w, steps[0]), steps[1..], id);
    }
  }

  /**
   Idempotent replay. Take any request that was executed, then any run that does not
   clear the cache, then any well-formed request with the same operation_id while the
   host shows the cache's GUID. It is answered without touching cache, log or host: with
   the very reply of the first execution when it is the same request up to operation_id
   and key order - however far the revision has moved - and with OPERATION_ID_REUSE
   otherwise.
   */
  lemma {:induction false} ReplayStable(w: World, op: Operation, payload: Json, a: Attempt, steps: seq<Step>,
                     op': Operation, payload': Json, a': Attempt)
    requires WellFormed(payload) && WellFormed(payload')
    requires Executes(w, op, payload, a)
    requires Parse(op', payload').Good?
    requires var args' := Parse(op', payload').arguments;
             var (w1, _) := Handle(w, op, payload, a);
             var w2 := Run(w1, steps);
             && args'.operationId == Admitted(w, op, payload).value.operationId
             && w2.log.epoch == w1.log.epoch
             && args'.guid == Seen(w2.host, w2.tracker).guid
             && w2.cacheGuid == Some(args'.guid)
    ensures var (w1, reply) := Handle(w, op, payload, a);
            var w2 := Run(w1, steps);
            var (w3, reply') := Handle(w2, op', payload', a');
            && !Executes(w2, op', payload', a')
            && w3 == CaptureWorld(w2)
            && (op'.name == op.name && Fingerprint.SameRequest(payload'.fields, payload.fields) ==> reply' == reply)
            && (!(op'.name == op.name && Fingerprint.SameRequest(payload'.fields, payload.fields)) ==>
                  reply'.Failure? && reply'.code == "OPERATION_ID_REUSE")
  {
    ExecutedContext(w, op, payload, a);
    var c := Admitted(w, op, payload).value;
    ExecuteExecuted(Synced(w), c, op, a);
    var (w1, reply) := Handle(w, op, payload, a);
    RecordsStay(w1, steps, c.operationId);
    AdmittedDigest(w, op, payload);
    KnownAnswer(Run(w1, steps), op', payload', a');
    Fingerprint.FingerprintIff(op'.name, payload'.fields, op.name, payload.fields);
  }

  lemma {:induction false} AdmittedDigest(w: World, op: Operation, payload: Json)
    requires Admitted(w, op, payload).Some?
    ensures payload.Obj? && Admitted(w, op, payload).value.digest == Fingerprint.Of(op.name, payload.fields)
  {
  }

  /** A request whose operation_id is on record is answered from the record alone. */
  lemma {:induction false} KnownAnswer(w: World, op: Operation, payload: Json, a: Attempt)
    requires Parse(op, payload).Good?
    requires var args := Parse(op, payload).arguments;
             && args.guid == Seen(w.host, w.tracker).guid
             && w.cacheGuid == Some(args.guid)
             && args.operationId in w.records && Terminal(w.records[args.operationId])
    ensures payload.Obj? && !Executes(w, op, payload, a)
    ensures var rec := w.records[Parse(op, payload).arguments.operationId];
            var (w', reply) := Handle(w, op, payload, a);
            && w' == CaptureWorld(w)
            && (rec.digest == Fingerprint.Of(op.name, payload.fields) ==> reply == rec.reply)
            && (rec.digest != Fingerprint.Of(op.name, payload.fields) ==>
                  reply.Failure? && reply.code == "OPERATION_ID_REUSE")
  {
    var args := Parse(op, payload).arguments;
    assert args.fields == payload.fields;
  }

  // ---------- optimistic concurrency ----------

  /** From w to w' the tracker grew, and a successful write was logged with the revisions around it. */
  ghost predicate Tracks(w: World, w': World, reply: Reply, writes: bool) {
    && Grew(w.tracker, w'.tracker)
    && (reply.Success? && writes ==>
          w'.log.writes == w.log.writes +
            [Write(w.tracker.resets, w'.tracker.resets, w.tracker.revision, w'.tracker.revision)] &&
          w.tracker.revision < w'.tracker.revision)
    && (!(reply.Success? && writes) ==> w'.log.writes == w.log.writes)
  }

  lemma {:induction false} PerformTracks(w: World, c: Context, undoLabel: string, a: Attempt)
    requires c.snapshot == Seen(w.host, w.tracker) && Captured(w.host, w.tracker) == w.tracker
    ensures var (w', reply) := Perform(w, c, undoLabel, a); Tracks(w, w', reply, true)
  {
    var w0 := MarkRunning(w, c);
    var w1 := Tick(w0, StartCall(a.start), a.startEvents);
    RevisionGrows(w0.host, w0.tracker, a.startEvents);
    if a.start.Yes? { AfterStartTracks(w1, c, undoLabel, a, w.tracker.resets); }
  }

  lemma {:induction false} UndoTracks(w: World, c: Context, a: Attempt)
    requires c.snapshot == Seen(w.host, w.tracker) && Captured(w.host, w.tracker) == w.tracker
    ensures var (w', reply) := PerformUndo(w, c, a); Tracks(w, w', reply, true)
  {
    RevisionGrows(w.host, w.tracker, a.bodyEvents);
  }

  lemma {:induction false} FileTracks(w: World, c: Context, kind: Kind, name: string, a: Attempt)
    requires c.snapshot == Seen(w.host, w.tracker) && Captured(w.host, w.tracker) == w.tracker
    ensures var (w', reply) := PerformFile(w, c, kind, name, a); Tracks(w, w', reply, false)
  {
    RevisionGrows(w.host, w.tracker, a.bodyEvents);
  }

  lemma {:induction false} ExecuteTracks(w: World, c: Context, op: Operation, a: Attempt)
    requires c.snapshot == Seen(w.host, w.tracker) && Captured(w.host, w.tracker) == w.tracker
    ensures var (w', reply) := Execute(w, c, op, a); Tracks(w, w', reply, op.kind.Modelling? || op.kind.Undoing?)
  {
    match op.kind
    case Modelling => PerformTracks(w, c, op.undoLabel, a);
    case Undoing => UndoTracks(w, c, a);
    case _ => FileTracks(w, c, op.kind, op.name, a);
  }

  lemma {:induction false} AfterStartTracks(w: World, c: Context, undoLabel: string, a: Attempt, firstResets: nat)
    ensures var (w', reply) := AfterStart(w, c, undoLabel, a, firstResets);
            && Grew(w.tracker, w'.tracker)
            && (reply.Success? ==>
                  w'.log.writes == w.log.writes +
                    [Write(firstResets, w'.tracker.resets, c.snapshot.revision, w'.tracker.revision)] &&
                  c.snapshot.revision < w'.tracker.revision)
            && (!reply.Success? ==> w'.log.writes == w.log.writes)
  {
    var w1 := Tick(w, BodyCall(c.operationId, w.log.epoch), a.bodyEvents);
    RevisionGrows(w.host, w.tracker, a.bodyEvents);
    if a.body.Raises? {
      RevisionGrows(w1.host, w1.tracker, a.abortEvents);
    } else {
      var w2 := Tick(w1, CommitCall(a.commit), a.commitEvents);
      RevisionGrows(w1.host, w1.tracker, a.commitEvents);
      if a.commit.Yes? {
        AfterCommitTracks(w2, c, undoLabel, a, firstResets);
        assert AfterStart(w, c, undoLabel, a, firstResets) == AfterCommit(w2, c, undoLabel, a, firstResets);
      } else {
        RevisionGrows(w2.host, w2.tracker, a.abortEvents);
      }
    }
  }

  lemma {:induction false} AfterCommitTracks(w: World, c: Context, undoLabel: string, a: Attempt, firstResets: nat)
    ensures var (w', reply) := AfterCommit(w, c, undoLabel, a, firstResets);
            && Grew(w.tracker, w'.tracker)
            && (reply.Success? ==>
                  w'.log.writes == w.log.writes +
                    [Write(firstResets, w'.tracker.resets, c.snapshot.revision, w'.tracker.revision)] &&
                  c.snapshot.revision < w'.tracker.revision)
            && (!reply.Success? ==> w'.log.writes == w.log.writes)
  {
  }

  lemma {:induction false} StepGrows(w: World, st: Step)
    ensures Grew(w.tracker, StepWorld(w, st).tracker)
  {
    if st.Request? {
      if Executes(w, st.op, st.payload, st.attempt) {
        ExecutedContext(w, st.op, st.payload, st.attempt);
        ExecuteTracks(Synced(w), Admitted(w, st.op, st.payload).value, st.op, st.attempt);
      } else {
        NotExecuted(w, st.op, st.payload, st.attempt);
      }
    }
  }

  lemma {:induction false} RunGrows(w: World, steps: seq<Step>)
    ensures Grew(w.tracker, Run(w, steps).tracker)
    decreases |steps|
  {
    if steps != [] {
      StepGrows(w, steps[0]);
      RunGrows(StepWorld(w, steps[0]), steps[1..]);
    }
  }

  // ---------- what was committed meanwhile ----------

  /** From w to w' the revision is accounted for by commits of the tracked model. */
  ghost predicate Moved(w: World, w': World) {
    Accounts(w.host, w.tracker, w'.host, w'.tracker)
  }

  lemma {:induction false} MovedOn(w: World, w1: World, w2: World)
    requires Moved(w, w1) && Moved(w1, w2)
    ensures Moved(w, w2)
  {
    AccountsTrans(w.host, w.tracker, w1.host, w1.tracker, w2.host, w2.tracker);
  }

  lemma {:induction false} TickMoved(w: World, w1: World, call: Call, events: seq<Event>)
    requires Moved(w, w1)
    ensures Moved(w, Tick(w1, call, events))
  {
    RunAccounts(w1.host, w1.tracker, events);
    MovedOn(w, w1, Tick(w1, call, events));
  }

  lemma {:induction false} CaptureMoved(w: World, w1: World)
    requires Moved(w, w1)
    ensures Moved(w, CaptureWorld(w1))
  {
    CaptureAccounts(w1.host, w1.tracker);
    MovedOn(w, w1, CaptureWorld(w1));
  }

  lemma {:induction false} AfterStartMoved(w: World, w1: World, c: Context, undoLabel: string, a: Attempt, firstResets: nat)
    requires Moved(w, w1)
    ensures Moved(w, AfterStart(w1, c, undoLabel, a, firstResets).0)
  {
    var w2 := Tick(w1, BodyCall(c.operationId, w1.log.epoch), a.bodyEvents);
    TickMoved(w, w1, BodyCall(c.operationId, w1.log.epoch), a.bodyEvents);
    TickMoved(w, w2, AbortCall, a.abortEvents);
    var w3 := Tick(w2, CommitCall(a.commit), a.commitEvents);
    TickMoved(w, w2, CommitCall(a.commit), a.commitEvents);
    TickMoved(w, w3, AbortCall, a.abortEvents);
    CaptureMoved(w, w3);
  }

  lemma {:induction false} PerformMoved(w: World, c: Context, undoLabel: string, a: Attempt)
    ensures Moved(w, Perform(w, c, undoLabel, a).0)
  {
    var w0 := MarkRunning(w, c);
    TickMoved(w, w0, StartCall(a.start), a.startEvents);
    if a.start.Yes? { AfterStartMoved(w, Tick(w0, StartCall(a.start), a.startEvents), c, undoLabel, a, w.tracker.resets); }
  }

  lemma {:induction false} BodyMoved(w: World, c: Context, a: Attempt)
    ensures var w1 := Tick(MarkRunning(w, c), BodyCall(c.operationId, w.log.epoch), a.bodyEvents);
            Moved(w, w1) && Moved(w, CaptureWorld(w1))
  {
    TickMoved(w, MarkRunning(w, c), BodyCall(c.operationId, w.log.epoch), a.bodyEvents);
    CaptureMoved(w, Tick(MarkRunning(w, c), BodyCall(c.operationId, w.log.epoch), a.bodyEvents));
  }

  lemma {:induction false} ExecuteMoved(w: World, c: Context, op: Operation, a: Attempt)
    ensures Moved(w, Execute(w, c, op, a).0)
  {
    BodyMoved(w, c, a);
    if op.kind.Modelling? { PerformMoved(w, c, op.undoLabel, a); }
  }

  lemma {:induction false} StepMoved(w: World, st: Step)
    ensures Moved(w, StepWorld(w, st))
  {
    CaptureMoved(w, w);
    match st
    case Request(op, payload, a) =>
      if Executes(w, op, payload, a) {
        var c := Admitted(w, op, payload).value;
        ExecutedContext(w, op, payload, a);
        ExecuteMoved(Synced(w), c, op, a);
        MovedOn(w, Synced(w), Execute(Synced(w), c, op, a).0);
      } else {
        NotExecuted(w, op, payload, a);
      }
    case Observe =>
    case Outside(e) => EventAccounts(w.host, w.tracker, e);
  }

  /** In every run the revision is accounted for by what was committed to the tracked model. */
  lemma {:induction false} RunMoved(w: World, steps: seq<Step>)
    ensures Moved(w, Run(w, steps))
    decreases |steps|
  {
    if steps != [] {
      StepMoved(w, steps[0]);
      RunMoved(StepWorld(w, steps[0]), steps[1..]);
      MovedOn(w, StepWorld(w, steps[0]), Run(w, steps));
    }
  }

  lemma {:induction false} RunMovedSynced(w: World, steps: seq<Step>)
    ensures Moved(w, Synced(Run(w, steps)))
  {
    RunMoved(w, steps);
    CaptureMoved(w, Run(w, steps));
  }

  /**
   A caller that read the revision at w and is admitted with it after any run: unless the
   count restarted in between, no callback of the tracked model arrived, no write succeeded,
   and the caller sees the snapshot it asked for. Above revision 0 the converse holds as well.
   */
  lemma {:induction false} AdmittedSeesUnchanged(w: World, steps: seq<Step>, op: Operation, payload: Json)
    requires Captured(w.host, w.tracker) == w.tracker
    requires Admitted(Run(w, steps), op, payload).Some?
    requires Parse(op, payload).arguments.revision == w.tracker.revision
    ensures var t := Synced(Run(w, steps)).tracker;
            && (t.resets == w.tracker.resets ==>
                  && t.callbacks == w.tracker.callbacks
                  && Admitted(Run(w, steps), op, payload).value.snapshot == Seen(w.host, w.tracker)
                  && Run(w, steps).log.writes == w.log.writes)
            && (w.tracker.revision > 0 ==> (t.resets == w.tracker.resets <==> t.callbacks == w.tracker.callbacks))
  {
    var w' := Run(w, steps);
    RunGrows(w, steps);
    CaptureAgrees(w'.host, w'.tracker);
    CaptureAgrees(w.host, w.tracker);
    if Synced(w').tracker.resets == w.tracker.resets { RunWrites(w, steps); }
  }

  /**
   What this says about the model itself. If the observer sits on the model the request is
   admitted on, then without a restart nothing was committed to it since the revision was
   read; and above revision 0 an untouched model is exactly one whose count was not restarted.
   */
  lemma {:induction false} AdmittedOnUntouchedModel(w: World, steps: seq<Step>, op: Operation, payload: Json)
    requires Captured(w.host, w.tracker) == w.tracker
    requires Admitted(Run(w, steps), op, payload).Some?
    requires Parse(op, payload).arguments.revision == w.tracker.revision
    requires Synced(Run(w, steps)).tracker.model == Some(Run(w, steps).host.active)
    ensures var w' := Run(w, steps);
            var untouched := w'.host.CommitsOf(w'.host.active) == w.host.CommitsOf(w'.host.active);
            var t := Synced(w').tracker;
            && Admitted(w', op, payload).value.model == w'.host.active
            && (t.resets == w.tracker.resets ==> untouched && w.tracker.model == Some(w'.host.active))
            && (w.tracker.revision > 0 ==> (t.resets == w.tracker.resets <==> untouched))
  {
    var w' := Run(w, steps);
    RunMovedSynced(w, steps);
    AdmittedRevision(w', op, payload);
    assert w'.host.CommitsOf(w'.host.active) >= w.host.CommitsOf(w'.host.active);
  }

  lemma {:induction false} AdmittedRevision(w: World, op: Operation, payload: Json)
    requires Admitted(w, op, payload).Some?
    ensures Admitted(w, op, payload).value.model == w.host.active
    ensures Parse(op, payload).Good? && Parse(op, payload).arguments.revision == Synced(w).tracker.revision
  {
    AdmittedIff(w, op, payload);
  }

  lemma {:induction false} StepWrites(w: World, st: Step)
    ensures |StepWorld(w, st).log.writes| >= |w.log.writes|
    ensures StepWorld(w, st).log.writes != w.log.writes ==>
              var w' := StepWorld(w, st);
              var first := Synced(w).tracker;
              && w'.log.writes == w.log.writes + [Write(first.resets, w'.tracker.resets, first.revision, w'.tracker.revision)]
              && first.revision < w'.tracker.revision
              && Grew(w.tracker, first) && Grew(first, w'.tracker)
  {
    if st.Request? {
      if Executes(w, st.op, st.payload, st.attempt) {
        ExecutedContext(w, st.op, st.payload, st.attempt);
        ExecuteTracks(Synced(w), Admitted(w, st.op, st.payload).value, st.op, st.attempt);
      } else {
        NotExecuted(w, st.op, st.payload, st.attempt);
      }
    }
  }

  lemma {:induction false} RunWrites(w: World, steps: seq<Step>)
    requires Run(w, steps).tracker.resets == w.tracker.resets
    requires Run(w, steps).tracker.revision == w.tracker.revision
    ensures Run(w, steps).log.writes == w.log.writes
    decreases |steps|
  {
    if steps != [] {
      var w1 := StepWorld(w, steps[0]);
      StepGrows(w, steps[0]);
      RunGrows(w1, steps[1..]);
      StepWrites(w, steps[0]);
      RunWrites(w1, steps[1..]);
    }
  }

  /** A write whose execution saw no restart of the count. */
  predicate Plain(x: Write) {
    x.firstResets == x.lastResets
  }

  ghost predicate Serialised(writes: seq<Write>) {
    && (forall i :: 0 <= i < |writes| ==> writes[i].expected < writes[i].returned)
    && (forall i, j :: (0 <= i < j < |writes| && Plain(writes[i]) && Plain(writes[j]) &&
                        writes[i].lastResets == writes[j].lastResets) ==>
          writes[i].returned <= writes[j].expected)
  }

  ghost predicate WriteInv(w: World) {
    && Serialised(w.log.writes)
    && forall i :: 0 <= i < |w.log.writes| ==>
         w.log.writes[i].lastResets <= w.tracker.resets &&
         (w.log.writes[i].lastResets == w.tracker.resets ==> w.log.writes[i].returned <= w.tracker.revision)
  }

  lemma {:induction false} RunKeepsWriteInv(w: World, steps: seq<Step>)
    requires WriteInv(w)
    ensures WriteInv(Run(w, steps))
    decreases |steps|
  {
    if steps != [] {
      StepGrows(w, steps[0]);
      StepWrites(w, steps[0]);
      RunKeepsWriteInv(StepWorld(w, steps[0]), steps[1..]);
    }
  }

  /**
   Serialised writes. In every run, the successful model mutations and undos executed
   between two restarts of the count own disjoint, increasing revision intervals
   (expected, returned]; in particular no two succeed against the same revision.
   */
  lemma {:induction false} WritesSerialised(w: World, steps: seq<Step>)
    requires Initial(w)
    ensures Serialised(Run(w, steps).log.writes)
  {
    RunKeepsWriteInv(w, steps);
  }
}
