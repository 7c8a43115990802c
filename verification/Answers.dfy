/**
 What the caller of a mutation is told. A success is always the reply on a completed record of
 its operation_id, executed in this epoch; it names the revision the tracker stands at, which
 is the one the next write may expect; and every refusal says what stood in the way.
 */
module Answers {
  import opened Basics
  import opened Json
  import opened Tracking
  import opened Mutations
  import opened MutationRuns
  import opened MutationOutcomes
  import Fingerprint

  // ---------- fields of a reply ----------

  lemma {:induction false} GetSet(fs: seq<Field>, key: string, v: Json, k: string)
    ensures Get(Fingerprint.SetKey(fs, key, v), k) == if k == key then Some(v) else Get(fs, k)
  {
    if fs != [] && fs[0].key != key {
      GetSet(fs[1..], key, v, k);
      assert Fingerprint.SetKey(fs, key, v)[1..] == Fingerprint.SetKey(fs[1..], key, v);
    } else if fs != [] {
      assert Fingerprint.SetKey(fs, key, v)[1..] == fs[1..];
    }
  }

  lemma {:induction false} HeadKeyOnce(fs: seq<Field>)
    requires fs != [] && DistinctKeys(fs)
    ensures Get(fs[1..], fs[0].key) == None && DistinctKeys(fs[1..])
  {
    GetSound(fs[1..], fs[0].key);
    assert forall i :: 0 <= i < |fs[1..]| ==> fs[1..][i].key != fs[0].key;
  }

  /** Hash#merge: the later fields win, and nothing else is there. */
  lemma {:induction false} GetMerge(base: seq<Field>, more: seq<Field>, k: string)
    requires DistinctKeys(more)
    ensures Get(Merge(base, more), k) == if Get(more, k).Some? then Get(more, k) else Get(base, k)
    decreases |more|
  {
    if more != [] {
      HeadKeyOnce(more);
      GetSet(base, more[0].key, more[0].value, k);
      GetMerge(Fingerprint.SetKey(base, more[0].key, more[0].value), more[1..], k);
    }
  }

  // ---------- refusals ----------

  lemma {:induction false} BadIsInvalid(op: Operation, payload: Json)
    requires Parse(op, payload).Bad?
    ensures Parse(op, payload).reply.Failure? && Parse(op, payload).reply.code == "INVALID_REQUEST"
  {
  }

  /** The operation_id is on record in the epoch of this GUID. */
  predicate Known(w: World, id: string, guid: Guid) {
    w.cacheGuid == Some(guid) && id in w.records
  }

  /** A failure with this code, whose details hold these fields. */
  predicate Says(reply: Reply, code: string, details: seq<Field>) {
    && reply.Failure? && reply.code == code
    && forall i :: 0 <= i < |details| ==> Get(reply.details, details[i].key) == Some(details[i].value)
  }

  lemma {:induction false} SaysExactly(code: string, message: string, details: seq<Field>)
    requires DistinctKeys(details)
    ensures Says(Failure(code, message, details), code, details)
  {
    forall i | 0 <= i < |details| ensures Get(details, details[i].key) == Some(details[i].value) {
      GetFinds(details, i);
    }
  }

  /** What stands in the way of a well-formed request, in the order of the checks. */
  ghost predicate RefusedBy(w: World, op: Operation, args: Arguments, a: Attempt, reply: Reply) {
    var now := Seen(w.host, w.tracker);
    if args.guid != now.guid then
      Says(reply, "MODEL_CHANGED",
           [Field("expected_model_guid", Str(args.guid)), Field("current_model_guid", Str(now.guid)),
            Field("current_revision", Int(now.revision))])
    else if Known(w, args.operationId, args.guid) then
      var rec := w.records[args.operationId];
      if rec.digest != Fingerprint.Of(op.name, args.fields) then
        Says(reply, "OPERATION_ID_REUSE", [Field("operation_id", Str(args.operationId))])
      else if rec.Running? then Says(reply, "OPERATION_IN_PROGRESS", [Field("operation_id", Str(args.operationId))])
      else reply == rec.reply
    else if args.revision != now.revision then
      Says(reply, "STALE_REVISION",
           [Field("expected_revision", Int(args.revision)), Field("actual_revision", Int(now.revision))])
    else a.check == Some(reply)
  }

  lemma {:induction false} LookupTold(w: World, args: Arguments, s: Snapshot, digest: Digest)
    requires Lookup(w, args, s, digest).Respond?
    ensures var reply := Lookup(w, args, s, digest).reply;
            if args.operationId in w.records then
              var rec := w.records[args.operationId];
              if rec.digest != digest then Says(reply, "OPERATION_ID_REUSE", [Field("operation_id", Str(args.operationId))])
              else if rec.Running? then Says(reply, "OPERATION_IN_PROGRESS", [Field("operation_id", Str(args.operationId))])
              else reply == rec.reply
            else
              && args.revision != s.revision
              && Says(reply, "STALE_REVISION",
                      [Field("expected_revision", Int(args.revision)), Field("actual_revision", Int(s.revision))])
  {
    SaysExactly("OPERATION_ID_REUSE", "operation_id was already used with different parameters",
                [Field("operation_id", Str(args.operationId))]);
    SaysExactly("OPERATION_IN_PROGRESS", "operation with this operation_id is still in progress",
                [Field("operation_id", Str(args.operationId))]);
    SaysExactly("STALE_REVISION", "model revision changed; refresh context before mutating",
                [Field("expected_revision", Int(args.revision)), Field("actual_revision", Int(s.revision))]);
  }

  lemma {:induction false} ModelChangedTold(w: World, op: Operation, payload: Json)
    requires Parse(op, payload).Good? && Parse(op, payload).arguments.guid != Seen(w.host, w.tracker).guid
    ensures var args, now := Parse(op, payload).arguments, Seen(w.host, w.tracker);
            var (w', prepared) := Prepare(w, op, payload);
            && w' == Synced(w) && prepared.Respond?
            && Says(prepared.reply, "MODEL_CHANGED",
                    [Field("expected_model_guid", Str(args.guid)), Field("current_model_guid", Str(now.guid)),
                     Field("current_revision", Int(now.revision))])
  {
    var args, now := Parse(op, payload).arguments, Seen(w.host, w.tracker);
    SaysExactly("MODEL_CHANGED", "expected model identity no longer matches the active model",
                [Field("expected_model_guid", Str(args.guid)), Field("current_model_guid", Str(now.guid)),
                 Field("current_revision", Int(now.revision))]);
  }

  lemma {:induction false} RespondedTold(w: World, op: Operation, payload: Json, a: Attempt)
    requires Parse(op, payload).Good? && Prepare(w, op, payload).1.Respond?
    ensures Prepare(w, op, payload).0 == Synced(w)
    ensures RefusedBy(w, op, Parse(op, payload).arguments, a, Prepare(w, op, payload).1.reply)
  {
    var args, now := Parse(op, payload).arguments, Seen(w.host, w.tracker);
    if args.guid != now.guid {
      ModelChangedTold(w, op, payload);
    } else {
      LookupTold(Synced(w), args, now, Fingerprint.Of(op.name, args.fields));
    }
  }

  lemma {:induction false} ProceedsUnrefused(w: World, op: Operation, payload: Json, a: Attempt)
    requires Admitted(w, op, payload).Some? && a.check.Some?
    ensures Parse(op, payload).Good? && RefusedBy(w, op, Parse(op, payload).arguments, a, a.check.value)
  {
    AdmittedIff(w, op, payload);
  }

  /**
   What a request is told that is not executed; each answer leaves at most what capturing the
   model leaves.
   */
  lemma {:induction false} RefusalTold(w: World, op: Operation, payload: Json, a: Attempt)
    requires !Executes(w, op, payload, a)
    ensures var (w', reply) := Handle(w, op, payload, a);
            match Parse(op, payload)
            case Bad(_) => w' == w && Says(reply, "INVALID_REQUEST", [])
            case Good(args) => w' == Synced(w) && RefusedBy(w, op, args, a, reply)
  {
    if Parse(op, payload).Bad? {
      BadIsInvalid(op, payload);
    } else if Admitted(w, op, payload).None? {
      RespondedTold(w, op, payload, a);
    } else {
      ProceedsUnrefused(w, op, payload, a);
    }
  }

  // ---------- successes ----------

  /** Completed records hold successes whose body started in this epoch, failed ones hold failures, and none is running. */
  ghost predicate HonestRecord(w: World, id: string) {
    id in w.records ==>
      match w.records[id]
      case Running(_) => false
      case Completed(_, reply) => reply.Success? && BodyCall(id, w.log.epoch) in Bodies(w.log.calls)
      case Failed(_, reply) => reply.Failure?
  }

  ghost predicate Honest(w: World) {
    forall id :: HonestRecord(w, id)
  }

  /** An execution is on record as what it was answered with. */
  lemma {:induction false} ExecuteRecorded(w: World, c: Context, op: Operation, a: Attempt)
    ensures var (w', reply) := Execute(w, c, op, a);
            && c.operationId in w'.records
            && w'.records[c.operationId] == (if reply.Success? then Completed(c.digest, reply) else Failed(c.digest, reply))
            && (reply.Success? && op.kind.Modelling? ==> a.start.Yes?)
  {
    ExecuteExecuted(w, c, op, a);
    match op.kind
    case Modelling => PerformOutcome(w, c, op.undoLabel, a);
    case Undoing => UndoOutcome(w, c, a);
    case _ => FileOutcome(w, c, op.kind, op.name, a);
  }

  lemma {:induction false} ExecutedHonest(w: World, c: Context, w': World, reply: Reply, ran: bool)
    requires Honest(w) && Executed(w, c, w', reply, ran) && (reply.Success? ==> ran)
    requires w'.records[c.operationId] == if reply.Success? then Completed(c.digest, reply) else Failed(c.digest, reply)
    ensures Honest(w')
  {
    forall id ensures HonestRecord(w', id) {
      assert HonestRecord(w, id);
    }
  }

  lemma {:induction false} SyncedHonest(w: World)
    requires Honest(w)
    ensures Honest(Synced(w))
  {
    forall id ensures HonestRecord(Synced(w), id) {
      assert HonestRecord(w, id);
    }
  }

  lemma {:induction false} HandleHonest(w: World, op: Operation, payload: Json, a: Attempt)
    requires Honest(w)
    ensures Honest(Handle(w, op, payload, a).0)
  {
    SyncedHonest(w);
    if Executes(w, op, payload, a) {
      var c := Admitted(w, op, payload).value;
      ExecutedContext(w, op, payload, a);
      ExecuteExecuted(Synced(w), c, op, a);
      ExecuteRecorded(Synced(w), c, op, a);
      var (w', reply) := Execute(Synced(w), c, op, a);
      ExecutedHonest(Synced(w), c, w', reply, op.kind.Modelling? ==> a.start.Yes?);
    } else {
      NotExecuted(w, op, payload, a);
    }
  }

  lemma {:induction false} StepHonest(w: World, st: Step)
    requires Honest(w)
    ensures Honest(StepWorld(w, st))
  {
    if st.Request? {
      HandleHonest(w, st.op, st.payload, st.attempt);
    } else {
      forall id ensures HonestRecord(StepWorld(w, st), id) {
        assert HonestRecord(w, id);
      }
    }
  }

  lemma {:induction false} RunHonest(w: World, steps: seq<Step>)
    requires Honest(w)
    ensures Honest(Run(w, steps))
    decreases |steps|
  {
    if steps != [] {
      StepHonest(w, steps[0]);
      RunHonest(StepWorld(w, steps[0]), steps[1..]);
    }
  }

  /** This very request is on record as completed with this reply. */
  ghost predicate OnRecord(w: World, op: Operation, payload: Json, reply: Reply) {
    Parse(op, payload).Good? &&
    var args := Parse(op, payload).arguments;
    && args.operationId in w.records
    && w.records[args.operationId] == Completed(Fingerprint.Of(op.name, args.fields), reply)
  }

  lemma {:induction false} ExecutedOnRecord(w: World, op: Operation, payload: Json, a: Attempt)
    requires Executes(w, op, payload, a)
    ensures var (w', reply) := Handle(w, op, payload, a); reply.Success? ==> OnRecord(w', op, payload, reply)
  {
    var c := Admitted(w, op, payload).value;
    ExecutedContext(w, op, payload, a);
    ExecuteRecorded(Synced(w), c, op, a);
    AdmittedIff(w, op, payload);
  }

  lemma {:induction false} RefusedOnRecord(w: World, op: Operation, payload: Json, a: Attempt)
    requires !Executes(w, op, payload, a) && Honest(w) && (a.check.Some? ==> a.check.value.Failure?)
    ensures var (w', reply) := Handle(w, op, payload, a); reply.Success? ==> OnRecord(w', op, payload, reply)
  {
    RefusalTold(w, op, payload, a);
    if Parse(op, payload).Good? { assert HonestRecord(w, Parse(op, payload).arguments.operationId); }
  }

  /**
   A request is answered with a success exactly if afterwards it is on record as completed with
   this very reply, its body having started in this epoch.
   */
  lemma {:induction false} SuccessOnRecord(w: World, op: Operation, payload: Json, a: Attempt)
    requires Honest(w) && (a.check.Some? ==> a.check.value.Failure?)
    ensures var (w', reply) := Handle(w, op, payload, a);
            && (reply.Success? <==> OnRecord(w', op, payload, reply))
            && (reply.Success? ==>
                  BodyCall(Parse(op, payload).arguments.operationId, w'.log.epoch) in Bodies(w'.log.calls))
  {
    if Executes(w, op, payload, a) { ExecutedOnRecord(w, op, payload, a); } else { RefusedOnRecord(w, op, payload, a); }
    HandleHonest(w, op, payload, a);
    if Parse(op, payload).Good? {
      assert HonestRecord(Handle(w, op, payload, a).0, Parse(op, payload).arguments.operationId);
    }
  }

  /** So it is after every run: every success was executed in its epoch. */
  lemma {:induction false} SuccessWasExecuted(w: World, steps: seq<Step>, op: Operation, payload: Json, a: Attempt)
    requires Initial(w) && (a.check.Some? ==> a.check.value.Failure?)
    ensures var (w', reply) := Handle(Run(w, steps), op, payload, a);
            && (reply.Success? <==> OnRecord(w', op, payload, reply))
            && (reply.Success? ==>
                  BodyCall(Parse(op, payload).arguments.operationId, w'.log.epoch) in Bodies(w'.log.calls))
  {
    RunHonest(w, steps);
    SuccessOnRecord(Run(w, steps), op, payload, a);
  }

  // ---------- what a success says ----------

  /** The fields an execution adds of its own. */
  function Own(op: Operation, a: Attempt): seq<Field> {
    match op.kind
    case Modelling => if a.builder.Returns? then a.builder.payload else []
    case Undoing => []
    case _ => if a.body.Returns? then a.body.payload else []
  }

  /** The field has this value, unless the execution set it itself. */
  predicate Reports(payload: seq<Field>, own: seq<Field>, key: string, value: Json) {
    Get(own, key).None? ==> Get(payload, key) == Some(value)
  }

  lemma {:induction false} SuccessFields(c: Context, s: Snapshot, own: seq<Field>)
    requires DistinctKeys(own)
    ensures var payload := SuccessReply(c, s, own).payload;
            && (forall key :: Get(own, key).Some? ==> Get(payload, key) == Get(own, key))
            && Reports(payload, own, "operation_id", Str(c.operationId))
            && Reports(payload, own, "model_guid", Str(s.guid))
            && Reports(payload, own, "revision", Int(s.revision))
            && forall key :: Get(payload, key).Some? ==>
                 Get(own, key).Some? || key in {"operation_id", "model_guid", "revision"}
  {
    var base := [Field("operation_id", Str(c.operationId)), Field("model_guid", Str(s.guid)), Field("revision", Int(s.revision))];
    forall key ensures Get(Merge(base, own), key) == if Get(own, key).Some? then Get(own, key) else Get(base, key) {
      GetMerge(base, own, key);
    }
    GetFinds(base, 0);
    GetFinds(base, 1);
    GetFinds(base, 2);
    forall key | Get(base, key).Some? ensures key in {"operation_id", "model_guid", "revision"} {
      GetSound(base, key);
    }
  }

  /** The tracker has looked at the model that is active. */
  predicate Settled(w: World) {
    Captured(w.host, w.tracker) == w.tracker
  }

  lemma {:induction false} CaptureSettles(w: World)
    ensures Settled(CaptureWorld(w))
    ensures var s := Seen(w.host, w.tracker);
            s == Seen(CaptureWorld(w).host, CaptureWorld(w).tracker) && s.revision == CaptureWorld(w).tracker.revision
            && s.guid == w.host.GuidOf(w.host.active)
  {
    CaptureAgrees(w.host, w.tracker);
  }

  /** A success is built from what is seen when the handler returns, under the GUID it was admitted for. */
  ghost predicate BuiltFrom(c: Context, own: seq<Field>, w': World, reply: Reply) {
    && Settled(w')
    && var s := Seen(w'.host, w'.tracker);
       s.revision == w'.tracker.revision && s.guid == c.snapshot.guid && reply == SuccessReply(c, s, own)
  }

  lemma {:induction false} CommitBuilt(w: World, c: Context, undoLabel: string, a: Attempt, firstResets: nat)
    ensures var (w', reply) := AfterCommit(w, c, undoLabel, a, firstResets);
            reply.Success? ==> a.builder.Returns? && BuiltFrom(c, a.builder.payload, w', reply)
  {
    CaptureSettles(w);
  }

  lemma {:induction false} StartBuilt(w: World, c: Context, undoLabel: string, a: Attempt, firstResets: nat)
    ensures var (w', reply) := AfterStart(w, c, undoLabel, a, firstResets);
            reply.Success? ==> a.builder.Returns? && BuiltFrom(c, a.builder.payload, w', reply)
  {
    var w1 := Tick(w, BodyCall(c.operationId, w.log.epoch), a.bodyEvents);
    var w2 := Tick(w1, CommitCall(a.commit), a.commitEvents);
    CommitBuilt(w2, c, undoLabel, a, firstResets);
  }

  lemma {:induction false} UndoBuilt(w: World, c: Context, a: Attempt)
    ensures var (w', reply) := PerformUndo(w, c, a); reply.Success? ==> BuiltFrom(c, [], w', reply)
  {
    CaptureSettles(Tick(MarkRunning(w, c), BodyCall(c.operationId, w.log.epoch), a.bodyEvents));
  }

  lemma {:induction false} FileBuilt(w: World, c: Context, kind: Kind, name: string, a: Attempt)
    ensures var (w', reply) := PerformFile(w, c, kind, name, a);
            reply.Success? ==> a.body.Returns? && BuiltFrom(c, a.body.payload, w', reply)
  {
    CaptureSettles(Tick(MarkRunning(w, c), BodyCall(c.operationId, w.log.epoch), a.bodyEvents));
  }

  lemma {:induction false} ExecuteBuilt(w: World, c: Context, op: Operation, a: Attempt)
    ensures var (w', reply) := Execute(w, c, op, a); reply.Success? ==> BuiltFrom(c, Own(op, a), w', reply)
  {
    match op.kind
    case Modelling =>
      StartBuilt(Tick(MarkRunning(w, c), StartCall(a.start), a.startEvents), c, op.undoLabel, a, w.tracker.resets);
    case Undoing => UndoBuilt(w, c, a);
    case _ => FileBuilt(w, c, op.kind, op.name, a);
  }

  /** A new request that expects what the payload reports is admitted in w. */
  ghost predicate Continues(w: World, payload: seq<Field>, op: Operation, next: Json) {
    Parse(op, next).Good? &&
    (var args := Parse(op, next).arguments;
     && Get(payload, "model_guid") == Some(Str(args.guid)) && Get(payload, "revision") == Some(Int(args.revision))
     && args.operationId !in w.records)
    ==> Admitted(w, op, next).Some?
  }

  /**
   What the success of an execution says, of all three kinds: the request's operation_id, the
   GUID of the model that is active when the handler returns and the revision the tracker
   stands at, besides the fields of its own and no others. The revision is the one logged for
   a write; and a new request that expects the reported GUID and revision is admitted.
   */
  lemma {:induction false} SuccessTold(w: World, op: Operation, payload: Json, a: Attempt)
    requires Executes(w, op, payload, a) && DistinctKeys(Own(op, a)) && Handle(w, op, payload, a).1.Success?
    ensures var (w', reply) := Handle(w, op, payload, a);
            && (forall key :: Get(Own(op, a), key).Some? ==> Get(reply.payload, key) == Get(Own(op, a), key))
            && (forall key :: Get(reply.payload, key).Some? ==>
                  Get(Own(op, a), key).Some? || key in {"operation_id", "model_guid", "revision"})
            && Reports(reply.payload, Own(op, a), "operation_id", Str(Parse(op, payload).arguments.operationId))
            && Reports(reply.payload, Own(op, a), "model_guid", Str(w'.host.GuidOf(w'.host.active)))
            && Reports(reply.payload, Own(op, a), "revision", Int(w'.tracker.revision))
  {
    var c := Admitted(w, op, payload).value;
    ExecutedContext(w, op, payload, a);
    AdmittedIff(w, op, payload);
    ExecuteBuilt(Synced(w), c, op, a);
    var w' := Handle(w, op, payload, a).0;
    SuccessFields(c, Seen(w'.host, w'.tracker), Own(op, a));
  }

  /** The reported revision is the one the write is logged with. */
  lemma {:induction false} SuccessLogged(w: World, op: Operation, payload: Json, a: Attempt)
    requires Executes(w, op, payload, a) && DistinctKeys(Own(op, a)) && Handle(w, op, payload, a).1.Success?
    requires (op.kind.Modelling? || op.kind.Undoing?) && Get(Own(op, a), "revision").None?
    ensures var (w', reply) := Handle(w, op, payload, a);
            && |w'.log.writes| == |w.log.writes| + 1
            && Get(reply.payload, "revision") == Some(Int(w'.log.writes[|w.log.writes|].returned))
  {
    SuccessTold(w, op, payload, a);
    ExecutedContext(w, op, payload, a);
    ExecuteTracks(Synced(w), Admitted(w, op, payload).value, op, a);
  }

  /** The caller can go on with what it was told, as long as nobody else does anything. */
  lemma {:induction false} SuccessContinues(w: World, op: Operation, payload: Json, a: Attempt, op': Operation, next: Json)
    requires Executes(w, op, payload, a) && DistinctKeys(Own(op, a)) && Handle(w, op, payload, a).1.Success?
    requires Get(Own(op, a), "revision").None? && Get(Own(op, a), "model_guid").None?
    ensures var (w', reply) := Handle(w, op, payload, a); Continues(w', reply.payload, op', next)
  {
    var w' := Handle(w, op, payload, a).0;
    SuccessTold(w, op, payload, a);
    ExecutedContext(w, op, payload, a);
    ExecuteBuilt(Synced(w), Admitted(w, op, payload).value, op, a);
    AdmittedIff(w', op', next);
  }

  // ---------- what a failed execution says ----------

  /** The exception that ended the operation before its revision was compared. */
  function Interrupted(a: Attempt): Option<string> {
    match (a.start, a.body, a.commit)
    case (Raised(reason), _, _) => Some(reason)
    case (No, _, _) => Some("SketchUp refused to start the operation")
    case (Yes, Raises(reason), _) => Some(reason)
    case (Yes, Returns(_), Raised(reason)) => Some(reason)
    case (Yes, Returns(_), No) => Some("SketchUp refused to commit the operation")
    case (Yes, Returns(_), Yes) => None
  }

  /** The operation that failed, and the reason of its exception, if there was one that gave any. */
  ghost predicate BlamesOperation(reply: Reply, operation: string, reason: Option<string>) {
    && Says(reply, "SKETCHUP_OPERATION_FAILED", [Field("operation", Str(operation))])
    && Get(reply.details, "reason") == if reason.Some? && reason.value != "" then Some(Str(reason.value)) else None
  }

  lemma {:induction false} OperationFailureBlames(operation: string, reason: string)
    ensures BlamesOperation(OperationFailure(operation, reason), operation, Some(reason))
  {
    var details := OperationFailure(operation, reason).details;
    GetFinds(details, 0);
    if reason != "" { GetFinds(details, 1); } else { GetSound(details, "reason"); }
  }

  lemma {:induction false} UnseenBlames(operation: string, message: string)
    ensures BlamesOperation(Failure("SKETCHUP_OPERATION_FAILED", message, [Field("operation", Str(operation))]), operation, None)
  {
    GetSound([Field("operation", Str(operation))], "reason");
  }

  lemma {:induction false} CommitBlames(w: World, c: Context, undoLabel: string, a: Attempt, firstResets: nat)
    ensures var reply := AfterCommit(w, c, undoLabel, a, firstResets).1;
            reply.Failure? ==>
              BlamesOperation(reply, undoLabel,
                              if Advanced(c.snapshot, Seen(w.host, w.tracker)) && a.builder.Raises? then Some(a.builder.reason) else None)
  {
    UnseenBlames(undoLabel, "mutation committed but model revision did not advance");
    if a.builder.Raises? { OperationFailureBlames(undoLabel, a.builder.reason); }
  }

  lemma {:induction false} StartBlames(w: World, c: Context, undoLabel: string, a: Attempt, firstResets: nat)
    requires a.start.Yes? && Interrupted(a).Some?
    ensures BlamesOperation(AfterStart(w, c, undoLabel, a, firstResets).1, undoLabel, Interrupted(a))
  {
    OperationFailureBlames(undoLabel, Interrupted(a).value);
  }

  /** A mutation that failed: which operation, and the reason of the exception that ended it, the result builder's included. */
  lemma {:induction false} PerformFailureTold(w: World, c: Context, undoLabel: string, a: Attempt)
    ensures var reply := Perform(w, c, undoLabel, a).1;
            reply.Failure? ==>
              BlamesOperation(reply, undoLabel,
                              if Interrupted(a).Some? then Interrupted(a)
                              else if Advanced(c.snapshot, SnapshotAfter(w, CommitTrace(a))) && a.builder.Raises? then
                                Some(a.builder.reason)
                              else None)
  {
    var w1 := Tick(MarkRunning(w, c), StartCall(a.start), a.startEvents);
    if !a.start.Yes? {
      OperationFailureBlames(undoLabel, Interrupted(a).value);
    } else if Interrupted(a).Some? {
      StartBlames(w1, c, undoLabel, a, w.tracker.resets);
    } else {
      CommittedTold(w, c, undoLabel, a);
    }
  }

  lemma {:induction false} CommittedTold(w: World, c: Context, undoLabel: string, a: Attempt)
    requires Interrupted(a).None?
    ensures var reply := Perform(w, c, undoLabel, a).1;
            reply.Failure? ==>
              BlamesOperation(reply, undoLabel,
                              if Advanced(c.snapshot, SnapshotAfter(w, CommitTrace(a))) && a.builder.Raises? then
                                Some(a.builder.reason)
                              else None)
  {
    RunSplit(w.host, w.tracker, a.startEvents + a.bodyEvents, a.commitEvents);
    RunSplit(w.host, w.tracker, a.startEvents, a.bodyEvents);
    var w1 := Tick(MarkRunning(w, c), StartCall(a.start), a.startEvents);
    var w2 := Tick(w1, BodyCall(c.operationId, w1.log.epoch), a.bodyEvents);
    var w3 := Tick(w2, CommitCall(a.commit), a.commitEvents);
    assert Seen(w3.host, w3.tracker) == SnapshotAfter(w, CommitTrace(a));
    assert Perform(w, c, undoLabel, a) == AfterCommit(w3, c, undoLabel, a, w.tracker.resets);
    CommitBlames(w3, c, undoLabel, a, w.tracker.resets);
  }

  lemma {:induction false} UndoFailureTold(w: World, c: Context, a: Attempt)
    ensures var reply := PerformUndo(w, c, a).1;
            reply.Failure? ==> BlamesOperation(reply, "changes.undo", if a.body.Raises? then Some(a.body.reason) else None)
  {
    UnseenBlames("changes.undo", "undo did not change the model revision");
    if a.body.Raises? { OperationFailureBlames("changes.undo", a.body.reason); }
  }

  /** A file operation that failed: by an exception, under the code of its kind, or because the model moved under it. */
  lemma {:induction false} FileFailureTold(w: World, c: Context, kind: Kind, name: string, a: Attempt)
    ensures var reply := PerformFile(w, c, kind, name, a).1;
            reply.Failure? ==>
              if a.body.Raises? then
                Says(reply, if kind.LayoutFile? then "LAYOUT_OPERATION_FAILED" else "SKETCHUP_OPERATION_FAILED",
                     [Field("operation", Str(name)), Field("reason", Str(a.body.reason))])
              else
                Says(reply, "STALE_REVISION",
                     [Field("operation", Str(name)), Field("expected_revision", Int(c.snapshot.revision)),
                      Field("actual_revision", Int(SnapshotAfter(w, a.bodyEvents).revision))])
  {
    var reply := PerformFile(w, c, kind, name, a).1;
    if reply.Failure? {
      assert DistinctKeys(reply.details);
      SaysExactly(reply.code, reply.message, reply.details);
    }
  }
}
