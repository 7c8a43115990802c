/** The mutation engine object, proved against the functions of Mutations. */
module Engine {
  import opened Basics
  import opened Json
  import opened Tracking
  import opened Mutations
  import Fingerprint

  class MutationEngine {
    const modelState: ModelState
    var cacheModelGuid: Option<Guid>
    var records: map<string, Record>
    ghost var log: Log

    ghost function View(): World
      reads this, modelState, modelState.app
    {
      World(modelState.app.View(), modelState.View(), cacheModelGuid, records, log)
    }

    constructor (modelState: ModelState)
      ensures this.modelState == modelState
      ensures View() == World(modelState.app.View(), modelState.View(), None, map[], Log(0, [], []))
      ensures Initial(View())
    {
      this.modelState := modelState;
      cacheModelGuid, records, log := None, map[], Log(0, [], []);
    }

    method SyncCacheEpoch(guid: Guid)
      modifies this
      ensures View() == SyncEpoch(old(View()), guid)
    {
      if cacheModelGuid == Some(guid) { return; }
      cacheModelGuid := Some(guid);
      records := map[];
      log := log.(epoch := log.epoch + 1);
    }

    method MarkRunning(c: Context)
      modifies this
      ensures View() == Mutations.MarkRunning(old(View()), c)
    {
      records := records[c.operationId := Running(c.digest)];
    }

    method RecordFailed(c: Context, reply: Reply)
      modifies this
      ensures (View(), reply) == Fail(old(View()), c, reply)
    {
      records := records[c.operationId := Failed(c.digest, reply)];
    }

    method RecordCompleted(c: Context, reply: Reply)
      modifies this
      ensures (View(), reply) == Complete(old(View()), c, reply)
    {
      records := records[c.operationId := Completed(c.digest, reply)];
    }

    /** A call into SketchUp: it is logged, and the host's callbacks run before it returns. */
    method CallHost(ghost call: Call, events: seq<Event>)
      modifies this, modelState, modelState.app
      ensures View() == Tick(old(View()), call, events)
    {
      log := log.(calls := log.calls + [call]);
      modelState.Deliver(events);
    }

    method PrepareRequest(op: Operation, payload: Json) returns (prepared: Prepared)
      modifies this, modelState
      ensures (View(), prepared) == Prepare(old(View()), op, payload)
    {
      var parsed := Parse(op, payload);
      if parsed.Bad? { return Respond(parsed.reply); }
      var args := parsed.arguments;
      var m, s := modelState.Capture();
      SyncCacheEpoch(s.guid);
      if args.guid != s.guid {
        return Respond(Failure("MODEL_CHANGED", "expected model identity no longer matches the active model",
                               [Field("expected_model_guid", Str(args.guid)), Field("current_model_guid", Str(s.guid)),
                                Field("current_revision", Int(s.revision))]));
      }
      var digest := Fingerprint.Of(op.name, args.fields);
      if args.operationId in records {
        var existing := records[args.operationId];
        if existing.digest != digest {
          return Respond(Failure("OPERATION_ID_REUSE", "operation_id was already used with different parameters",
                                 [Field("operation_id", Str(args.operationId))]));
        }
        match existing {
          case Running(_) =>
            return Respond(Failure("OPERATION_IN_PROGRESS", "operation with this operation_id is still in progress",
                                   [Field("operation_id", Str(args.operationId))]));
          case Completed(_, reply) => return Respond(reply);
          case Failed(_, reply) => return Respond(reply);
        }
      }
      if args.revision != s.revision {
        return Respond(Failure("STALE_REVISION", "model revision changed; refresh context before mutating",
                               [Field("expected_revision", Int(args.revision)), Field("actual_revision", Int(s.revision))]));
      }
      prepared := Proceed(Context(m, s, args.operationId, digest));
    }

    /** What follows a successful commit; the failure is an exception of the result builder. */
    method ReportCommitted(c: Context, undoLabel: string, a: Attempt, ghost firstResets: nat)
      returns (failure: Option<string>, reply: Reply)
      modifies this, modelState
      ensures failure.None? ==> (View(), reply) == AfterCommit(old(View()), c, undoLabel, a, firstResets)
      ensures failure.Some? ==>
                && a.builder == Raises(failure.value) && View() == CaptureWorld(old(View()))
                && Advanced(c.snapshot, Seen(old(View()).host, old(View()).tracker))
    {
      var _, s := modelState.Capture();
      if !Advanced(c.snapshot, s) {
        reply := Failure("SKETCHUP_OPERATION_FAILED", "mutation committed but model revision did not advance",
                         [Field("operation", Str(undoLabel))]);
        RecordFailed(c, reply);
        return None, reply;
      }
      match a.builder {
        case Raises(reason) => return Some(reason), Failure("", reason, []);
        case Returns(payload) =>
          reply := SuccessReply(c, s, payload);
          log := LogWrite(View(), c, firstResets).log;
          RecordCompleted(c, reply);
          return None, reply;
      }
    }

    /** perform_operation: `failure` is the exception in flight, `started` what its rescue clause consults. */
    method PerformOperation(c: Context, undoLabel: string, a: Attempt) returns (reply: Reply)
      modifies this, modelState, modelState.app
      ensures (View(), reply) == Perform(old(View()), c, undoLabel, a)
    {
      ghost var firstResets := modelState.resets;
      MarkRunning(c);
      var started := false;
      var failure: Option<string> := None;
      CallHost(StartCall(a.start), a.startEvents);
      match a.start {
        case Raised(reason) => failure := Some(reason);
        case No => failure := Some("SketchUp refused to start the operation");
        case Yes => started := true;
      }
      if failure.None? {
        CallHost(BodyCall(c.operationId, log.epoch), a.bodyEvents);
        if a.body.Raises? { failure := Some(a.body.reason); }
      }
      if failure.None? {
        CallHost(CommitCall(a.commit), a.commitEvents);
        match a.commit {
          case Raised(reason) => failure := Some(reason);
          case No => failure := Some("SketchUp refused to commit the operation");
          case Yes => started := false;
        }
      }
      if failure.None? {
        failure, reply := ReportCommitted(c, undoLabel, a, firstResets);
        if failure.None? { return; }
      }
      if started { CallHost(AbortCall, a.abortEvents); }
      reply := OperationFailure(undoLabel, failure.value);
      RecordFailed(c, reply);
    }

    method Undo(c: Context, a: Attempt) returns (reply: Reply)
      modifies this, modelState, modelState.app
      ensures (View(), reply) == PerformUndo(old(View()), c, a)
    {
      ghost var firstResets := modelState.resets;
      MarkRunning(c);
      CallHost(BodyCall(c.operationId, log.epoch), a.bodyEvents);
      if a.body.Raises? {
        reply := OperationFailure("changes.undo", a.body.reason);
        RecordFailed(c, reply);
        return;
      }
      var _, s := modelState.Capture();
      if !Advanced(c.snapshot, s) {
        reply := Failure("SKETCHUP_OPERATION_FAILED", "undo did not change the model revision",
                         [Field("operation", Str("changes.undo"))]);
        RecordFailed(c, reply);
        return;
      }
      reply := SuccessReply(c, s, []);
      log := LogWrite(View(), c, firstResets).log;
      RecordCompleted(c, reply);
    }

    method PerformFileOperation(c: Context, kind: Kind, name: string, a: Attempt) returns (reply: Reply)
      modifies this, modelState, modelState.app
      ensures (View(), reply) == PerformFile(old(View()), c, kind, name, a)
    {
      MarkRunning(c);
      CallHost(BodyCall(c.operationId, log.epoch), a.bodyEvents);
      match a.body {
        case Raises(reason) =>
          reply := FileFailure(kind, name, reason);
          RecordFailed(c, reply);
        case Returns(payload) =>
          var _, s := modelState.Capture();
          if !(s.guid == c.snapshot.guid && s.revision == c.snapshot.revision) {
            reply := FileStale(kind, name, c.snapshot.revision, s.revision);
            RecordFailed(c, reply);
            return;
          }
          reply := SuccessReply(c, s, payload);
          RecordCompleted(c, reply);
      }
    }

    method Call(op: Operation, payload: Json, a: Attempt) returns (reply: Reply)
      modifies this, modelState, modelState.app
      ensures (View(), reply) == Handle(old(View()), op, payload, a)
    {
      var prepared := PrepareRequest(op, payload);
      if prepared.Respond? { return prepared.reply; }
      if a.check.Some? && !op.kind.Undoing? { return a.check.value; }
      match op.kind {
        case Modelling => reply := PerformOperation(prepared.context, op.undoLabel, a);
        case Undoing => reply := Undo(prepared.context, a);
        case _ => reply := PerformFileOperation(prepared.context, op.kind, op.name, a);
      }
    }
  }
}
