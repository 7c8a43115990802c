/**
 The mutation engine: one request against the replay cache, the revision tracker and the
 SketchUp transaction API. The host's answers and everything that happens while it is
 called are chosen by the environment (Attempt), so every exit of every handler exists.
 */
module Mutations {
  import opened Basics
  import opened Json
  import opened Tracking
  import Fingerprint

  type Digest = Fingerprint.Digest

  datatype Reply =
    | Success(payload: seq<Field>)
    | Failure(code: string, message: string, details: seq<Field>)

  // ---------- the operations ----------

  datatype Kind = Modelling | Undoing | ModelFile | LayoutFile

  /** What one handler of the engine passes to prepare_request and to its execution. */
  datatype Operation = Operation(name: string, keys: set<string>, undoLabel: string, kind: Kind)

  // ---------- environment choices for one handler ----------

  /** The answer of start_operation or commit_operation. */
  datatype Answer = Yes | No | Raised(reason: string)

  /** A block of engine code that either finishes or raises. */
  datatype Outcome = Returns(payload: seq<Field>) | Raises(reason: string)

  datatype Attempt = Attempt(
    check: Option<Reply>,             // a precondition failure found before the operation begins
    start: Answer, startEvents: seq<Event>,
    body: Outcome, bodyEvents: seq<Event>,
    commit: Answer, commitEvents: seq<Event>,
    abortEvents: seq<Event>,
    builder: Outcome)                 // the result builder run on the post snapshot

  // ---------- state ----------

  datatype Record =
    | Running(digest: Digest)
    | Completed(digest: Digest, reply: Reply)
    | Failed(digest: Digest, reply: Reply)

  datatype Call =
    | StartCall(answer: Answer)
    | BodyCall(operationId: string, epoch: nat)
    | CommitCall(answer: Answer)
    | AbortCall

  /** A freshly executed write that was reported as successful. */
  datatype Write = Write(firstResets: nat, lastResets: nat, expected: nat, returned: nat)

  /** `epoch` counts how often the replay cache was cleared. */
  datatype Log = Log(epoch: nat, calls: seq<Call>, writes: seq<Write>)

  datatype World = World(
    host: Host, tracker: Tracker,
    cacheGuid: Option<Guid>, records: map<string, Record>,
    log: Log)

  datatype Context = Context(model: ModelId, snapshot: Snapshot, operationId: string, digest: Digest)

  datatype Prepared = Proceed(context: Context) | Respond(reply: Reply)

  ghost predicate Initial(w: World) {
    w.cacheGuid == None && w.records == map[] && w.log == Log(0, [], [])
  }

  // ---------- request validation ----------

  /** String#strip leaves nothing. */
  predicate Blank(s: string) {
    forall c :: c in s ==> c in {'\0', '\t', '\n', '\U{0B}', '\U{0C}', '\r', ' '}
  }

  function CharBytes(c: char): nat {
    var code := c as int;
    if code < 0x80 then 1 else if code < 0x800 then 2 else if code < 0x10000 then 3 else 4
  }

  /** String#bytesize of the UTF-8 text. */
  function ByteSize(s: string): nat {
    if s == [] then 0 else CharBytes(s[0]) + ByteSize(s[1..])
  }

  function Invalid(message: string): Reply {
    Failure("INVALID_REQUEST", message, [])
  }

  const MUTATION_KEYS := {"operation_id", "expected_model_guid", "expected_revision", "undo_label"}

  datatype Arguments = Arguments(fields: seq<Field>, operationId: string, guid: Guid, revision: nat)

  datatype Parsed = Good(arguments: Arguments) | Bad(reply: Reply)

  function ParseEnvelope(op: Operation, fields: seq<Field>, m: seq<Field>): Parsed {
    match Get(m, "operation_id")
    case Some(Str(id)) =>
      if Blank(id) || ByteSize(id) > 128 then Bad(Invalid("operation_id"))
      else (
        match Get(m, "expected_model_guid")
        case Some(Str(guid)) =>
          if guid == "" then Bad(Invalid("expected_model_guid"))
          else (
            match Get(m, "expected_revision")
            case Some(Int(n)) =>
              if n < 0 then Bad(Invalid("expected_revision"))
              else if Get(m, "undo_label") != Some(Str(op.undoLabel)) then Bad(Invalid("undo_label"))
              else Good(Arguments(fields, id, guid, n))
            case _ => Bad(Invalid("expected_revision")))
        case _ => Bad(Invalid("expected_model_guid")))
    case _ => Bad(Invalid("operation_id"))
  }

  function Parse(op: Operation, payload: Json): Parsed {
    if !payload.Obj? then Bad(Invalid("payload"))
    else if Keys(payload.fields) != op.keys then Bad(Invalid("payload fields"))
    else
      match Get(payload.fields, "mutation")
      case Some(Obj(m)) =>
        if Keys(m) != MUTATION_KEYS then Bad(Invalid("mutation fields"))
        else ParseEnvelope(op, payload.fields, m)
      case _ => Bad(Invalid("mutation fields"))
  }

  // ---------- specification of the handlers ----------

  function CaptureWorld(w: World): World {
    w.(tracker := Captured(w.host, w.tracker))
  }

  function SyncEpoch(w: World, guid: Guid): World {
    if w.cacheGuid == Some(guid) then w
    else w.(cacheGuid := Some(guid), records := map[], log := w.log.(epoch := w.log.epoch + 1))
  }

  function Tick(w: World, call: Call, events: seq<Event>): World {
    w.(log := w.log.(calls := w.log.calls + [call]),
       host := HostRun(w.host, events),
       tracker := TrackerRun(w.host, w.tracker, events))
  }

  function MarkRunning(w: World, c: Context): World {
    w.(records := w.records[c.operationId := Running(c.digest)])
  }

  function Fail(w: World, c: Context, reply: Reply): (World, Reply) {
    (w.(records := w.records[c.operationId := Failed(c.digest, reply)]), reply)
  }

  function Complete(w: World, c: Context, reply: Reply): (World, Reply) {
    (w.(records := w.records[c.operationId := Completed(c.digest, reply)]), reply)
  }

  function LogWrite(w: World, c: Context, firstResets: nat): World {
    w.(log := w.log.(writes := w.log.writes +
                     [Write(firstResets, w.tracker.resets, c.snapshot.revision, w.tracker.revision)]))
  }

  /** Hash#merge of the builder's fields over the three identity fields. */
  function Merge(base: seq<Field>, more: seq<Field>): seq<Field>
    decreases |more|
  {
    if more == [] then base
    else Merge(Fingerprint.SetKey(base, more[0].key, more[0].value), more[1..])
  }

  function SuccessReply(c: Context, s: Snapshot, payload: seq<Field>): Reply {
    Success(Merge([Field("operation_id", Str(c.operationId)), Field("model_guid", Str(s.guid)),
                   Field("revision", Int(s.revision))], payload))
  }

  function OperationFailure(operation: string, reason: string): Reply {
    Failure("SKETCHUP_OPERATION_FAILED", "SketchUp operation failed",
            [Field("operation", Str(operation))] + if reason == "" then [] else [Field("reason", Str(reason))])
  }

  predicate Advanced(before: Snapshot, after: Snapshot) {
    before.guid == after.guid && after.revision > before.revision
  }

  function Lookup(w: World, args: Arguments, s: Snapshot, digest: Digest): Prepared {
    if args.operationId in w.records then
      var existing := w.records[args.operationId];
      if existing.digest != digest then
        Respond(Failure("OPERATION_ID_REUSE", "operation_id was already used with different parameters",
                        [Field("operation_id", Str(args.operationId))]))
      else if existing.Running? then
        Respond(Failure("OPERATION_IN_PROGRESS", "operation with this operation_id is still in progress",
                        [Field("operation_id", Str(args.operationId))]))
      else Respond(existing.reply)
    else if args.revision != s.revision then
      Respond(Failure("STALE_REVISION", "model revision changed; refresh context before mutating",
                      [Field("expected_revision", Int(args.revision)), Field("actual_revision", Int(s.revision))]))
    else Proceed(Context(w.host.active, s, args.operationId, digest))
  }

  function Prepare(w: World, op: Operation, payload: Json): (World, Prepared) {
    match Parse(op, payload)
    case Bad(reply) => (w, Respond(reply))
    case Good(args) =>
      var s := Seen(w.host, w.tracker);
      var w' := SyncEpoch(CaptureWorld(w), s.guid);
      if args.guid != s.guid then
        (w', Respond(Failure("MODEL_CHANGED", "expected model identity no longer matches the active model",
                             [Field("expected_model_guid", Str(args.guid)), Field("current_model_guid", Str(s.guid)),
                              Field("current_revision", Int(s.revision))])))
      else (w', Lookup(w', args, s, Fingerprint.Of(op.name, args.fields)))
  }

  function AfterCommit(w: World, c: Context, undoLabel: string, a: Attempt, firstResets: nat): (World, Reply) {
    var s := Seen(w.host, w.tracker);
    var w' := CaptureWorld(w);
    if !Advanced(c.snapshot, s) then
      Fail(w', c, Failure("SKETCHUP_OPERATION_FAILED", "mutation committed but model revision did not advance",
                          [Field("operation", Str(undoLabel))]))
    else
      match a.builder
      case Raises(reason) => Fail(w', c, OperationFailure(undoLabel, reason))
      case Returns(payload) => Complete(LogWrite(w', c, firstResets), c, SuccessReply(c, s, payload))
  }

  function AfterStart(w: World, c: Context, undoLabel: string, a: Attempt, firstResets: nat): (World, Reply) {
    var w1 := Tick(w, BodyCall(c.operationId, w.log.epoch), a.bodyEvents);
    match a.body
    case Raises(reason) => Fail(Tick(w1, AbortCall, a.abortEvents), c, OperationFailure(undoLabel, reason))
    case Returns(_) =>
      var w2 := Tick(w1, CommitCall(a.commit), a.commitEvents);
      match a.commit
      case No => Fail(Tick(w2, AbortCall, a.abortEvents), c,
                      OperationFailure(undoLabel, "SketchUp refused to commit the operation"))
      case Raised(reason) => Fail(Tick(w2, AbortCall, a.abortEvents), c, OperationFailure(undoLabel, reason))
      case Yes => AfterCommit(w2, c, undoLabel, a, firstResets)
  }

  function Perform(w: World, c: Context, undoLabel: string, a: Attempt): (World, Reply) {
    var w1 := Tick(MarkRunning(w, c), StartCall(a.start), a.startEvents);
    match a.start
    case Raised(reason) => Fail(w1, c, OperationFailure(undoLabel, reason))
    case No => Fail(w1, c, OperationFailure(undoLabel, "SketchUp refused to start the operation"))
    case Yes => AfterStart(w1, c, undoLabel, a, w.tracker.resets)
  }

  function PerformUndo(w: World, c: Context, a: Attempt): (World, Reply) {
    var w1 := Tick(MarkRunning(w, c), BodyCall(c.operationId, w.log.epoch), a.bodyEvents);
    match a.body
    case Raises(reason) => Fail(w1, c, OperationFailure("changes.undo", reason))
    case Returns(_) =>
      var s := Seen(w1.host, w1.tracker);
      var w2 := CaptureWorld(w1);
      if !Advanced(c.snapshot, s) then
        Fail(w2, c, Failure("SKETCHUP_OPERATION_FAILED", "undo did not change the model revision",
                            [Field("operation", Str("changes.undo"))]))
      else Complete(LogWrite(w2, c, w.tracker.resets), c, SuccessReply(c, s, []))
  }

  function FileFailure(kind: Kind, name: string, reason: string): Reply {
    if kind.LayoutFile? then
      Failure("LAYOUT_OPERATION_FAILED", "LayOut operation failed",
              [Field("operation", Str(name)), Field("reason", Str(reason))])
    else
      Failure("SKETCHUP_OPERATION_FAILED", "SketchUp file operation failed",
              [Field("operation", Str(name)), Field("reason", Str(reason))])
  }

  function FileStale(kind: Kind, name: string, expected: nat, actual: nat): Reply {
    Failure("STALE_REVISION",
            if kind.LayoutFile? then "SketchUp model changed during LayOut operation"
            else "SketchUp model changed during file operation",
            [Field("operation", Str(name)), Field("expected_revision", Int(expected)),
             Field("actual_revision", Int(actual))])
  }

  function PerformFile(w: World, c: Context, kind: Kind, name: string, a: Attempt): (World, Reply) {
    var w1 := Tick(MarkRunning(w, c), BodyCall(c.operationId, w.log.epoch), a.bodyEvents);
    match a.body
    case Raises(reason) => Fail(w1, c, FileFailure(kind, name, reason))
    case Returns(payload) =>
      var s := Seen(w1.host, w1.tracker);
      var w2 := CaptureWorld(w1);
      if s != c.snapshot then Fail(w2, c, FileStale(kind, name, c.snapshot.revision, s.revision))
      else Complete(w2, c, SuccessReply(c, s, payload))
  }

  function Execute(w: World, c: Context, op: Operation, a: Attempt): (World, Reply) {
    match op.kind
    case Modelling => Perform(w, c, op.undoLabel, a)
    case Undoing => PerformUndo(w, c, a)
    case _ => PerformFile(w, c, op.kind, op.name, a)
  }

  /** One mutation command, from the parsed payload to the reply. */
  function Handle(w: World, op: Operation, payload: Json, a: Attempt): (World, Reply) {
    var (w', prepared) := Prepare(w, op, payload);
    match prepared
    case Respond(reply) => (w', reply)
    case Proceed(c) =>
      if a.check.Some? && !op.kind.Undoing? then (w', a.check.value)
      else Execute(w', c, op, a)
  }
}
