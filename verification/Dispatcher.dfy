/** The main-thread dispatcher: one popped request to one response. */
module Dispatcher {
  import opened Basics
  import opened Json
  import opened Framing
  import opened Protocol
  import opened Bridge
  import opened ConnectionInvariants
  import opened ConnectionRuns
  import opened Mutations

  const MAX_PER_TICK := 8

  /**
   What the environment decides about one command: how the host behaves under a mutation,
   whether a read command captures the model, and what it answers (None: it raises).
   A mutation that raises before it begins to execute is one whose `check` answers INTERNAL.
   */
  datatype Play = Play(attempt: Attempt, captures: bool, answer: Option<Reply>)

  /** The world and the reply after a command; None is an exception. */
  datatype Ran = Ran(world: World, reply: Option<Reply>)

  function RunRouted(w: World, route: Option<Operation>, payload: Json, play: Play): Ran {
    match route
    case Some(op) =>
      var (w', reply) := Handle(w, op, payload, play.attempt);
      Ran(w', Some(reply))
    case None => Ran(if play.captures then CaptureWorld(w) else w, play.answer)
  }

  /** Which operation of the engine a command name selects, if any: Commands.Route in the product. */
  type Routes = string -> Option<Operation>

  /** Registry#call */
  function RunCommand(routes: Routes, w: World, operation: string, payload: Json, play: Play): Ran {
    RunRouted(w, routes(operation), payload, play)
  }

  function ReplyResponse(id: string, reply: Reply): Json {
    match reply
    case Success(payload) => SuccessResponse(id, payload)
    case Failure(code, message, details) => ErrorResponse(id, code, message, details)
  }

  function TimeoutResponse(id: string): Json {
    ErrorResponse(id, "TIMEOUT", "request timed out before main-thread execution", [])
  }

  /** The rescue clause of process; the flag is an exception that escapes it. */
  function Rescue(codec: Codec, c: Conn, id: string, clock: Millis): (Conn, bool) {
    if c.closed then (c, false) else Enqueue(codec, c, InternalError(id), true, clock)
  }

  /** Push the response into the sink; pushing may raise as well. None stands for a command that raised. */
  function Answer(codec: Codec, c: Conn, id: string, response: Option<Json>, clock: Millis): (Conn, bool) {
    match response
    case None => Rescue(codec, c, id, clock)
    case Some(json) =>
      var (c', raised) := Enqueue(codec, c, json, true, clock);
      if raised then Rescue(codec, c', id, clock) else (c', false)
  }

  /** A request runs only if its connection is open and its deadline lies ahead. */
  predicate Due(c: Conn, work: Work, clock: Millis) {
    !c.closed && clock < work.deadline
  }

  function CommandResponse(id: string, reply: Option<Reply>): Option<Json> {
    match reply
    case None => None
    case Some(r) => Some(ReplyResponse(id, r))
  }

  /** process; `ran` is what running the command would do. */
  function Process(codec: Codec, c: Conn, w: World, work: Work, clock: Millis, ran: Ran): (Conn, World, bool) {
    if c.closed then (c, w, false)
    else if clock >= work.deadline then
      var (c', escaped) := Answer(codec, c, work.id, Some(TimeoutResponse(work.id)), clock);
      (c', w, escaped)
    else
      var (c', escaped) := Answer(codec, c, work.id, CommandResponse(work.id, ran.reply), clock);
      (c', ran.world, escaped)
  }

  // ---------- one tick ----------

  /** What the dispatcher works on: the connections its requests came from, the queue, the engine's world. */
  datatype Desk = Desk(conns: map<ConnId, Conn>, queue: seq<Work>, world: World)

  /** The commands of the registry, as the dispatcher sees them. */
  type Registry = (World, string, Json, Play) -> Ran

  function RegistryOf(routes: Routes): Registry {
    (w, operation, payload, play) => RunCommand(routes, w, operation, payload, play)
  }

  /** Pop one request and process it; the flag is an exception that escapes. */
  function PopOne(codec: Codec, d: Desk, clock: Millis, play: Play, registry: Registry): (Desk, bool) {
    if d.queue == [] || d.queue[0].conn !in d.conns then (d, false)
    else
      var work := d.queue[0];
      var ran := registry(d.world, work.operation, work.payload, play);
      var (c', w', escaped) := Process(codec, d.conns[work.conn], d.world, work, clock, ran);
      (Desk(d.conns[work.conn := c'], d.queue[1..], w'), escaped)
  }

  datatype Turn = Turn(clock: Millis, play: Play)

  /** drain_once: one environment turn for each of at most eight pops. */
  function DrainOnce(codec: Codec, d: Desk, turns: seq<Turn>, registry: Registry): (Desk, nat, bool)
    decreases |turns|
  {
    if turns == [] || d.queue == [] then (d, 0, false)
    else
      var (d', escaped) := PopOne(codec, d, turns[0].clock, turns[0].play, registry);
      if escaped then (d', 1, true)
      else
        var (d'', n, e) := DrainOnce(codec, d', turns[1..], registry);
        (d'', n + 1, e)
  }

  // ---------- exactly one response ----------

  lemma {:induction false} ReplyResponseId(id: string, reply: Reply)
    ensures ResponseId(ReplyResponse(id, reply)) == Some(id)
  {
    match reply
    case Success(payload) =>
      var fs := SuccessResponse(id, payload).fields;
      assert fs[1..][0].key == "protocol_version" && fs[1..][1..][0] == Field("id", Str(id));
      assert Get(fs[1..][1..], "id") == Some(Str(id));
      assert Get(fs[1..], "id") == Some(Str(id));
    case Failure(code, message, details) => ErrorResponseId(id, code, message, details);
  }

  /** From c to c' exactly one answer was queued, whose delivery will free `id`; nothing else changed. */
  ghost predicate AnsweredOnce(codec: Codec, c: Conn, c': Conn, id: string, response: Json) {
    var payload := codec.generate(response);
    && Fits(payload) && ResponseId(response) == Some(id)
    && c'.history.answers == c.history.answers + [payload] && c'.history.replies == c.history.replies + [response]
    && c'.writeQueue == c.writeQueue + [Item(Frame(payload), 0, Some(id))]
    && c'.outstanding == c.outstanding && !c'.closed
  }

  lemma {:induction false} EnqueueOnce(codec: Codec, c: Conn, response: Json, id: string, clock: Millis)
    requires !c.closed && ResponseId(response) == Some(id)
    ensures var (c', raised) := Enqueue(codec, c, response, true, clock);
            && (raised <==> !Fits(codec.generate(response)))
            && (raised ==> c' == c)
            && (!raised ==> c' == Close(c) || AnsweredOnce(codec, c, c', id, response))
  {
  }

  /** The response the client is due: the command's own if it fits a frame, otherwise INTERNAL. */
  function DueResponse(codec: Codec, id: string, response: Option<Json>): Json {
    match response
    case Some(json) => if Fits(codec.generate(json)) then json else InternalError(id)
    case None => InternalError(id)
  }

  lemma {:induction false} AnswerOnce(codec: Codec, c: Conn, id: string, response: Option<Json>, clock: Millis)
    requires Adequate(codec) && IsUuid(id) && !c.closed
    requires response.Some? ==> ResponseId(response.value) == Some(id)
    ensures var (c', escaped) := Answer(codec, c, id, response, clock);
            !escaped && (c' == Close(c) || AnsweredOnce(codec, c, c', id, DueResponse(codec, id, response)))
  {
    ErrorResponseId(id, "INTERNAL", "command execution failed", []);
    EnqueueOnce(codec, c, InternalError(id), id, clock);
    if response.Some? { EnqueueOnce(codec, c, response.value, id, clock); }
  }

  /**
   Every popped request is dropped because its connection is closed, or is answered exactly
   once or closes its connection: also when the command raises, and when its response is too
   large for a frame. The command runs exactly when it is due, and no exception escapes.
   */
  lemma {:induction false} ProcessOnce(codec: Codec, c: Conn, w: World, work: Work, clock: Millis, ran: Ran)
    requires Adequate(codec) && IsUuid(work.id)
    ensures var (c', w', escaped) := Process(codec, c, w, work, clock, ran);
            && !escaped
            && (c.closed ==> c' == c)
            && w' == (if Due(c, work, clock) then ran.world else w)
            && (c.closed || c' == Close(c) ||
                AnsweredOnce(codec, c, c', work.id, DueResponse(codec, work.id,
                  if Due(c, work, clock) then CommandResponse(work.id, ran.reply) else Some(TimeoutResponse(work.id)))))
  {
    if !c.closed {
      if clock >= work.deadline {
        ErrorResponseId(work.id, "TIMEOUT", "request timed out before main-thread execution", []);
        AnswerOnce(codec, c, work.id, Some(TimeoutResponse(work.id)), clock);
      } else {
        if ran.reply.Some? { ReplyResponseId(work.id, ran.reply.value); }
        AnswerOnce(codec, c, work.id, CommandResponse(work.id, ran.reply), clock);
      }
    }
  }

  // ---------- the invariants of the connection ----------

  /** Answering changes the writing side only. */
  ghost predicate OnlyAnswers(c: Conn, c': Conn) {
    ReadingSame(c, c') && c'.phase == c.phase && c'.closeAfterWrite == c.closeAfterWrite
  }

  ghost predicate Settles(c: Conn, c': Conn, waiting: seq<string>) {
    OnlyAnswers(c, c') && WriteInv(c') && Accounted(c', waiting, [])
  }

  lemma {:induction false} OfferKeeps(codec: Codec, c: Conn, response: Json, id: string, clock: Millis, waiting: seq<string>)
    requires ResponseId(response) == Some(id) && WriteInv(c) && Accounted(c, waiting, [id])
    ensures var (c', raised) := Enqueue(codec, c, response, true, clock);
            if raised then c' == c else Settles(c, c', waiting)
  {
    EnqueueWrite(codec, c, response, true, clock);
    EnqueueAccounted(codec, c, response, true, clock, waiting, [id]);
  }

  lemma {:induction false} AnswerKeeps(codec: Codec, c: Conn, id: string, response: Option<Json>, clock: Millis,
                                       waiting: seq<string>)
    requires Adequate(codec) && IsUuid(id)
    requires response.Some? ==> ResponseId(response.value) == Some(id)
    requires WriteInv(c) && Accounted(c, waiting, [id]) && !c.closed
    ensures Settles(c, Answer(codec, c, id, response, clock).0, waiting)
  {
    ErrorResponseId(id, "INTERNAL", "command execution failed", []);
    OfferKeeps(codec, c, InternalError(id), id, clock, waiting);
    EnqueueOnce(codec, c, InternalError(id), id, clock);
    if response.Some? { OfferKeeps(codec, c, response.value, id, clock, waiting); }
  }

  /** Answering a popped request moves its id from the queue to the response that will release it. */
  lemma {:induction false} ProcessKeeps(codec: Codec, c: Conn, w: World, work: Work, clock: Millis, ran: Ran,
                                        waiting: seq<string>)
    requires Adequate(codec) && IsUuid(work.id)
    requires WriteInv(c) && Accounted(c, waiting, [work.id])
    ensures Settles(c, Process(codec, c, w, work, clock, ran).0, waiting)
  {
    if !c.closed {
      if clock >= work.deadline {
        ErrorResponseId(work.id, "TIMEOUT", "request timed out before main-thread execution", []);
        AnswerKeeps(codec, c, work.id, Some(TimeoutResponse(work.id)), clock, waiting);
      } else {
        if ran.reply.Some? { ReplyResponseId(work.id, ran.reply.value); }
        AnswerKeeps(codec, c, work.id, CommandResponse(work.id, ran.reply), clock, waiting);
      }
    }
  }
}
