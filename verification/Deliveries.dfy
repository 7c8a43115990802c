/**
 What a client is told: the reply of the engine, the dispatcher's own errors and the
 connection's refusals, as the Go client decodes the one response that is sent.
 */
module Deliveries {
  import opened Basics
  import opened Json
  import opened Framing
  import opened Protocol
  import opened Bridge
  import opened ConnectionRuns
  import opened Dispatcher
  import opened System
  import opened SystemRuns
  import opened Wire
  import opened Handshakes
  import opened Mutations
  import BridgeClient
  import ClientRuns
  import Replies

  // ---------- one popped request ----------

  /** An error without details, decoded. */
  function Error(id: string, code: string, message: string): Message {
    Message("response", VERSION, id, false, None, Some(Trouble(code, message, None)))
  }

  /** The command's own response goes into one frame. */
  predicate Sendable(codec: Codec, id: string, reply: Option<Reply>) {
    reply.Some? && Fits(codec.generate(ReplyResponse(id, reply.value)))
  }

  /** What the client is to read: the reply if the command ran and its response can be sent, else an error. */
  function Told(codec: Codec, id: string, due: bool, reply: Option<Reply>): Message {
    if due && Sendable(codec, id, reply) then Meant(id, reply.value)
    else if !due && Fits(codec.generate(TimeoutResponse(id))) then
      Error(id, "TIMEOUT", "request timed out before main-thread execution")
    else Error(id, "INTERNAL", "command execution failed")
  }

  /** From c to c' one response was added, and it is decoded as this message. */
  ghost predicate Tells(c: Conn, c': Conn, message: Message) {
    && |c'.history.replies| == |c.history.replies| + 1 && c.history.replies <= c'.history.replies
    && ReadMessage(c'.history.replies[|c.history.replies|]) == Some(message)
  }

  lemma {:induction false} DueRead(codec: Codec, id: string, due: bool, reply: Option<Reply>)
    ensures ReadMessage(DueResponse(codec, id, if due then CommandResponse(id, reply) else Some(TimeoutResponse(id)))) ==
            Some(Told(codec, id, due, reply))
  {
    OwnErrorsRead(id);
    if reply.Some? { ReplyRead(id, reply.value); }
  }

  /** Two messages of the largest size may wait for the peer; this response would exceed that. */
  predicate Overflows(codec: Codec, c: Conn, response: Json) {
    c.pending + 4 + |codec.generate(response)| > 2_097_152
  }

  lemma {:induction false} EnqueueExactly(codec: Codec, c: Conn, response: Json, id: string, clock: Millis)
    requires !c.closed && ResponseId(response) == Some(id) && Fits(codec.generate(response))
    ensures var (c', raised) := Enqueue(codec, c, response, true, clock);
            !raised && if Overflows(codec, c, response) then c' == Close(c) else AnsweredOnce(codec, c, c', id, response)
  {
  }

  lemma {:induction false} AnswerExactly(codec: Codec, c: Conn, id: string, response: Option<Json>, clock: Millis)
    requires Adequate(codec) && IsUuid(id) && !c.closed
    requires response.Some? ==> ResponseId(response.value) == Some(id)
    ensures var (c', escaped) := Dispatcher.Answer(codec, c, id, response, clock);
            var due := DueResponse(codec, id, response);
            !escaped && if Overflows(codec, c, due) then c' == Close(c) else AnsweredOnce(codec, c, c', id, due)
  {
    ErrorResponseId(id, "INTERNAL", "command execution failed", []);
    EnqueueExactly(codec, c, InternalError(id), id, clock);
    if response.Some? {
      EnqueueOnce(codec, c, response.value, id, clock);
      if Fits(codec.generate(response.value)) { EnqueueExactly(codec, c, response.value, id, clock); }
    }
  }

  /** The response a popped request is due. */
  function DueOf(codec: Codec, work: Work, clock: Millis, reply: Option<Reply>): Json {
    DueResponse(codec, work.id, if clock < work.deadline then CommandResponse(work.id, reply) else Some(TimeoutResponse(work.id)))
  }

  lemma {:induction false} ProcessExactly(codec: Codec, c: Conn, w: World, work: Work, clock: Millis, ran: Ran)
    requires Adequate(codec) && IsUuid(work.id) && !c.closed
    ensures var (c', w', escaped) := Process(codec, c, w, work, clock, ran);
            var due := DueOf(codec, work, clock, ran.reply);
            !escaped && if Overflows(codec, c, due) then c' == Close(c) else AnsweredOnce(codec, c, c', work.id, due)
  {
    if clock >= work.deadline {
      ErrorResponseId(work.id, "TIMEOUT", "request timed out before main-thread execution", []);
      AnswerExactly(codec, c, work.id, Some(TimeoutResponse(work.id)), clock);
    } else {
      if ran.reply.Some? { ReplyResponseId(work.id, ran.reply.value); }
      AnswerExactly(codec, c, work.id, CommandResponse(work.id, ran.reply), clock);
    }
  }

  /**
   Every popped request of an open connection is told its own outcome, once: the command's
   reply if it ran and its response fits a frame, TIMEOUT past the deadline, INTERNAL if it
   raised or is too large. The connection closes instead exactly if too much would wait for the peer.
   */
  lemma {:induction false} ProcessTold(codec: Codec, c: Conn, w: World, work: Work, clock: Millis, ran: Ran)
    requires Adequate(codec) && IsUuid(work.id) && !c.closed
    ensures var (c', w', escaped) := Process(codec, c, w, work, clock, ran);
            !escaped &&
            if Overflows(codec, c, DueOf(codec, work, clock, ran.reply)) then c' == Close(c)
            else !c'.closed && Tells(c, c', Told(codec, work.id, clock < work.deadline, ran.reply))
  {
    ProcessExactly(codec, c, w, work, clock, ran);
    DueRead(codec, work.id, clock < work.deadline, ran.reply);
  }

  /**
   The client's own call then: an answer exactly if the command ran, succeeded and can be sent,
   with a payload the caller can decode; a fault only if it cannot; a refusal in every other case.
   */
  lemma {:induction false} ToldReceived(codec: Codec, id: string, due: bool, reply: Option<Reply>, decode: Decoder)
    ensures var result := BridgeClient.Interpret(AsResponse(Told(codec, id, due, reply), decode), Told(codec, id, due, reply).id == id);
            var succeeded := due && Sendable(codec, id, reply) && reply.value.Success?;
            && (result.Refusal? <==> !succeeded)
            && (result.Answer? <==> succeeded && decode(Obj(reply.value.payload)).Some?)
            && (result.Answer? ==> Some(result.info) == decode(Obj(reply.value.payload)))
  {
  }

  /** The replies counted as successes in the order of answers are those the client reads as ok responses. */
  lemma {:induction false} SuccessReads(m: Json)
    requires ReadMessage(m).Some?
    ensures Replies.IsSuccess(m) <==> ReadMessage(m).value.kind == "response" && ReadMessage(m).value.ok
  {
  }

  lemma {:induction false} SuccessSent(id: string, reply: Reply)
    ensures Replies.IsSuccess(ReplyResponse(id, reply)) <==> reply.Success?
  {
    ReplyRead(id, reply);
    SuccessReads(ReplyResponse(id, reply));
  }

  // ---------- the head of the queue, in any reachable state ----------

  /** What the command at the head of the queue replies: the engine for a mutation, the environment for a read. */
  function HeadCommandReply(u: Setup, s: Sys, turn: Dispatcher.Turn): Option<Reply>
    requires s.queue != []
  {
    var work := s.queue[0];
    match u.routes(work.operation)
    case Some(op) => Some(Handle(s.world, op, work.payload, turn.play.attempt).1)
    case None => turn.play.answer
  }

  /** The client that sent `work` is told this reply; its connection closes exactly if too much would wait for it. */
  ghost predicate WorkTold(codec: Codec, c: Conn, c': Conn, work: Work, clock: Millis, reply: Option<Reply>) {
    if c.closed then c' == c
    else if Overflows(codec, c, DueOf(codec, work, clock, reply)) then c' == Close(c)
    else !c'.closed && Tells(c, c', Told(codec, work.id, clock < work.deadline, reply))
  }

  /** One turn of the dispatcher in any reachable state: the client of the head of the queue is told its reply. */
  lemma {:induction false} HeadTold(u: Setup, s: Sys, turn: Dispatcher.Turn)
    requires Adequate(u.codec) && Reachable(u, s) && s.queue != []
    ensures var work, s' := s.queue[0], Served(u, s, turn);
            && work.conn in s.conns && work.conn in s'.conns
            && WorkTold(u.codec, s.conns[work.conn], s'.conns[work.conn], work, turn.clock, HeadCommandReply(u, s, turn))
  {
    var work := s.queue[0];
    var ok, hands := ReachedInv(u, s);
    HeadKnown(ok, hands, s, 0);
    var ran := RegistryOf(u.routes)(s.world, work.operation, work.payload, turn.play);
    if !s.conns[work.conn].closed {
      ProcessTold(u.codec, s.conns[work.conn], s.world, work, turn.clock, ran);
    }
  }

  // ---------- the handshake, in any reachable state ----------

  /**
   Whatever the peer sends, and however it is cut into reads: the first reply of a connection
   greets with the bridge's session, the second tells whether the second message presented its
   token, and then the connection is ready.
   */
  lemma {:induction false} HandshakeTold(u: Setup, s: Sys, id: ConnId)
    requires Adequate(u.codec) && Reachable(u, s) && id in s.conns
    ensures var handled, replies := s.conns[id].history.handled, s.conns[id].history.replies;
            && (|replies| >= 1 ==> Greets(u.sessionId, replies[0]))
            && (|replies| >= 2 ==> |handled| >= 2 && Judges(PresentsToken(u, handled[1]), replies[1])
                                   && (PresentsToken(u, handled[1]) ==> s.conns[id].phase == Ready))
  {
    ReachedConn(u, s, id);
  }

  /** In any reachable state, a client that has read its two replies is connected exactly if its descriptor is right. */
  lemma {:induction false} DialedEndToEnd(u: Setup, s: Sys, id: ConnId, d: BridgeClient.Descriptor)
    requires Adequate(u.codec) && Reachable(u, s) && id in s.conns && |s.conns[id].history.replies| >= 2
    requires |s.conns[id].history.handled| >= 2 ==>
               Decode(u.codec, s.conns[id].history.handled[1]) == Some(AuthenticateMessage(d.token).fields)
    requires ReadHello(s.conns[id].history.replies[0]).Some? ==>
               IsUuid(ReadHello(s.conns[id].history.replies[0]).value.serverNonce)
    ensures BridgeClient.Dialed(d, DialingOf(s.conns[id].history.replies)) <==>
            BridgeClient.ValidDescriptor(d) && d.sessionId == u.sessionId && d.token == u.token
    ensures BridgeClient.Dialed(d, DialingOf(s.conns[id].history.replies)) ==> s.conns[id].phase == Ready
  {
    ReachedConn(u, s, id);
    DialedIff(ConfigOf(u, id), s.conns[id], d);
  }

  // ---------- requests a ready connection refuses itself ----------

  /** The error is told; it raises exactly if it does not fit a frame, and closes exactly if too much would wait for the peer. */
  ghost predicate ErrorTold(codec: Codec, c: Conn, e: Effect, id: string, code: string, message: string) {
    var response := ErrorResponse(id, code, message, []);
    if !Fits(codec.generate(response)) then e.raised
    else if Overflows(codec, c, response) then !e.raised && e.conn.closed
    else !e.raised && !e.conn.closed && Tells(c, e.conn, Error(id, code, message))
  }

  lemma {:induction false} RespondTold(cfg: Config, c: Conn, q: seq<Work>, id: string, code: string, message: string,
                                       release: bool, env: Env)
    requires !c.closed
    ensures ErrorTold(cfg.codec, c, Bridge.Respond(cfg, c, q, ErrorResponse(id, code, message, []), release, env), id, code, message)
  {
    ErrorRead(id, code, message, []);
  }

  /** Why a ready connection refuses a valid request itself, first reason first; None if it does not. */
  function Refusal(cfg: Config, c: Conn, q: seq<Work>, r: Request): Option<(string, string)> {
    if r.id in c.outstanding then Some(("INVALID_REQUEST", "duplicate request id"))
    else if |c.outstanding| >= 32 then Some(("INVALID_REQUEST", "too many outstanding requests"))
    else if r.sessionId != cfg.sessionId then
      Some(("SESSION_NOT_FOUND", "request session does not match this bridge instance"))
    else if |q| >= 128 then Some(("INTERNAL", "bridge request queue is full"))
    else None
  }

  /**
   A valid request on a ready connection: refused as a duplicate, at the limit of outstanding
   requests, for another session, or with the queue full, and told so; in every other case it
   is queued with its deadline and nothing is told yet.
   */
  lemma {:induction false} RequestTold(cfg: Config, c: Conn, q: seq<Work>, r: Request, env: Env)
    requires !c.closed
    ensures var e := HandleRequest(cfg, c, q, r, env);
            match Refusal(cfg, c, q, r)
            case Some((code, message)) => ErrorTold(cfg.codec, c, e, r.id, code, message) && e.queue == q
            case None =>
              && e.queue == q + [Work(cfg.id, r.id, r.operation, r.payload, env.clock + r.timeoutMs)]
              && e.conn.history.replies == c.history.replies && r.id in e.conn.outstanding && !e.raised && !e.conn.closed
  {
    match Rule(cfg, c, q, r, env)
    case Refuse(code, message, release) =>
      RespondTold(cfg, if release then Reserve(c, r.id) else c, q, r.id, code, message, release, env);
    case Admit(_) =>
  }

  // ---------- the client's conversation ----------

  /** What the client reads in exchange k is reply p as it decodes it. */
  ghost predicate Decodes(all: seq<Json>, p: nat, t: ClientRuns.Talk, decode: Decoder) {
    && p < |all| && ReadMessage(all[p]).Some? && t.outcome.Reads?
    && t.outcome.response == AsResponse(ReadMessage(all[p]).value, decode)
  }

  /** The result of exchange k is what the reply that bears its request's id says. */
  ghost predicate ReceivesOwn(all: seq<Json>, from: nat, talks: seq<ClientRuns.Talk>, k: nat, decode: Decoder) {
    && k < |talks| && from + k < |all| && ClientRuns.Heard(talks, k + 1) == k + 1
    && ResponseId(all[from + k]) == Some(talks[k].id)
    && var results := ClientRuns.Account(all[from..], talks, k + 1).1;
    |results| == k + 1 && results[k] == Received(all[from + k], talks[k].id, decode)
  }

  lemma {:induction false} IdRead(m: Json)
    requires ReadMessage(m).Some? && ResponseId(m).Some?
    ensures Some(ReadMessage(m).value.id) == ResponseId(m)
  {
  }

  lemma {:induction false} OwnReceived(all: seq<Json>, from: nat, talks: seq<ClientRuns.Talk>, k: nat, decode: Decoder)
    requires k < |talks| && ClientRuns.Own(all, from, talks, k) && Decodes(all, from + k, talks[k], decode)
    ensures ReceivesOwn(all, from, talks, k, decode)
  {
    IdRead(all[from + k]);
  }

  /**
   Over any run: a client that waits for every reply, and decodes the one it reads, gets from
   exchange k what that message, which bears its request's id, says.
   */
  lemma {:induction false} OwnReplyReceived(u: Setup, s: Sys, id: ConnId, talks: seq<ClientRuns.Talk>, k: nat, decode: Decoder)
    requires Adequate(u.codec) && Reachable(u, s) && ClientRuns.Converses(u, s, id, talks) && k < |talks|
    requires forall j :: 0 <= j <= k ==> talks[j].outcome.Reads?
    requires Decodes(ClientRuns.RepliesAt(ClientRuns.After(u, s, talks, |talks|), id), |ClientRuns.RepliesAt(s, id)| + k,
                     talks[k], decode)
    ensures ReceivesOwn(ClientRuns.RepliesAt(ClientRuns.After(u, s, talks, |talks|), id), |ClientRuns.RepliesAt(s, id)|,
                        talks, k, decode)
  {
    ClientRuns.OwnReply(u, s, id, talks, k);
    OwnReceived(ClientRuns.RepliesAt(ClientRuns.After(u, s, talks, |talks|), id), |ClientRuns.RepliesAt(s, id)|, talks, k, decode);
  }
}
