/**
 The order of answers. Each message a connection handles is answered once or waits in the
 queue; errors may be sent at once, but a success is always the answer to the oldest request
 that has none yet.
 */
module Replies {
  import opened Basics
  import opened Json
  import opened Framing
  import opened Protocol
  import opened Bridge
  import opened ConnectionInvariants
  import opened ConnectionRuns
  import opened Refusals

  // ---------- what is owed ----------

  /** The request id a message carries, if any. */
  function AskedOne(codec: Codec, payload: Bytes): seq<string> {
    match Decode(codec, payload)
    case None => []
    case Some(m) => (match CandidateId(m) case None => [] case Some(id) => [id])
  }

  function AskedIds(codec: Codec, handled: seq<Bytes>): seq<string> {
    if handled == [] then []
    else AskedIds(codec, handled[..|handled| - 1]) + AskedOne(codec, handled[|handled| - 1])
  }

  /** The list without its first occurrence of `id`. */
  function Without(ids: seq<string>, id: string): seq<string> {
    if ids == [] then []
    else if ids[0] == id then ids[1..]
    else [ids[0]] + Without(ids[1..], id)
  }

  /** What is left of the requests when each reply strikes out its id. */
  function Remaining(asked: seq<string>, replies: seq<Json>): seq<string>
    decreases |replies|
  {
    if replies == [] then asked
    else Struck(Remaining(asked, replies[..|replies| - 1]), replies[|replies| - 1])
  }

  function Struck(owed: seq<string>, reply: Json): seq<string> {
    match ResponseId(reply)
    case None => owed
    case Some(id) => Without(owed, id)
  }

  predicate IsSuccess(reply: Json) {
    reply.Obj? && Get(reply.fields, "type") == Some(Str("response")) && Get(reply.fields, "ok") == Some(Bool(true))
  }

  /** A reply answers a request that is owed one, and a success the oldest of them. */
  predicate Fair(owed: seq<string>, reply: Json) {
    match ResponseId(reply)
    case None => !IsSuccess(reply)
    case Some(id) => id in owed && (IsSuccess(reply) ==> id == owed[0])
  }

  ghost predicate Lawful(asked: seq<string>, replies: seq<Json>) {
    forall p :: 0 <= p < |replies| ==> Fair(Remaining(asked, replies[..p]), replies[p])
  }

  ghost predicate Distinct(ids: seq<string>) {
    forall i, j :: 0 <= i < j < |ids| ==> ids[i] != ids[j]
  }

  lemma {:induction false} WithoutAppend(a: seq<string>, b: seq<string>, id: string)
    requires id in a
    ensures Without(a + b, id) == Without(a, id) + b
  {
    assert a == [a[0]] + a[1..];
    if a[0] == id {
      assert (a + b)[1..] == a[1..] + b;
    } else {
      assert (a + b)[1..] == a[1..] + b;
      WithoutAppend(a[1..], b, id);
    }
  }

  lemma {:induction false} WithoutLast(a: seq<string>, id: string)
    requires id !in a
    ensures Without(a + [id], id) == a
  {
    if a == [] {
      assert a + [id] == [id];
    } else {
      assert (a + [id])[1..] == a[1..] + [id];
      WithoutLast(a[1..], id);
    }
  }

  lemma {:induction false} WithoutSubset(a: seq<string>, id: string, x: string)
    requires x in Without(a, id)
    ensures x in a
  {
    if a[0] != id && x != a[0] { WithoutSubset(a[1..], id, x); }
  }

  lemma {:induction false} RemainingSubset(asked: seq<string>, replies: seq<Json>, x: string)
    requires x in Remaining(asked, replies)
    ensures x in asked
    decreases |replies|
  {
    if replies != [] {
      var before, last := replies[..|replies| - 1], replies[|replies| - 1];
      if ResponseId(last).Some? { WithoutSubset(Remaining(asked, before), ResponseId(last).value, x); }
      RemainingSubset(asked, before, x);
    }
  }

  lemma {:induction false} LawfulBefore(asked: seq<string>, replies: seq<Json>)
    requires Lawful(asked, replies) && replies != []
    ensures Lawful(asked, replies[..|replies| - 1])
    ensures Fair(Remaining(asked, replies[..|replies| - 1]), replies[|replies| - 1])
  {
    var before := replies[..|replies| - 1];
    forall p | 0 <= p < |before| ensures Fair(Remaining(asked, before[..p]), before[p]) {
      assert before[..p] == replies[..p];
    }
  }

  /** Requests that come later wait behind what is owed already. */
  lemma {:induction false} RemainingMore(asked: seq<string>, more: seq<string>, replies: seq<Json>)
    requires Lawful(asked, replies)
    ensures Remaining(asked + more, replies) == Remaining(asked, replies) + more
    decreases |replies|
  {
    if replies != [] {
      var before, last := replies[..|replies| - 1], replies[|replies| - 1];
      LawfulBefore(asked, replies);
      RemainingMore(asked, more, before);
      if ResponseId(last).Some? { WithoutAppend(Remaining(asked, before), more, ResponseId(last).value); }
    }
  }

  lemma {:induction false} LawfulPrefix(asked: seq<string>, replies: seq<Json>, p: nat)
    requires Lawful(asked, replies) && p <= |replies|
    ensures Lawful(asked, replies[..p])
  {
    forall i | 0 <= i < p ensures Fair(Remaining(asked, replies[..p][..i]), replies[..p][i]) {
      assert replies[..p][..i] == replies[..i];
    }
  }

  lemma {:induction false} FairMore(owed: seq<string>, more: seq<string>, reply: Json)
    requires Fair(owed, reply)
    ensures Fair(owed + more, reply)
  {
  }

  lemma {:induction false} LawfulMore(asked: seq<string>, more: seq<string>, replies: seq<Json>)
    requires Lawful(asked, replies)
    ensures Lawful(asked + more, replies)
  {
    forall p | 0 <= p < |replies| ensures Fair(Remaining(asked + more, replies[..p]), replies[p]) {
      LawfulPrefix(asked, replies, p);
      RemainingMore(asked, more, replies[..p]);
      FairMore(Remaining(asked, replies[..p]), more, replies[p]);
    }
  }

  lemma {:induction false} LawfulReply(asked: seq<string>, replies: seq<Json>, reply: Json)
    requires Lawful(asked, replies) && Fair(Remaining(asked, replies), reply)
    ensures Lawful(asked, replies + [reply])
    ensures Remaining(asked, replies + [reply]) == Struck(Remaining(asked, replies), reply)
  {
    var all := replies + [reply];
    assert all[..|replies|] == replies;
    forall p | 0 <= p < |all| ensures Fair(Remaining(asked, all[..p]), all[p]) {
      if p < |replies| { assert all[..p] == replies[..p]; }
    }
  }

  /** However many requests come later: of those the first p replies leave, a success answers the oldest. */
  lemma {:induction false} SuccessAnswersOldest(asked: seq<string>, ids: seq<string>, replies: seq<Json>, p: nat)
    requires asked <= ids && Lawful(asked, replies) && p < |replies|
    ensures Fair(Remaining(ids, replies[..p]), replies[p])
  {
    var more := ids[|asked|..];
    assert ids == asked + more;
    LawfulMore(asked, more, replies);
  }

  lemma {:induction false} DistinctPrefix(asked: seq<string>, ids: seq<string>)
    requires asked <= ids && Distinct(ids)
    ensures Distinct(asked)
  {
    assert ids == asked + ids[|asked|..];
    DistinctParts(asked, ids[|asked|..]);
  }

  // ---------- the invariant of a connection ----------

  /** The encoded answers are those of the replies. */
  ghost predicate Encoded(codec: Codec, h: History) {
    && |h.answers| == |h.replies|
    && forall i :: 0 <= i < |h.replies| ==> h.answers[i] == codec.generate(h.replies[i])
  }

  /**
   On an open connection every message handled was answered once or waits in the queue; and
   if no id was used twice, the replies so far are fair and what they leave is the queue's.
   */
  ghost predicate OrderInv(cfg: Config, c: Conn, waiting: seq<string>) {
    var asked := AskedIds(cfg.codec, c.history.handled);
    && Encoded(cfg.codec, c.history)
    && (!c.closed ==> |c.history.replies| + |waiting| == |c.history.handled|)
    && (Distinct(asked) ==> Lawful(asked, c.history.replies))
    && (Distinct(asked) && !c.closed ==> Remaining(asked, c.history.replies) == waiting)
  }

  /** What becomes of one message of an open connection. */
  datatype Fate = Ended | Answered(reply: Json) | Admitted(id: string)

  ghost predicate Befalls(cfg: Config, c: Conn, q: seq<Work>, id: Option<string>, e: Effect, fate: Fate) {
    match fate
    case Ended =>
      (e.raised || e.conn.closed) && e.conn.history.replies == c.history.replies && e.conn.history.answers == c.history.answers
    case Answered(reply) =>
      && !e.raised && !e.conn.closed && e.queue == q && ResponseId(reply) == id && !IsSuccess(reply)
      && e.conn.history.replies == c.history.replies + [reply]
      && e.conn.history.answers == c.history.answers + [cfg.codec.generate(reply)]
    case Admitted(i) =>
      && !e.raised && !e.conn.closed && id == Some(i) && |e.queue| == |q| + 1 && q <= e.queue
      && e.queue[|q|].conn == cfg.id && e.queue[|q|].id == i
      && e.conn.history.replies == c.history.replies && e.conn.history.answers == c.history.answers
  }

  lemma {:induction false} ErrorIsNoSuccess(id: string, code: string, message: string)
    ensures ResponseId(ErrorResponse(id, code, message, [])) == Some(id)
    ensures !IsSuccess(ErrorResponse(id, code, message, []))
  {
    ErrorResponseId(id, code, message, []);
    var fs := ErrorResponse(id, code, message, []).fields;
    assert fs[1..][1..][1..][0] == Field("ok", Bool(false));
    assert Get(fs[1..][1..][1..], "ok") == Some(Bool(false));
    assert Get(fs[1..][1..], "ok") == Some(Bool(false));
    assert Get(fs[1..], "ok") == Some(Bool(false));
  }

  /** The answers of the handshake are not responses to requests. */
  lemma {:induction false} HandshakeAnswers(sessionId: string, nonce: string, ok: bool)
    ensures ResponseId(HelloResponse(sessionId, nonce)) == None && !IsSuccess(HelloResponse(sessionId, nonce))
    ensures ResponseId(AuthenticateResponse(ok)) == None && !IsSuccess(AuthenticateResponse(ok))
  {
    var hello, answer := HelloResponse(sessionId, nonce).fields, AuthenticateResponse(ok).fields;
    assert "id" !in Keys(hello) && "id" !in Keys(answer);
    if Get(hello, "id").Some? { KeyOfGet(hello, "id"); }
    if Get(answer, "id").Some? { KeyOfGet(answer, "id"); }
    assert Get(hello, "type") == Some(Str("hello")) && Get(answer, "type") == Some(Str("authenticate"));
  }

  lemma {:induction false} RespondFate(cfg: Config, c: Conn, q: seq<Work>, response: Json, release: bool, env: Env)
    returns (fate: Fate)
    requires !c.closed && !IsSuccess(response)
    ensures Befalls(cfg, c, q, ResponseId(response), Respond(cfg, c, q, response, release, env), fate)
    ensures fate != Ended ==> fate == Answered(response)
  {
    var e := Respond(cfg, c, q, response, release, env);
    fate := if e.raised || e.conn.closed then Ended else Answered(response);
  }

  lemma {:induction false} NoIdInHandshake(m: seq<Field>)
    requires ValidHello(m) || ValidAuthenticate(m)
    ensures CandidateId(m) == None
  {
    if Get(m, "id").Some? { KeyOfGet(m, "id"); }
  }

  lemma {:induction false} RequestFate(cfg: Config, c: Conn, q: seq<Work>, r: Request, env: Env) returns (fate: Fate)
    requires !c.closed
    ensures Befalls(cfg, c, q, Some(r.id), HandleRequest(cfg, c, q, r, env), fate)
  {
    match Rule(cfg, c, q, r, env)
    case Refuse(code, message, release) =>
      ErrorIsNoSuccess(r.id, code, message);
      fate := RespondFate(cfg, if release then Reserve(c, r.id) else c, q, ErrorResponse(r.id, code, message, []), release, env);
    case Admit(w) =>
      RuleFacts(cfg, c, q, r, env);
      fate := Admitted(r.id);
  }

  lemma {:induction false} AcceptedId(m: seq<Field>)
    ensures match ValidateRequest(m)
            case Accepted(r) => CandidateId(m) == Some(r.id)
            case Rejected(id, _, _) => id == CandidateId(m)
  {
  }

  lemma {:induction false} ReadyFate(cfg: Config, c: Conn, q: seq<Work>, m: seq<Field>, env: Env) returns (fate: Fate)
    requires !c.closed && c.phase == Ready
    ensures Befalls(cfg, c, q, CandidateId(m), HandleMessage(cfg, c, q, m, env), fate)
    ensures fate.Answered? ==> ResponseId(fate.reply).Some?
  {
    AcceptedId(m);
    match ValidateRequest(m)
    case Accepted(r) => fate := RequestFate(cfg, c, q, r, env);
    case Rejected(Some(id), code, message) =>
      ErrorIsNoSuccess(id, code, message);
      fate := RespondFate(cfg, c, q, ErrorResponse(id, code, message, []), false, env);
    case Rejected(None, _, _) => fate := Ended;
  }

  lemma {:induction false} MessageFate(cfg: Config, c: Conn, q: seq<Work>, m: seq<Field>, env: Env) returns (fate: Fate)
    requires !c.closed
    ensures Befalls(cfg, c, q, CandidateId(m), HandleMessage(cfg, c, q, m, env), fate)
  {
    match c.phase
    case AwaitHello =>
      fate := Ended;
      if ValidHello(m) {
        NoIdInHandshake(m);
        HandshakeAnswers(cfg.sessionId, env.nonce, true);
        fate := RespondFate(cfg, c, q, HelloResponse(cfg.sessionId, env.nonce), false, env);
      }
    case AwaitAuthenticate =>
      fate := Ended;
      if ValidAuthenticate(m) {
        var ok := cfg.codec.utf8(Token(m)) == cfg.codec.utf8(cfg.token);
        NoIdInHandshake(m);
        HandshakeAnswers("", "", ok);
        fate := RespondFate(cfg, c, q, AuthenticateResponse(ok), false, env);
      }
    case Ready => fate := ReadyFate(cfg, c, q, m, env);
  }

  lemma {:induction false} AskedMore(codec: Codec, handled: seq<Bytes>, payload: Bytes)
    ensures AskedIds(codec, handled + [payload]) == AskedIds(codec, handled) + AskedOne(codec, payload)
  {
    assert (handled + [payload])[..|handled|] == handled;
  }

  lemma {:induction false} DistinctParts(a: seq<string>, b: seq<string>)
    requires Distinct(a + b)
    ensures Distinct(a)
    ensures |b| == 1 ==> b[0] !in a
  {
    forall i, j | 0 <= i < j < |a| ensures a[i] != a[j] {
      assert (a + b)[i] == a[i] && (a + b)[j] == a[j];
    }
    if |b| == 1 {
      forall i | 0 <= i < |a| ensures a[i] != b[0] {
        assert (a + b)[i] == a[i] && (a + b)[|a|] == b[0];
      }
    }
  }

  /** The order law through one message, whatever becomes of it. */
  lemma {:induction false} LawKept(asked: seq<string>, one: seq<string>, replies: seq<Json>, fate: Fate, waiting: seq<string>)
    requires Distinct(asked + one) && |one| <= 1
    requires Lawful(asked, replies) && Remaining(asked, replies) == waiting
    requires fate.Answered? ==> !IsSuccess(fate.reply) && ResponseId(fate.reply) == if one == [] then None else Some(one[0])
    requires fate.Admitted? ==> one == [fate.id]
    ensures fate.Answered? ==>
              Lawful(asked + one, replies + [fate.reply]) && Remaining(asked + one, replies + [fate.reply]) == waiting
    ensures Lawful(asked + one, replies)
    ensures fate.Admitted? ==> Remaining(asked + one, replies) == waiting + [fate.id]
  {
    DistinctParts(asked, one);
    LawfulMore(asked, one, replies);
    RemainingMore(asked, one, replies);
    if fate.Answered? {
      LawfulReply(asked + one, replies, fate.reply);
      if one == [] {
        assert waiting + one == waiting;
      } else {
        if one[0] in waiting { RemainingSubset(asked, replies, one[0]); }
        assert one == [one[0]];
        WithoutLast(waiting, one[0]);
      }
    }
  }

  lemma {:induction false} FateQueued(cfg: Config, c: Conn, q: seq<Work>, id: Option<string>, e: Effect, fate: Fate)
    requires Befalls(cfg, c, q, id, e, fate)
    ensures fate.Admitted? ==> QueuedIds(e.queue, cfg.id) == QueuedIds(q, cfg.id) + [fate.id]
    ensures fate.Answered? ==> QueuedIds(e.queue, cfg.id) == QueuedIds(q, cfg.id)
  {
    if fate.Admitted? {
      PushedIds(q, e.queue[|q|]);
      assert e.queue == q + [e.queue[|q|]];
    }
  }

  lemma {:induction false} FateKeeps(cfg: Config, c: Conn, q: seq<Work>, payload: Bytes, e: Effect, fate: Fate)
    requires OrderInv(cfg, c, QueuedIds(q, cfg.id)) && !c.closed
    requires e.conn.history.handled == c.history.handled + [payload]
    requires var one := AskedOne(cfg.codec, payload);
             Befalls(cfg, c, q, if one == [] then None else Some(one[0]), e, fate)
    ensures OrderInv(cfg, Rescued(e).conn, QueuedIds(e.queue, cfg.id))
  {
    var asked, one := AskedIds(cfg.codec, c.history.handled), AskedOne(cfg.codec, payload);
    AskedMore(cfg.codec, c.history.handled, payload);
    FateQueued(cfg, c, q, if one == [] then None else Some(one[0]), e, fate);
    if Distinct(asked + one) {
      DistinctParts(asked, one);
      LawKept(asked, one, c.history.replies, fate, QueuedIds(q, cfg.id));
    }
  }

  lemma {:induction false} OneFrameOrder(cfg: Config, c: Conn, q: seq<Work>, env: Env)
    requires OrderInv(cfg, c, QueuedIds(q, cfg.id)) && !c.closed && Peel(c.readBuffer).Complete?
    ensures var e := OneFrame(HandlerOf(cfg, env), c, q);
            OrderInv(cfg, Rescued(e).conn, QueuedIds(e.queue, cfg.id))
  {
    var front := Peel(c.readBuffer);
    var t := Taken(c, front.payload, front.rest);
    OneFrameSame(cfg, c, q, env);
    var e := OneFrame(HandlerOf(cfg, env), c, q);
    var fate := Ended;
    match Decode(cfg.codec, front.payload) {
      case None =>
      case Some(m) => fate := MessageFate(cfg, t, q, m, env);
    }
    FateKeeps(cfg, c, q, front.payload, e, fate);
  }

  /** A tick of reading keeps the order. */
  lemma {:induction false} ReadTickOrder(cfg: Config, c: Conn, q: seq<Work>, script: seq<Bridge.ReadResult>, env: Env)
    requires OrderInv(cfg, c, QueuedIds(q, cfg.id))
    ensures var e := ReadTick(cfg, c, q, script, env).0; OrderInv(cfg, e.conn, QueuedIds(e.queue, cfg.id))
  {
    var inv: ConnInv := (x, p) => OrderInv(cfg, x, QueuedIds(p, cfg.id));
    forall x, p | inv(x, p) && !x.closed && Peel(x.readBuffer).Complete?
      ensures inv(Rescued(OneFrame(HandlerOf(cfg, env), x, p)).conn, OneFrame(HandlerOf(cfg, env), x, p).queue)
    {
      OneFrameOrder(cfg, x, p, env);
    }
    DrainerKeeps(inv, HandlerOf(cfg, env));
    ReadPendingKeeps(inv, DrainerOf(HandlerOf(cfg, env)), c, q, script, env.now);
  }

  // ---------- the other ticks ----------

  lemma {:induction false} OrderStays(cfg: Config, c: Conn, c': Conn, waiting: seq<string>)
    requires OrderInv(cfg, c, waiting) && (c.closed ==> c'.closed)
    requires c'.history.handled == c.history.handled
    requires c'.history.replies == c.history.replies && c'.history.answers == c.history.answers
    ensures OrderInv(cfg, c', waiting)
  {
  }

  lemma {:induction false} FlushOrder(cfg: Config, c: Conn, waiting: seq<string>, script: seq<WriteResult>, now: Millis)
    requires OrderInv(cfg, c, waiting) && Writable(c.writeQueue)
    ensures OrderInv(cfg, FlushPending(c, script, now).0, waiting)
  {
    if !c.closed {
      var inv: Conn -> bool := (x: Conn) => OrderInv(cfg, x, waiting);
      WriteLoopKeeps(inv, c, script, 0, now);
    }
  }

  /** The head of the queue was answered, or its connection closed. */
  lemma {:induction false} ServedOrder(cfg: Config, c: Conn, head: string, rest: seq<string>, c': Conn, reply: Json)
    requires OrderInv(cfg, c, [head] + rest)
    requires c'.history.handled == c.history.handled && (c.closed ==> c'.closed)
    requires if c'.closed then c'.history.replies == c.history.replies && c'.history.answers == c.history.answers
             else && ResponseId(reply) == Some(head)
                  && c'.history.replies == c.history.replies + [reply]
                  && c'.history.answers == c.history.answers + [cfg.codec.generate(reply)]
    ensures OrderInv(cfg, c', rest)
  {
    var asked := AskedIds(cfg.codec, c.history.handled);
    if !c'.closed && Distinct(asked) { LawfulReply(asked, c.history.replies, reply); }
  }
}
