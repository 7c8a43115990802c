/**
 What a tick gets done: every request that arrives whole is queued in order, and what the
 socket takes is sent. With one turn of the dispatcher between them, a request is answered.
 */
module Progress {
  import opened Basics
  import opened Json
  import opened Framing
  import opened Protocol
  import opened Bridge
  import opened ConnectionInvariants
  import opened ConnectionRuns
  import opened Dispatcher
  import opened Wire
  import opened Handshakes
  import Mutations

  // ---------- a tick handles all that arrives ----------

  /** Where a tick stands once k of the messages were handled. */
  type Stand = (nat, Conn, seq<Work>) -> bool

  ghost predicate StepsOn(at: Stand, handle: Handler, ps: seq<Bytes>) {
    forall k: nat, c, q {:trigger StepOn(at, handle, ps, k, c, q)} :: StepOn(at, handle, ps, k, c, q)
  }

  ghost predicate StepOn(at: Stand, handle: Handler, ps: seq<Bytes>, k: nat, c: Conn, q: seq<Work>) {
    k < |ps| && at(k, c, q) && Peel(c.readBuffer).Complete? && Peel(c.readBuffer).payload == ps[k] ==>
      var e := OneFrame(handle, c, q);
      !e.raised && at(k + 1, e.conn, e.queue) && e.conn.readBuffer == Peel(c.readBuffer).rest
  }

  ghost predicate StaysOn(at: Stand, now: Millis) {
    && (forall k: nat, c, q, chunk: Chunk {:trigger at(k, Arrived(c, chunk, now), q)} :: at(k, c, q) ==> at(k, Arrived(c, chunk, now), q))
    && (forall k: nat, c, q {:trigger at(k, c, q)} :: at(k, c, q) ==> !c.closed && !c.closeAfterWrite)
  }

  /** A buffer with what is still to come of a stream: its front is the stream's, or not there yet. */
  lemma {:induction false} FrontOf(b: Bytes, more: Bytes, ps: seq<Bytes>)
    requires AllFit(ps) && b + more == Stream(ps)
    ensures !Peel(b).Malformed?
    ensures Peel(b).Complete? ==> ps != [] && Peel(b).payload == ps[0] && Peel(b).rest + more == Stream(ps[1..])
  {
    if !Peel(b).Incomplete? {
      PeelExtends(b, more);
      if ps != [] { PeelFrame(ps[0], Stream(ps[1..])); }
    }
  }

  lemma {:induction false} NextOf(ps: seq<Bytes>, k: nat)
    requires AllFit(ps) && k <= |ps|
    ensures AllFit(ps[k..])
    ensures k < |ps| ==> ps[k..][0] == ps[k] && ps[k..][1..] == ps[k + 1..]
  {
  }

  lemma {:induction false} DrainAll(at: Stand, handle: Handler, ps: seq<Bytes>, k: nat, c: Conn, q: seq<Work>, more: Bytes,
                                    limit: nat, now: Millis)
    requires StepsOn(at, handle, ps) && StaysOn(at, now) && AllFit(ps) && k <= |ps| <= k + limit
    requires at(k, c, q) && c.readBuffer + more == Stream(ps[k..])
    ensures var (e, n) := Drain(handle, c, q, limit);
            && !e.raised && k + n <= |ps| && at(k + n, e.conn, e.queue)
            && Peel(e.conn.readBuffer).Incomplete? && e.conn.readBuffer + more == Stream(ps[k + n..])
    decreases limit
  {
    NextOf(ps, k);
    FrontOf(c.readBuffer, more, ps[k..]);
    if Peel(c.readBuffer).Complete? {
      var e := OneFrame(handle, c, q);
      assert StepOn(at, handle, ps, k, c, q);
      DrainAll(at, handle, ps, k + 1, e.conn, e.queue, more, limit - 1, now);
    }
  }

  /** The chunks of a tick as the socket yields them. */
  function Datas(chunks: seq<Chunk>): seq<Bridge.ReadResult> {
    if chunks == [] then [] else [Data(chunks[0])] + Datas(chunks[1..])
  }

  function Whole(chunks: seq<Chunk>): Bytes {
    if chunks == [] then [] else chunks[0] + Whole(chunks[1..])
  }

  lemma {:induction false} NothingLeft(b: Bytes, ps: seq<Bytes>)
    requires AllFit(ps) && b == Stream(ps) && Peel(b).Incomplete?
    ensures ps == [] && b == []
  {
    if ps != [] { PeelFrame(ps[0], Stream(ps[1..])); }
  }

  lemma {:induction false} ReadOne(at: Stand, handle: Handler, ps: seq<Bytes>, k: nat, c: Conn, q: seq<Work>, chunk: Chunk,
                                   rest: Bytes, now: Millis)
    requires StepsOn(at, handle, ps) && StaysOn(at, now) && AllFit(ps) && k <= |ps| <= MAX_FRAMES
    requires at(k, c, q) && c.readBuffer + (chunk + rest) == Stream(ps[k..]) && chunk != []
    ensures k < MAX_FRAMES
    ensures var (e, n) := DrainerOf(handle)(Arrived(c, chunk, now), q, MAX_FRAMES - k);
            && !e.raised && k + n <= |ps| && at(k + n, e.conn, e.queue)
            && Peel(e.conn.readBuffer).Incomplete? && e.conn.readBuffer + rest == Stream(ps[k + n..])
  {
    NextOf(ps, k);
    assert (c.readBuffer + chunk) + rest == c.readBuffer + (chunk + rest);
    assert |c.readBuffer + (chunk + rest)| > 0;
    assert at(k, Arrived(c, chunk, now), q);
    DrainAll(at, handle, ps, k, Arrived(c, chunk, now), q, rest, MAX_FRAMES - k, now);
  }

  /** The read loop as a value, so that the induction over its turns does not see into it. */
  type Loop = (Conn, seq<Work>, seq<Chunk>, nat, nat) -> Effect

  function LoopOf(drain: Drainer, now: Millis): Loop {
    (c, q, chunks, done: nat, frames: nat) => ReadLoop(drain, c, q, Datas(chunks), done, frames, now).0
  }

  ghost predicate UnrollsAt(loop: Loop, drain: Drainer, now: Millis, c: Conn, q: seq<Work>, chunks: seq<Chunk>, done: nat, k: nat)
    requires k <= MAX_FRAMES
  {
    !c.closed ==>
      if chunks == [] then loop(c, q, [], done, k) == Effect(c, q, false)
      else
        var (e, n) := drain(Arrived(c, chunks[0], now), q, MAX_FRAMES - k);
        done < MAX_READS && k < MAX_FRAMES && chunks[0] != [] && !e.raised ==>
          loop(c, q, chunks, done, k) == loop(e.conn, e.queue, chunks[1..], done + 1, k + n)
  }

  ghost predicate Unrolls(loop: Loop, drain: Drainer, now: Millis) {
    forall c, q, chunks, done: nat, k: nat {:trigger UnrollsAt(loop, drain, now, c, q, chunks, done, k)} ::
      k <= MAX_FRAMES ==> UnrollsAt(loop, drain, now, c, q, chunks, done, k)
  }

  lemma {:induction false} LoopUnrolls(drain: Drainer, now: Millis)
    ensures Unrolls(LoopOf(drain, now), drain, now)
  {
    forall c, q, chunks, done: nat, k: nat | k <= MAX_FRAMES ensures UnrollsAt(LoopOf(drain, now), drain, now, c, q, chunks, done, k) {
      if Receives(c, Datas(chunks), done, k) {
        MiddleTurn(drain, c, q, Datas(chunks), done, k, now);
        assert Datas(chunks)[1..] == Datas(chunks[1..]);
      }
    }
  }

  /** All messages were handled, and nothing is left over. */
  ghost predicate Through(at: Stand, n: nat, e: Effect) {
    !e.raised && at(n, e.conn, e.queue) && e.conn.readBuffer == []
  }

  lemma {:induction false} ReadAll(at: Stand, handle: Handler, loop: Loop, ps: seq<Bytes>, k: nat, c: Conn, q: seq<Work>,
                                   chunks: seq<Chunk>, done: nat, now: Millis)
    requires StepsOn(at, handle, ps) && StaysOn(at, now) && AllFit(ps) && k <= |ps| <= MAX_FRAMES
    requires Unrolls(loop, DrainerOf(handle), now)
    requires at(k, c, q) && Peel(c.readBuffer).Incomplete? && c.readBuffer + Whole(chunks) == Stream(ps[k..])
    requires done + |chunks| <= MAX_READS && forall i :: 0 <= i < |chunks| ==> chunks[i] != []
    ensures Through(at, |ps|, loop(c, q, chunks, done, k))
    decreases |chunks|
  {
    var drain := DrainerOf(handle);
    assert UnrollsAt(loop, drain, now, c, q, chunks, done, k);
    if chunks == [] {
      assert c.readBuffer + [] == c.readBuffer;
      NextOf(ps, k);
      NothingLeft(c.readBuffer, ps[k..]);
    } else {
      ReadOne(at, handle, ps, k, c, q, chunks[0], Whole(chunks[1..]), now);
      var (e, n) := drain(Arrived(c, chunks[0], now), q, MAX_FRAMES - k);
      ReadAll(at, handle, loop, ps, k + n, e.conn, e.queue, chunks[1..], done + 1, now);
    }
  }

  /** A tick that receives a whole number of messages, in at most eight reads, handles them all. */
  lemma {:induction false} TickAll(at: Stand, handle: Handler, ps: seq<Bytes>, c: Conn, q: seq<Work>, chunks: seq<Chunk>, now: Millis)
    requires StepsOn(at, handle, ps) && StaysOn(at, now) && AllFit(ps) && |ps| <= MAX_FRAMES
    requires at(0, c, q) && c.readBuffer == [] && Whole(chunks) == Stream(ps)
    requires |chunks| <= MAX_READS && forall i :: 0 <= i < |chunks| ==> chunks[i] != []
    ensures Through(at, |ps|, ReadPending(DrainerOf(handle), c, q, Datas(chunks), now).0)
  {
    assert ps[0..] == ps && c.readBuffer + Whole(chunks) == Whole(chunks);
    assert DrainerOf(handle)(c, q, MAX_FRAMES) == (Effect(c, q, false), 0);
    LoopUnrolls(DrainerOf(handle), now);
    ReadAll(at, handle, LoopOf(DrainerOf(handle), now), ps, 0, c, q, chunks, 0, now);
  }

  // ---------- requests ----------

  /** The payload is this request, for this bridge. */
  ghost predicate Requests(cfg: Config, payload: Bytes, r: Request) {
    && Decode(cfg.codec, payload).Some? && ValidateRequest(Decode(cfg.codec, payload).value) == Accepted(r)
    && r.sessionId == cfg.sessionId
  }

  /** The Go client's own request message is such a payload. */
  lemma {:induction false} ClientRequests(cfg: Config, payload: Bytes, r: Request)
    requires cfg.codec.parse(payload) == Some(RequestMessage(r.id, r.sessionId, r.operation, r.timeoutMs, r.payload))
    requires IsUuid(r.id) && IsUuid(r.sessionId) && 1 <= Mutations.ByteSize(r.operation) <= 128
    requires 100 <= r.timeoutMs <= 30_000 && r.payload.Obj? && r.sessionId == cfg.sessionId
    ensures Requests(cfg, payload, r)
  {
    RequestSent(r.id, r.sessionId, r.operation, r.timeoutMs, r.payload);
  }

  /** There is room for all these requests, and none of their ids is in use. */
  ghost predicate Welcome(cfg: Config, c: Conn, q: seq<Work>, rs: seq<Request>, ps: seq<Bytes>) {
    && |rs| == |ps| && |c.outstanding| + |rs| <= 32 && |q| + |rs| <= 128
    && (forall i :: 0 <= i < |rs| ==> Requests(cfg, ps[i], rs[i]) && rs[i].id !in c.outstanding)
    && (forall i, j :: 0 <= i < j < |rs| ==> rs[i].id != rs[j].id)
  }

  function WorkOf(cfg: Config, r: Request, clock: Millis): Work {
    Work(cfg.id, r.id, r.operation, r.payload, clock + r.timeoutMs)
  }

  /** The first k requests as work. */
  function Works(cfg: Config, rs: seq<Request>, k: nat, clock: Millis): seq<Work>
    requires k <= |rs|
  {
    if k == 0 then [] else Works(cfg, rs, k - 1, clock) + [WorkOf(cfg, rs[k - 1], clock)]
  }

  function Held(ids: set<string>, rs: seq<Request>, k: nat): set<string>
    requires k <= |rs|
  {
    if k == 0 then ids else Held(ids, rs, k - 1) + {rs[k - 1].id}
  }

  lemma {:induction false} HeldFew(ids: set<string>, rs: seq<Request>, k: nat)
    requires k <= |rs|
    ensures |Held(ids, rs, k)| <= |ids| + k
    ensures forall id :: id in Held(ids, rs, k) ==> id in ids || exists i :: 0 <= i < k && rs[i].id == id
  {
    if k > 0 { HeldFew(ids, rs, k - 1); }
  }

  /** The connection and the queue after the first k requests. */
  ghost predicate Queueing(cfg: Config, c0: Conn, q0: seq<Work>, rs: seq<Request>, ps: seq<Bytes>, clock: Millis,
                           k: nat, c: Conn, q: seq<Work>) {
    && k <= |rs| == |ps|
    && c.phase == Ready && !c.closed && !c.closeAfterWrite && c.outstanding == Held(c0.outstanding, rs, k)
    && q == q0 + Works(cfg, rs, k, clock) && c.history.handled == c0.history.handled + ps[..k]
    && c.history.replies == c0.history.replies && c.writeQueue == c0.writeQueue && c.pending == c0.pending
    && c.history.sent == c0.history.sent
  }

  lemma {:induction false} WorksNext(cfg: Config, q0: seq<Work>, rs: seq<Request>, k: nat, clock: Millis)
    requires k < |rs|
    ensures q0 + Works(cfg, rs, k + 1, clock) == (q0 + Works(cfg, rs, k, clock)) + [WorkOf(cfg, rs[k], clock)]
  {
  }

  lemma {:induction false} WorksLong(cfg: Config, rs: seq<Request>, k: nat, clock: Millis)
    requires k <= |rs|
    ensures |Works(cfg, rs, k, clock)| == k
  {
    if k > 0 { WorksLong(cfg, rs, k - 1, clock); }
  }

  lemma {:induction false} RequestAdmitted(cfg: Config, c: Conn, q: seq<Work>, payload: Bytes, r: Request, env: Env)
    requires Requests(cfg, payload, r) && c.phase == Ready && !c.closed
    requires r.id !in c.outstanding && |c.outstanding| < 32 && |q| < 128
    ensures HandlePayload(cfg, c, q, payload, env) == Effect(Reserve(c, r.id), q + [WorkOf(cfg, r, env.clock)], false)
  {
  }

  lemma {:induction false} OneAdmitted(cfg: Config, c: Conn, q: seq<Work>, r: Request, env: Env)
    requires Peel(c.readBuffer).Complete? && Requests(cfg, Peel(c.readBuffer).payload, r) && c.phase == Ready && !c.closed
    requires r.id !in c.outstanding && |c.outstanding| < 32 && |q| < 128
    ensures var front := Peel(c.readBuffer);
            OneFrame(HandlerOf(cfg, env), c, q) ==
            Effect(Reserve(Taken(c, front.payload, front.rest), r.id), q + [WorkOf(cfg, r, env.clock)], false)
  {
    RequestAdmitted(cfg, Taken(c, Peel(c.readBuffer).payload, Peel(c.readBuffer).rest), q, Peel(c.readBuffer).payload, r, env);
  }

  lemma {:induction false} HeldRoom(cfg: Config, c0: Conn, q0: seq<Work>, rs: seq<Request>, ps: seq<Bytes>, clock: Millis, k: nat)
    requires Welcome(cfg, c0, q0, rs, ps) && k < |rs|
    ensures rs[k].id !in Held(c0.outstanding, rs, k) && |Held(c0.outstanding, rs, k)| < 32
    ensures |q0 + Works(cfg, rs, k, clock)| < 128
  {
    HeldFew(c0.outstanding, rs, k);
    WorksLong(cfg, rs, k, clock);
  }

  lemma {:induction false} QueueingNext(cfg: Config, c0: Conn, q0: seq<Work>, rs: seq<Request>, ps: seq<Bytes>, clock: Millis,
                                        k: nat, c: Conn, q: seq<Work>, rest: Bytes)
    requires k < |rs| && Queueing(cfg, c0, q0, rs, ps, clock, k, c, q)
    ensures Queueing(cfg, c0, q0, rs, ps, clock, k + 1, Reserve(Taken(c, ps[k], rest), rs[k].id), q + [WorkOf(cfg, rs[k], clock)])
  {
    WorksNext(cfg, q0, rs, k, clock);
    assert ps[..k + 1] == ps[..k] + [ps[k]];
    assert c0.history.handled + (ps[..k] + [ps[k]]) == (c0.history.handled + ps[..k]) + [ps[k]];
  }

  lemma {:induction false} OneQueued(cfg: Config, c0: Conn, q0: seq<Work>, rs: seq<Request>, ps: seq<Bytes>, env: Env,
                                     k: nat, c: Conn, q: seq<Work>)
    requires Welcome(cfg, c0, q0, rs, ps) && k < |rs| && Queueing(cfg, c0, q0, rs, ps, env.clock, k, c, q)
    requires Peel(c.readBuffer).Complete? && Peel(c.readBuffer).payload == ps[k]
    ensures var e := OneFrame(HandlerOf(cfg, env), c, q);
            && !e.raised && e.conn.readBuffer == Peel(c.readBuffer).rest
            && Queueing(cfg, c0, q0, rs, ps, env.clock, k + 1, e.conn, e.queue)
  {
    HeldRoom(cfg, c0, q0, rs, ps, env.clock, k);
    OneAdmitted(cfg, c, q, rs[k], env);
    QueueingNext(cfg, c0, q0, rs, ps, env.clock, k, c, q, Peel(c.readBuffer).rest);
  }

  lemma {:induction false} ArrivalQueueing(cfg: Config, c0: Conn, q0: seq<Work>, rs: seq<Request>, ps: seq<Bytes>, clock: Millis,
                                           k: nat, c: Conn, q: seq<Work>, chunk: Chunk, now: Millis)
    requires Queueing(cfg, c0, q0, rs, ps, clock, k, c, q)
    ensures Queueing(cfg, c0, q0, rs, ps, clock, k, Arrived(c, chunk, now), q)
  {
  }

  ghost predicate MeansQueueing(at: Stand, cfg: Config, c0: Conn, q0: seq<Work>, rs: seq<Request>, ps: seq<Bytes>, clock: Millis) {
    forall k: nat, c, q {:trigger at(k, c, q)} :: at(k, c, q) == Queueing(cfg, c0, q0, rs, ps, clock, k, c, q)
  }

  lemma {:induction false} QueueStep(at: Stand, cfg: Config, c0: Conn, q0: seq<Work>, rs: seq<Request>, ps: seq<Bytes>, env: Env,
                                     k: nat, c: Conn, q: seq<Work>)
    requires Welcome(cfg, c0, q0, rs, ps) && MeansQueueing(at, cfg, c0, q0, rs, ps, env.clock)
    ensures StepOn(at, HandlerOf(cfg, env), ps, k, c, q)
  {
    if k < |ps| && at(k, c, q) && Peel(c.readBuffer).Complete? && Peel(c.readBuffer).payload == ps[k] {
      OneQueued(cfg, c0, q0, rs, ps, env, k, c, q);
    }
  }

  lemma {:induction false} QueueSteps(at: Stand, cfg: Config, c0: Conn, q0: seq<Work>, rs: seq<Request>, ps: seq<Bytes>, env: Env)
    requires Welcome(cfg, c0, q0, rs, ps) && MeansQueueing(at, cfg, c0, q0, rs, ps, env.clock)
    ensures StepsOn(at, HandlerOf(cfg, env), ps) && StaysOn(at, env.now)
  {
    forall k: nat, c, q ensures StepOn(at, HandlerOf(cfg, env), ps, k, c, q) {
      QueueStep(at, cfg, c0, q0, rs, ps, env, k, c, q);
    }
    forall k: nat, c, q, chunk: Chunk | at(k, c, q) ensures at(k, Arrived(c, chunk, env.now), q) {
      ArrivalQueueing(cfg, c0, q0, rs, ps, env.clock, k, c, q, chunk, env.now);
    }
  }

  lemma {:induction false} QueueingStarts(cfg: Config, c: Conn, q: seq<Work>, rs: seq<Request>, ps: seq<Bytes>, clock: Millis)
    requires |rs| == |ps| && c.phase == Ready && Idle(c)
    ensures Queueing(cfg, c, q, rs, ps, clock, 0, c, q)
  {
    assert ps[..0] == [] && q + [] == q && c.history.handled + [] == c.history.handled;
  }

  /** After the whole batch. */
  ghost predicate AllQueued(cfg: Config, c: Conn, q: seq<Work>, rs: seq<Request>, ps: seq<Bytes>, clock: Millis, e: Effect) {
    && e.queue == q + Works(cfg, rs, |rs|, clock) && Idle(e.conn) && e.conn.phase == Ready && !e.raised
    && e.conn.outstanding == Held(c.outstanding, rs, |rs|)
    && e.conn.history.handled == c.history.handled + ps && e.conn.history.replies == c.history.replies
    && e.conn.writeQueue == c.writeQueue && e.conn.pending == c.pending && e.conn.history.sent == c.history.sent
  }

  lemma {:induction false} QueueingEnds(cfg: Config, c: Conn, q: seq<Work>, rs: seq<Request>, ps: seq<Bytes>, clock: Millis, e: Effect)
    requires |rs| == |ps| && Queueing(cfg, c, q, rs, ps, clock, |ps|, e.conn, e.queue) && e.conn.readBuffer == [] && !e.raised
    ensures AllQueued(cfg, c, q, rs, ps, clock, e)
  {
    assert ps[..|ps|] == ps;
  }

  /**
   A tick of a ready connection queues all the requests that arrive in it, in their order, each
   with its own deadline, however their bytes are cut into at most eight reads.
   */
  lemma {:induction false} TickQueues(cfg: Config, c: Conn, q: seq<Work>, rs: seq<Request>, ps: seq<Bytes>, chunks: seq<Chunk>, env: Env)
    requires Welcome(cfg, c, q, rs, ps) && AllFit(ps) && c.phase == Ready && Idle(c)
    requires Whole(chunks) == Stream(ps) && |chunks| <= 8 && forall i :: 0 <= i < |chunks| ==> chunks[i] != []
    ensures AllQueued(cfg, c, q, rs, ps, env.clock, ReadTick(cfg, c, q, Datas(chunks), env).0)
  {
    var at: Stand := (k: nat, x, p) => Queueing(cfg, c, q, rs, ps, env.clock, k, x, p);
    QueueSteps(at, cfg, c, q, rs, ps, env);
    QueueingStarts(cfg, c, q, rs, ps, env.clock);
    assert at(0, c, q);
    TickAll(at, HandlerOf(cfg, env), ps, c, q, chunks, env.now);
    QueueingEnds(cfg, c, q, rs, ps, env.clock, ReadTick(cfg, c, q, Datas(chunks), env).0);
  }

  lemma {:induction false} HeldAll(ids: set<string>, rs: seq<Request>, k: nat)
    requires k <= |rs|
    ensures forall i :: 0 <= i < k ==> rs[i].id in Held(ids, rs, k)
  {
    if k > 0 { HeldAll(ids, rs, k - 1); }
  }

  // ---------- a flush sends all that the socket takes ----------

  /** The socket takes each of the first k waiting responses whole. */
  predicate Takes(wq: seq<Item>, script: seq<WriteResult>, k: nat) {
    && k <= |wq| && k <= |script|
    && forall i :: 0 <= i < k ==> script[i].Wrote? && script[i].count >= |Left(wq[i])| > 0
  }

  function IdsOf(id: Option<string>): set<string> {
    match id
    case None => {}
    case Some(i) => {i}
  }

  /** The ids freed by sending these responses. */
  function Freed(wq: seq<Item>): set<string> {
    if wq == [] then {} else IdsOf(wq[0].releaseId) + Freed(wq[1..])
  }

  /** The connection once its first k responses were sent. */
  function Sent(c: Conn, k: nat, now: Millis): Conn
    requires k <= |c.writeQueue|
  {
    var out := c.writeQueue[..k];
    c.(writeQueue := c.writeQueue[k..], pending := c.pending - |Unsent(out)|, outstanding := c.outstanding - Freed(out),
       lastWriteAt := if k == 0 then c.lastWriteAt else now,
       history := c.history.(sent := c.history.sent + Unsent(out)))
  }

  lemma {:induction false} FirstOf(wq: seq<Item>)
    requires wq != []
    ensures Unsent(wq[..1]) == Left(wq[0]) && Freed(wq[..1]) == IdsOf(wq[0].releaseId)
  {
    assert wq[..1] == [wq[0]] && wq[..1][1..] == [];
    assert Left(wq[0]) + [] == Left(wq[0]);
    assert IdsOf(wq[0].releaseId) + {} == IdsOf(wq[0].releaseId);
  }

  lemma {:induction false} WholeItem(c: Conn, count: nat, now: Millis)
    requires Writable(c.writeQueue) && c.writeQueue != [] && count >= |Left(c.writeQueue[0])|
    ensures count > 0
    ensures Written(c, Portion(c.writeQueue, count), now) == Sent(c, 1, now)
  {
    var n := Portion(c.writeQueue, count);
    FirstOf(c.writeQueue);
    assert HeadBytes(c.writeQueue, n) == Left(c.writeQueue[0]);
    assert c.outstanding - {} == c.outstanding;
  }

  lemma {:induction false} SplitNext(wq: seq<Item>, k: nat)
    requires k < |wq|
    ensures Unsent(wq[..k + 1]) == Unsent(wq[..1]) + Unsent(wq[1..][..k])
    ensures Freed(wq[..k + 1]) == Freed(wq[..1]) + Freed(wq[1..][..k])
  {
    FirstOf(wq);
    assert wq[..k + 1][0] == wq[0] && wq[..k + 1][1..] == wq[1..][..k];
  }

  lemma {:induction false} MinusTwice(a: set<string>, b: set<string>, c: set<string>)
    ensures (a - b) - c == a - (b + c)
  {
  }

  lemma {:induction false} SentNext(c: Conn, k: nat, now: Millis)
    requires k < |c.writeQueue|
    ensures Sent(Sent(c, 1, now), k, now) == Sent(c, k + 1, now)
  {
    var wq := c.writeQueue;
    assert wq[1..][k..] == wq[k + 1..];
    SplitNext(wq, k);
    ConnectionInvariants.Assoc(c.history.sent, Unsent(wq[..1]), Unsent(wq[1..][..k]));
    MinusTwice(c.outstanding, Freed(wq[..1]), Freed(wq[1..][..k]));
  }

  lemma {:induction false} SentNone(c: Conn, now: Millis)
    ensures Sent(c, 0, now) == c
  {
    assert c.writeQueue[..0] == [] && c.history.sent + [] == c.history.sent && c.outstanding - {} == c.outstanding;
  }

  lemma {:induction false} LoopDelivers(c: Conn, script: seq<WriteResult>, writes: nat, k: nat, now: Millis)
    requires Writable(c.writeQueue) && Takes(c.writeQueue, script, k) && writes + k <= MAX_WRITES
    requires writes + k == MAX_WRITES || k == |c.writeQueue|
    ensures var (c', n, fault) := WriteLoop(c, script, writes, now);
            !fault && c' == Sent(c, k, now)
    decreases k
  {
    if k == 0 {
      SentNone(c, now);
    } else {
      WholeItem(c, script[0].count, now);
      WrittenWritable(c, Portion(c.writeQueue, script[0].count), now);
      LoopDelivers(Sent(c, 1, now), script[1..], writes + 1, k - 1, now);
      SentNext(c, k - 1, now);
    }
  }

  /**
   A flush sends the first eight of the waiting responses, or all, if the socket takes them; the
   connection closes exactly if it was to close after its last response and that is sent.
   */
  lemma {:induction false} FlushDelivers(c: Conn, script: seq<WriteResult>, now: Millis, k: nat)
    requires !c.closed && Writable(c.writeQueue) && Takes(c.writeQueue, script, k)
    requires k == if |c.writeQueue| < 8 then |c.writeQueue| else 8
    ensures var c' := FlushPending(c, script, now).0;
            if c.closeAfterWrite && |c.writeQueue| <= 8 then c' == Close(Sent(c, k, now)) else c' == Sent(c, k, now)
  {
    LoopDelivers(c, script, 0, k, now);
  }

  // ---------- one request, all the way ----------

  /** A ready connection at rest. */
  predicate AtRest(c: Conn) {
    Idle(c) && c.phase == Ready && c.writeQueue == [] && c.pending == 0
  }

  lemma {:induction false} StreamOfOne(payload: Bytes)
    requires Fits(payload)
    ensures AllFit([payload]) && Stream([payload]) == Frame(payload)
  {
    assert [payload][1..] == [] && Frame(payload) + [] == Frame(payload);
  }

  lemma {:induction false} WelcomeOne(cfg: Config, c: Conn, r: Request, payload: Bytes)
    requires Requests(cfg, payload, r) && r.id !in c.outstanding && |c.outstanding| < 32
    ensures Welcome(cfg, c, [], [r], [payload])
  {
  }

  lemma {:induction false} OneOf(cfg: Config, ids: set<string>, r: Request, clock: Millis)
    ensures Held(ids, [r], 1) == ids + {r.id} && [] + Works(cfg, [r], 1, clock) == [WorkOf(cfg, r, clock)]
  {
    assert Held(ids, [r], 0) == ids && Works(cfg, [r], 0, clock) == [];
  }

  /** The only request in sight, queued. */
  ghost predicate Waits(cfg: Config, c: Conn, r: Request, clock: Millis, e: Effect) {
    && e.queue == [WorkOf(cfg, r, clock)] && AtRest(e.conn) && e.conn.outstanding == c.outstanding + {r.id}
    && e.conn.history.replies == c.history.replies && e.conn.history.sent == c.history.sent
  }

  lemma {:induction false} OneArrives(cfg: Config, c: Conn, r: Request, payload: Bytes, chunks: seq<Chunk>, env: Env)
    requires AtRest(c) && Requests(cfg, payload, r) && Fits(payload) && r.id !in c.outstanding && |c.outstanding| < 32
    requires Whole(chunks) == Frame(payload) && |chunks| <= 8 && forall i :: 0 <= i < |chunks| ==> chunks[i] != []
    ensures Waits(cfg, c, r, env.clock, ReadTick(cfg, c, [], Datas(chunks), env).0)
  {
    StreamOfOne(payload);
    WelcomeOne(cfg, c, r, payload);
    TickQueues(cfg, c, [], [r], [payload], chunks, env);
    OneOf(cfg, c.outstanding, r, env.clock);
  }

  /** The response of the command, and only this, was sent; its id is free again. */
  ghost predicate Answered(codec: Codec, c: Conn, c': Conn, id: string, reply: Mutations.Reply)
    requires Fits(codec.generate(ReplyResponse(id, reply)))
  {
    && c'.history.sent == c.history.sent + Frame(codec.generate(ReplyResponse(id, reply)))
    && c'.history.replies == c.history.replies + [ReplyResponse(id, reply)]
    && c'.outstanding == c.outstanding && c'.writeQueue == [] && Idle(c') && c'.phase == Ready
  }

  lemma {:induction false} OneSent(codec: Codec, c0: Conn, c: Conn, c': Conn, id: string, reply: Mutations.Reply, count: nat, now: Millis)
    requires Fits(codec.generate(ReplyResponse(id, reply))) && id !in c0.outstanding && c.outstanding == c0.outstanding + {id}
    requires AtRest(c) && c.history.replies == c0.history.replies && c.history.sent == c0.history.sent
    requires AnsweredOnce(codec, c, c', id, ReplyResponse(id, reply)) && OnlyAnswers(c, c') && c'.history.sent == c.history.sent
    requires count >= 4 + |codec.generate(ReplyResponse(id, reply))|
    ensures Writable(c'.writeQueue) && Answered(codec, c0, FlushPending(c', [Wrote(count)], now).0, id, reply)
  {
    var frame := Frame(codec.generate(ReplyResponse(id, reply)));
    assert c'.writeQueue == [Item(frame, 0, Some(id))] && frame[0..] == frame;
    FirstOf(c'.writeQueue);
    FlushDelivers(c', [Wrote(count)], now, 1);
  }

  lemma {:induction false} OneAnswered(codec: Codec, c: Conn, w: Mutations.World, work: Work, clock: Millis, world: Mutations.World,
                                       reply: Mutations.Reply)
    requires AtRest(c) && IsUuid(work.id) && clock < work.deadline && Fits(codec.generate(ReplyResponse(work.id, reply)))
    ensures var (c', w', escaped) := Process(codec, c, w, work, clock, Ran(world, Some(reply)));
            && AnsweredOnce(codec, c, c', work.id, ReplyResponse(work.id, reply)) && OnlyAnswers(c, c')
            && c'.history.sent == c.history.sent && w' == world && !escaped
  {
    ReplyResponseId(work.id, reply);
  }

  /**
   A request on a connection at rest, in any cut of its bytes, with one turn of the dispatcher
   before its deadline and one flush: the socket gets exactly the frame of its own response, the id
   is free again, and the client that decodes it gets an answer exactly for a success it can decode
   and a refusal exactly for a failure.
   */
  lemma {:induction false} RequestAnswered(cfg: Config, c: Conn, r: Request, payload: Bytes, chunks: seq<Chunk>, env: Env,
                                           w: Mutations.World, clock: Millis, world: Mutations.World, reply: Mutations.Reply,
                                           count: nat, flushed: Millis, decode: Decoder)
    requires AtRest(c) && Requests(cfg, payload, r) && Fits(payload) && r.id !in c.outstanding && |c.outstanding| < 32
    requires Whole(chunks) == Frame(payload) && |chunks| <= 8 && forall i :: 0 <= i < |chunks| ==> chunks[i] != []
    requires clock < env.clock + r.timeoutMs && Fits(cfg.codec.generate(ReplyResponse(r.id, reply)))
    requires count >= 4 + |cfg.codec.generate(ReplyResponse(r.id, reply))|
    ensures var e := ReadTick(cfg, c, [], Datas(chunks), env).0;
            && |e.queue| == 1 && e.queue[0].operation == r.operation && e.queue[0].payload == r.payload
            && var (c', w', escaped) := Process(cfg.codec, e.conn, w, e.queue[0], clock, Ran(world, Some(reply)));
            && w' == world && !escaped && Writable(c'.writeQueue)
            && Answered(cfg.codec, c, FlushPending(c', [Wrote(count)], flushed).0, r.id, reply)
    ensures var result := Received(ReplyResponse(r.id, reply), r.id, decode);
            && (result.Refusal? <==> reply.Failure?)
            && (result.Answer? <==> reply.Success? && decode(Obj(reply.payload)).Some?)
  {
    var e := ReadTick(cfg, c, [], Datas(chunks), env).0;
    AcceptedClamped(Decode(cfg.codec, payload).value);
    OneArrives(cfg, c, r, payload, chunks, env);
    OneAnswered(cfg.codec, e.conn, w, e.queue[0], clock, world, reply);
    var c' := Process(cfg.codec, e.conn, w, e.queue[0], clock, Ran(world, Some(reply))).0;
    OneSent(cfg.codec, c, e.conn, c', r.id, reply, count, flushed);
    ReplyReceived(r.id, reply, decode);
  }
}
