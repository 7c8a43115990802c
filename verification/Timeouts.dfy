/**
 The three timeouts of a connection over whole runs, in terms of what went over the wire: when
 it was accepted, when bytes last came in, and when bytes last went out or began to wait.
 */
module Timeouts {
  import opened Basics
  import opened Json
  import opened Framing
  import opened Protocol
  import opened Bridge
  import opened ConnectionRuns
  import opened Dispatcher
  import opened System
  import opened SystemRuns
  import Mutations

  // ---------- what one tick does to the clocks of a connection ----------

  predicate Hearing(c: Conn, c': Conn) {
    |c'.history.received| > |c.history.received|
  }

  /** Bytes went out, or there are bytes to go out where there were none. */
  predicate Moving(c: Conn, c': Conn) {
    |c'.history.sent| > |c.history.sent| || (c.writeQueue == [] && c'.writeQueue != [])
  }

  /** While the connection stays open its clocks follow the bytes. */
  ghost predicate Clocked(c: Conn, c': Conn, heardAt: Millis, movedAt: Millis) {
    && (c.closed ==> c'.closed)
    && (!c'.closed ==>
          && c'.connectedAt == c.connectedAt
          && c'.lastReadAt == (if Hearing(c, c') then heardAt else c.lastReadAt)
          && (c'.writeQueue != [] ==> c'.lastWriteAt == if Moving(c, c') then movedAt else c.lastWriteAt))
  }

  /** Reading and answering: nothing goes out, and responses are added at the end of the queue. */
  ghost predicate Adds(c: Conn, c': Conn, movedAt: Millis) {
    && (c.closed ==> c'.closed)
    && (!c'.closed ==>
          && c'.connectedAt == c.connectedAt && c'.history.sent == c.history.sent && c.writeQueue <= c'.writeQueue
          && c'.lastWriteAt == if c.writeQueue == [] && c'.writeQueue != [] then movedAt else c.lastWriteAt)
  }

  ghost predicate Hears(c: Conn, c': Conn, heardAt: Millis) {
    && |c.history.received| <= |c'.history.received|
    && c'.lastReadAt == if Hearing(c, c') then heardAt else c.lastReadAt
  }

  lemma {:induction false} EnqueueAdds(codec: Codec, c0: Conn, c: Conn, response: Json, release: bool, clock: Millis)
    requires Adds(c0, c, clock)
    ensures Adds(c0, Enqueue(codec, c, response, release, clock).0, clock)
    ensures Enqueue(codec, c, response, release, clock).0.history.received == c.history.received
    ensures Enqueue(codec, c, response, release, clock).0.lastReadAt == c.lastReadAt
  {
  }

  /** Adds and Hears at once. */
  ghost predicate Reads(c: Conn, c': Conn, heardAt: Millis, movedAt: Millis) {
    Adds(c, c', movedAt) && Hears(c, c', heardAt)
  }

  lemma {:induction false} RespondReads(cfg: Config, c0: Conn, c: Conn, q: seq<Work>, response: Json, release: bool, env: Env)
    requires Reads(c0, c, env.now, env.clock)
    ensures Reads(c0, Bridge.Respond(cfg, c, q, response, release, env).conn, env.now, env.clock)
  {
    EnqueueAdds(cfg.codec, c0, c, response, release, env.clock);
  }

  lemma {:induction false} SameReads(c0: Conn, c: Conn, c': Conn, heardAt: Millis, movedAt: Millis)
    requires Reads(c0, c, heardAt, movedAt)
    requires c'.history.received == c.history.received && c'.lastReadAt == c.lastReadAt && (c.closed ==> c'.closed)
    requires !c'.closed ==> c'.connectedAt == c.connectedAt && c'.history.sent == c.history.sent
                            && c'.writeQueue == c.writeQueue && c'.lastWriteAt == c.lastWriteAt
    ensures Reads(c0, c', heardAt, movedAt)
  {
  }

  lemma {:induction false} RequestReads(cfg: Config, c0: Conn, c: Conn, q: seq<Work>, r: Request, env: Env)
    requires Reads(c0, c, env.now, env.clock)
    ensures Reads(c0, HandleRequest(cfg, c, q, r, env).conn, env.now, env.clock)
  {
    SameReads(c0, c, Reserve(c, r.id), env.now, env.clock);
    match Rule(cfg, c, q, r, env)
    case Refuse(code, message, release) =>
      RespondReads(cfg, c0, if release then Reserve(c, r.id) else c, q, ErrorResponse(r.id, code, message, []), release, env);
    case Admit(_) =>
  }

  lemma {:induction false} ReadyReads(cfg: Config, c0: Conn, c: Conn, q: seq<Work>, m: seq<Field>, env: Env)
    requires c.phase == Ready && Reads(c0, c, env.now, env.clock)
    ensures Reads(c0, HandleMessage(cfg, c, q, m, env).conn, env.now, env.clock)
  {
    match ValidateRequest(m)
    case Accepted(r) => RequestReads(cfg, c0, c, q, r, env);
    case Rejected(Some(id), code, message) => RespondReads(cfg, c0, c, q, ErrorResponse(id, code, message, []), false, env);
    case Rejected(None, _, _) => SameReads(c0, c, Close(c), env.now, env.clock);
  }

  lemma {:induction false} HelloReads(cfg: Config, c0: Conn, c: Conn, q: seq<Work>, m: seq<Field>, env: Env)
    requires Reads(c0, c, env.now, env.clock)
    ensures Reads(c0, HandleHello(cfg, c, q, m, env).conn, env.now, env.clock)
  {
    SameReads(c0, c, Close(c), env.now, env.clock);
    var e := Bridge.Respond(cfg, c, q, HelloResponse(cfg.sessionId, env.nonce), false, env);
    RespondReads(cfg, c0, c, q, HelloResponse(cfg.sessionId, env.nonce), false, env);
    SameReads(c0, e.conn, e.conn.(phase := AwaitAuthenticate), env.now, env.clock);
  }

  lemma {:induction false} AuthenticateReads(cfg: Config, c0: Conn, c: Conn, q: seq<Work>, m: seq<Field>, env: Env)
    requires Reads(c0, c, env.now, env.clock)
    ensures Reads(c0, HandleAuthenticate(cfg, c, q, m, env).conn, env.now, env.clock)
  {
    SameReads(c0, c, Close(c), env.now, env.clock);
    var right := cfg.codec.utf8(Token(m)) == cfg.codec.utf8(cfg.token);
    var e := Bridge.Respond(cfg, c, q, AuthenticateResponse(right), false, env);
    RespondReads(cfg, c0, c, q, AuthenticateResponse(right), false, env);
    SameReads(c0, e.conn, e.conn.(phase := Ready), env.now, env.clock);
    SameReads(c0, e.conn, e.conn.(closeAfterWrite := true), env.now, env.clock);
  }

  lemma {:induction false} MessageReads(cfg: Config, c0: Conn, c: Conn, q: seq<Work>, m: seq<Field>, env: Env)
    requires Reads(c0, c, env.now, env.clock)
    ensures Reads(c0, HandleMessage(cfg, c, q, m, env).conn, env.now, env.clock)
  {
    match c.phase
    case AwaitHello => HelloReads(cfg, c0, c, q, m, env);
    case AwaitAuthenticate => AuthenticateReads(cfg, c0, c, q, m, env);
    case Ready => ReadyReads(cfg, c0, c, q, m, env);
  }

  lemma {:induction false} FrameReads(cfg: Config, c0: Conn, c: Conn, q: seq<Work>, env: Env)
    requires Reads(c0, c, env.now, env.clock) && Peel(c.readBuffer).Complete?
    ensures Reads(c0, Rescued(OneFrame(HandlerOf(cfg, env), c, q)).conn, env.now, env.clock)
  {
    var front := Peel(c.readBuffer);
    var t, e := Taken(c, front.payload, front.rest), OneFrame(HandlerOf(cfg, env), c, q);
    SameReads(c0, c, t, env.now, env.clock);
    match Decode(cfg.codec, front.payload) {
      case None =>
      case Some(m) => MessageReads(cfg, c0, t, q, m, env);
    }
    SameReads(c0, e.conn, Rescued(e).conn, env.now, env.clock);
  }

  lemma {:induction false} ArrivalReads(c0: Conn, c: Conn, chunk: Chunk, now: Millis, clock: Millis)
    requires Reads(c0, c, now, clock) && chunk != []
    ensures Reads(c0, Arrived(c, chunk, now), now, clock)
  {
  }

  // ---------- the ticks ----------

  lemma {:induction false} ReadsClocked(c: Conn, c': Conn, heardAt: Millis, movedAt: Millis)
    requires Reads(c, c', heardAt, movedAt)
    ensures Clocked(c, c', heardAt, movedAt)
  {
  }

  lemma {:induction false} ReadTickClocked(cfg: Config, c: Conn, q: seq<Work>, script: seq<Bridge.ReadResult>, env: Env)
    ensures Clocked(c, ReadTick(cfg, c, q, script, env).0.conn, env.now, env.clock)
  {
    var inv: ConnInv := (x, p) => Reads(c, x, env.now, env.clock);
    forall x, p | inv(x, p) && !x.closed && Peel(x.readBuffer).Complete?
      ensures inv(Rescued(OneFrame(HandlerOf(cfg, env), x, p)).conn, OneFrame(HandlerOf(cfg, env), x, p).queue)
    {
      FrameReads(cfg, c, x, p, env);
    }
    forall x, p | inv(x, p) ensures inv(Close(x), p) {
      SameReads(c, x, Close(x), env.now, env.clock);
    }
    forall x, p, chunk: Chunk | inv(x, p) && !x.closed && chunk != [] ensures inv(Arrived(x, chunk, env.now), p) {
      ArrivalReads(c, x, chunk, env.now, env.clock);
    }
    DrainerKeeps(inv, HandlerOf(cfg, env));
    ReadPendingKeeps(inv, DrainerOf(HandlerOf(cfg, env)), c, q, script, env.now);
    ReadsClocked(c, ReadTick(cfg, c, q, script, env).0.conn, env.now, env.clock);
  }

  /** Writing: as long as nothing went out the queue is as it was. */
  ghost predicate Sends(c: Conn, c': Conn, movedAt: Millis) {
    && c'.connectedAt == c.connectedAt && c'.lastReadAt == c.lastReadAt && c'.history.received == c.history.received
    && (c.closed ==> c'.closed)
    && |c.history.sent| <= |c'.history.sent|
    && (if |c'.history.sent| > |c.history.sent| then c'.lastWriteAt == movedAt
        else c'.lastWriteAt == c.lastWriteAt && c'.writeQueue == c.writeQueue)
  }

  lemma {:induction false} WrittenSends(c0: Conn, c: Conn, n: nat, now: Millis)
    requires Sends(c0, c, now) && CanWrite(c.writeQueue, n)
    ensures Sends(c0, Written(c, n, now), now)
  {
    assert |HeadBytes(c.writeQueue, n)| == n;
  }

  lemma {:induction false} FlushClocked(c: Conn, script: seq<WriteResult>, now: Millis, heardAt: Millis)
    requires Writable(c.writeQueue)
    ensures Clocked(c, FlushPending(c, script, now).0, heardAt, now)
  {
    if !c.closed {
      var inv: Conn -> bool := (x: Conn) => Sends(c, x, now);
      forall x: Conn, n: nat | inv(x) && CanWrite(x.writeQueue, n) ensures inv(Written(x, n, now)) {
        WrittenSends(c, x, n, now);
      }
      WriteLoopKeeps(inv, c, script, 0, now);
    }
  }

  lemma {:induction false} ProcessClocked(codec: Codec, c: Conn, w: Mutations.World, work: Work, clock: Millis, ran: Ran,
                                       heardAt: Millis)
    ensures Clocked(c, Process(codec, c, w, work, clock, ran).0, heardAt, clock)
  {
    var response := if clock >= work.deadline then Some(TimeoutResponse(work.id)) else CommandResponse(work.id, ran.reply);
    EnqueueAdds(codec, c, c, InternalError(work.id), true, clock);
    if response.Some? {
      EnqueueAdds(codec, c, c, response.value, true, clock);
      EnqueueAdds(codec, c, Enqueue(codec, c, response.value, true, clock).0, InternalError(work.id), true, clock);
    }
  }

  // ---------- over a run ----------

  /** What somebody who watches the wire of one connection notes: when it was accepted, last heard, and last moving. */
  datatype Watch = Watch(connected: Millis, heard: Millis, moved: Millis)

  function Noted(w: Watch, c: Conn, c': Conn, heardAt: Millis, movedAt: Millis): Watch {
    Watch(w.connected, if Hearing(c, c') then heardAt else w.heard, if Moving(c, c') then movedAt else w.moved)
  }

  /** The notes are right about an open connection. */
  ghost predicate Right(w: Watch, c: Conn) {
    !c.closed ==>
      c.connectedAt == w.connected && c.lastReadAt == w.heard && (c.writeQueue != [] ==> c.lastWriteAt == w.moved)
  }

  lemma {:induction false} NotedRight(w: Watch, c: Conn, c': Conn, heardAt: Millis, movedAt: Millis)
    requires Right(w, c) && Clocked(c, c', heardAt, movedAt)
    ensures Right(Noted(w, c, c', heardAt, movedAt), c')
  {
  }

  /** The clock readings of a step: when it reads, and when it writes. */
  function ReadClock(st: Step): Millis {
    match st
    case Read(_, _, env) => env.now
    case _ => 0
  }

  function WriteClock(st: Step): Millis {
    match st
    case Read(_, _, env) => env.clock
    case Flush(_, _, now) => now
    case Dispatch(turn) => turn.clock
    case _ => 0
  }

  function Watched(u: Setup, s: Sys, st: Step, id: ConnId, w: Watch): Watch {
    var s' := StepSys(u, s, st);
    if st.Connect? then (if id == s.next && s' != s then Watch(st.now, st.now, st.now) else w)
    else if id in s.conns && id in s'.conns then Noted(w, s.conns[id], s'.conns[id], ReadClock(st), WriteClock(st))
    else w
  }

  function WatchedRun(u: Setup, s: Sys, steps: seq<Step>, id: ConnId, w: Watch): Watch
    decreases |steps|
  {
    if steps == [] then w else WatchedRun(u, StepSys(u, s, steps[0]), steps[1..], id, Watched(u, s, steps[0], id, w))
  }

  lemma {:induction false} SameClocked(c: Conn, heardAt: Millis, movedAt: Millis)
    ensures Clocked(c, c, heardAt, movedAt) && Clocked(c, Close(c), heardAt, movedAt)
  {
  }

  lemma {:induction false} ExpireClocked(c: Conn, now: Millis)
    ensures Clocked(c, Expire(c, now), 0, 0)
  {
  }

  lemma {:induction false} ClientClocked(u: Setup, s: Sys, st: Step, id: ConnId)
    requires !st.Connect? && !st.Dispatch? && !st.Outside? && st.id in s.conns && id in s.conns
    ensures var s' := StepClient(u, s, st, st.id, s.conns[st.id]);
            id in s'.conns && Clocked(s.conns[id], s'.conns[id], ReadClock(st), WriteClock(st))
  {
    var c := s.conns[id];
    SameClocked(c, ReadClock(st), WriteClock(st));
    if st.id == id {
      match st
      case Read(_, input, env) => ReadTickClocked(ConfigOf(u, id), c, s.queue, input, env);
      case Flush(_, output, now) => if Writable(c.writeQueue) { FlushClocked(c, output, now, ReadClock(st)); }
      case ExpireStep(_, now) => ExpireClocked(c, now);
      case _ =>
    }
  }

  lemma {:induction false} ServedClocked(u: Setup, s: Sys, turn: Dispatcher.Turn, id: ConnId)
    requires id in s.conns
    ensures var s' := Served(u, s, turn);
            id in s'.conns && Clocked(s.conns[id], s'.conns[id], 0, turn.clock)
  {
    SameClocked(s.conns[id], 0, turn.clock);
    if s.queue != [] && s.queue[0].conn in s.conns {
      var work := s.queue[0];
      var ran := RegistryOf(u.routes)(s.world, work.operation, work.payload, turn.play);
      var c' := Process(u.codec, s.conns[work.conn], s.world, work, turn.clock, ran).0;
      ServedIsPopped(u, s, turn, ran, c');
      ProcessClocked(u.codec, s.conns[work.conn], s.world, work, turn.clock, ran, 0);
    }
  }

  ghost predicate RightAt(w: Watch, s: Sys, id: ConnId) {
    id in s.conns ==> Right(w, s.conns[id])
  }

  lemma {:induction false} StepRight(u: Setup, s: Sys, st: Step, id: ConnId, w: Watch)
    requires RightAt(w, s, id)
    ensures RightAt(Watched(u, s, st, id, w), StepSys(u, s, st), id)
  {
    if id in s.conns {
      var c, s' := s.conns[id], StepSys(u, s, st);
      SameClocked(c, ReadClock(st), WriteClock(st));
      match st
      case Connect(_) =>
      case Dispatch(turn) =>
        ServedClocked(u, s, turn, id);
        NotedRight(w, c, s'.conns[id], ReadClock(st), WriteClock(st));
      case Outside(_) => NotedRight(w, c, s'.conns[id], ReadClock(st), WriteClock(st));
      case _ =>
        if st.id in s.clients && st.id in s.conns { ClientClocked(u, s, st, id); }
        NotedRight(w, c, s'.conns[id], ReadClock(st), WriteClock(st));
    }
  }

  lemma {:induction false} RunRight(u: Setup, s: Sys, steps: seq<Step>, id: ConnId, w: Watch)
    requires RightAt(w, s, id)
    ensures RightAt(WatchedRun(u, s, steps, id, w), RunSys(u, s, steps), id)
    decreases |steps|
  {
    if steps != [] {
      StepRight(u, s, steps[0], id, w);
      RunRight(u, StepSys(u, s, steps[0]), steps[1..], id, Watched(u, s, steps[0], id, w));
    }
  }

  /** When the timeouts are to strike, told by the watcher. */
  predicate TimedOut(w: Watch, ready: bool, waiting: bool, now: Millis) {
    || (!ready && now - w.connected >= 5_000)
    || (ready && now - w.heard >= 120_000)
    || (waiting && now - w.moved >= 5_000)
  }

  lemma {:induction false} ExpireIff(w: Watch, c: Conn, now: Millis)
    requires Right(w, c) && !c.closed
    ensures Expire(c, now) == if TimedOut(w, c.phase == Ready, c.writeQueue != [], now) then Close(c) else c
  {
  }

  /**
   Over any run: when its timeouts are checked, an open connection is closed exactly if the
   handshake is not complete 5 seconds after it was accepted, if it is and nothing was heard for
   120 seconds, or if a response waits and nothing went out for 5 seconds; else it stays as it is.
   */
  lemma {:induction false} TimeoutsExact(u: Setup, s0: Sys, steps: seq<Step>, id: ConnId, now: Millis)
    requires Adequate(u.codec) && InitialSys(s0)
    ensures var s := RunSys(u, s0, steps);
            id in s.conns && !s.conns[id].closed ==>
              var c, w := s.conns[id], WatchedRun(u, s0, steps, id, Watch(0, 0, 0));
              && id in StepSys(u, s, ExpireStep(id, now)).conns
              && StepSys(u, s, ExpireStep(id, now)).conns[id] ==
                 if TimedOut(w, c.phase == Ready, c.writeQueue != [], now) then Close(c) else c
  {
    var s := RunSys(u, s0, steps);
    RunRight(u, s0, steps, id, Watch(0, 0, 0));
    if id in s.conns && !s.conns[id].closed {
      var ok, hands := ReachedInv(u, s);
      ExpireIff(WatchedRun(u, s0, steps, id, Watch(0, 0, 0)), s.conns[id], now);
    }
  }
}
