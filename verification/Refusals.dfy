/**
 A refused authentication: when the connection goes on reading after it, how far, and what
 that can still change.
 */
module Refusals {
  import opened Basics
  import opened Json
  import opened Framing
  import opened Protocol
  import opened Bridge
  import opened ConnectionInvariants
  import opened ConnectionRuns
  import opened ConnectionBounds

  /** An authenticate message with another token. */
  ghost predicate RefusedAt(cfg: Config, payload: Bytes) {
    && Decode(cfg.codec, payload).Some?
    && ValidAuthenticate(Decode(cfg.codec, payload).value)
    && cfg.codec.utf8(Token(Decode(cfg.codec, payload).value)) != cfg.codec.utf8(cfg.token)
  }

  // ---------- one frame, one drain ----------

  /** A refusal is the last message of its drain, and it ends, or is to end, the connection. */
  ghost predicate LastRefusal(cfg: Config, c: Conn, e: Effect) {
    && c.history.handled <= e.conn.history.handled
    && forall r :: |c.history.handled| <= r < |e.conn.history.handled| && RefusedAt(cfg, e.conn.history.handled[r]) ==>
         r == |e.conn.history.handled| - 1 && (e.raised || e.conn.closed || e.conn.closeAfterWrite)
  }

  /** Only a refusal makes a connection close after its last write. */
  ghost predicate MarkedByRefusal(cfg: Config, c: Conn, e: Effect) {
    !c.closeAfterWrite && e.conn.closeAfterWrite ==>
      && !e.raised && e.conn.phase == AwaitAuthenticate
      && |e.conn.history.handled| > |c.history.handled|
      && RefusedAt(cfg, e.conn.history.handled[|e.conn.history.handled| - 1])
  }

  lemma {:induction false} HandleRefusal(cfg: Config, c: Conn, q: seq<Work>, m: seq<Field>, env: Env)
    ensures var e := HandleMessage(cfg, c, q, m, env);
            var refused := ValidAuthenticate(m) && cfg.codec.utf8(Token(m)) != cfg.codec.utf8(cfg.token);
            && (refused ==> e.raised || e.conn.closed || e.conn.closeAfterWrite)
            && (!c.closeAfterWrite && e.conn.closeAfterWrite ==>
                  refused && !e.raised && e.conn.phase == AwaitAuthenticate)
  {
    match c.phase
    case AwaitHello => RespondSame(cfg, c, q, HelloResponse(cfg.sessionId, env.nonce), false, env);
    case AwaitAuthenticate =>
      RespondSame(cfg, c, q, AuthenticateResponse(true), false, env);
      RespondSame(cfg, c, q, AuthenticateResponse(false), false, env);
    case Ready => ReadyMarksNothing(cfg, c, q, m, env);
  }

  lemma {:induction false} KeyOfGet(fs: seq<Field>, key: string)
    requires Get(fs, key).Some?
    ensures key in Keys(fs)
  {
    if fs[0].key == key {
      assert fs[0] in fs;
    } else {
      KeyOfGet(fs[1..], key);
      assert Keys(fs) == {fs[0].key} + Keys(fs[1..]);
    }
  }

  /** An authenticate message on a ready connection is an invalid request without an id. */
  lemma {:induction false} AuthenticateIsNoRequest(m: seq<Field>)
    requires ValidAuthenticate(m)
    ensures ValidateRequest(m).Rejected? && ValidateRequest(m).requestId == None
  {
    if Get(m, "id").Some? { KeyOfGet(m, "id"); }
  }

  lemma {:induction false} ReadyMarksNothing(cfg: Config, c: Conn, q: seq<Work>, m: seq<Field>, env: Env)
    requires c.phase == Ready
    ensures HandleMessage(cfg, c, q, m, env).conn.closeAfterWrite == c.closeAfterWrite
    ensures ValidAuthenticate(m) ==> HandleMessage(cfg, c, q, m, env).conn.closed
  {
    if ValidAuthenticate(m) {
      AuthenticateIsNoRequest(m);
    } else {
      match ValidateRequest(m)
      case Accepted(r) =>
        var ruling := Rule(cfg, c, q, r, env);
        if ruling.Refuse? {
          RespondSame(cfg, if ruling.release then Reserve(c, r.id) else c, q,
                      ErrorResponse(r.id, ruling.code, ruling.message, []), ruling.release, env);
        }
      case Rejected(Some(id), code, message) => RespondSame(cfg, c, q, ErrorResponse(id, code, message, []), false, env);
      case Rejected(None, _, _) =>
    }
  }

  /** What a message handler does about refusals. */
  ghost predicate Marks(cfg: Config, handle: Handler) {
    forall c: Conn, q {:trigger OneFrame(handle, c, q)} ::
      Peel(c.readBuffer).Complete? ==>
        var e := OneFrame(handle, c, q);
        && e.conn.history.handled == c.history.handled + [Peel(c.readBuffer).payload]
        && LastRefusal(cfg, c, e) && MarkedByRefusal(cfg, c, e)
  }

  lemma {:induction false} HandlerMarks(cfg: Config, env: Env)
    ensures Marks(cfg, HandlerOf(cfg, env))
  {
    forall c: Conn, q | Peel(c.readBuffer).Complete?
      ensures var e := OneFrame(HandlerOf(cfg, env), c, q);
              && e.conn.history.handled == c.history.handled + [Peel(c.readBuffer).payload]
              && LastRefusal(cfg, c, e) && MarkedByRefusal(cfg, c, e)
    {
      var front := Peel(c.readBuffer);
      OneFrameSame(cfg, c, q, env);
      match Decode(cfg.codec, front.payload)
      case None =>
      case Some(m) => HandleRefusal(cfg, Taken(c, front.payload, front.rest), q, m, env);
    }
  }

  lemma {:induction false} DrainMarks(cfg: Config, handle: Handler, c: Conn, q: seq<Work>, limit: nat)
    requires Marks(cfg, handle)
    ensures var e := Drain(handle, c, q, limit).0;
            LastRefusal(cfg, c, e) && MarkedByRefusal(cfg, c, e)
    decreases limit
  {
    if limit > 0 && Peel(c.readBuffer).Complete? {
      var e := OneFrame(handle, c, q);
      if !e.raised && !e.conn.closed && !e.conn.closeAfterWrite {
        DrainMarks(cfg, handle, e.conn, e.queue, limit - 1);
      }
    }
  }

  /** What the read loop relies on: refusals end a drain, and after one a drain takes at most one frame. */
  ghost predicate DrainsMarked(cfg: Config, drain: Drainer) {
    forall c: Conn, q, limit: nat {:trigger drain(c, q, limit)} ::
      var e := drain(c, q, limit).0;
      && LastRefusal(cfg, c, e) && MarkedByRefusal(cfg, c, e)
      && (c.closeAfterWrite && limit > 0 ==>
            match Peel(c.readBuffer)
            case Incomplete => drain(c, q, limit) == (Effect(c, q, false), 0)
            case Malformed => drain(c, q, limit) == (Effect(c, q, true), 0)
            case Complete(_, _) => |e.conn.history.handled| == |c.history.handled| + 1)
  }

  lemma {:induction false} HandlerDrainsMarked(cfg: Config, env: Env)
    ensures DrainsMarked(cfg, DrainerOf(HandlerOf(cfg, env)))
  {
    var handle := HandlerOf(cfg, env);
    HandlerMarks(cfg, env);
    HandlerConsumes(cfg, env);
    forall c: Conn, q, limit: nat
      ensures var e := DrainerOf(handle)(c, q, limit).0;
              && LastRefusal(cfg, c, e) && MarkedByRefusal(cfg, c, e)
              && (c.closeAfterWrite && limit > 0 ==>
                    match Peel(c.readBuffer)
                    case Incomplete => DrainerOf(handle)(c, q, limit) == (Effect(c, q, false), 0)
                    case Malformed => DrainerOf(handle)(c, q, limit) == (Effect(c, q, true), 0)
                    case Complete(_, _) => |e.conn.history.handled| == |c.history.handled| + 1)
    {
      DrainMarks(cfg, handle, c, q, limit);
    }
  }

  // ---------- where a refusal leaves its tick ----------

  /** The read loop between two turns. */
  datatype Pause = Pause(conn: Conn, queue: seq<Work>, script: seq<Bridge.ReadResult>, done: nat, frames: nat)

  function Resume(drain: Drainer, p: Pause, now: Millis): (Effect, nat) {
    ReadLoop(drain, p.conn, p.queue, p.script, p.done, p.frames, now)
  }

  /** The last message handled was refused; the connection waits for its answer to be written. */
  ghost predicate JustRefused(cfg: Config, c: Conn) {
    && c.closeAfterWrite && c.phase == AwaitAuthenticate
    && c.history.handled != [] && RefusedAt(cfg, c.history.handled[|c.history.handled| - 1])
  }

  /** The chunks the loop would still receive: until something else comes, or its reads are spent. */
  function Chunks(script: seq<Bridge.ReadResult>, left: nat): seq<Bytes> {
    if left == 0 || script == [] || !script[0].Data? || script[0].chunk == [] then []
    else [script[0].chunk] + Chunks(script[1..], left - 1)
  }

  function Joined(chunks: seq<Bytes>): Bytes {
    if chunks == [] then [] else chunks[0] + Joined(chunks[1..])
  }

  /** Reads left before a stop bring at least one chunk and complete a frame, and the frame budget is not spent. */
  ghost predicate Completes(p: Pause) {
    var chunks := Chunks(p.script, if p.done <= MAX_READS then MAX_READS - p.done else 0);
    p.frames < MAX_FRAMES && chunks != [] && Peel(p.conn.readBuffer + Joined(chunks)).Complete?
  }

  lemma {:induction false} CompletesNext(p: Pause, chunk: Chunk, next: Pause)
    requires p.done < MAX_READS && p.frames < MAX_FRAMES && chunk != []
    requires p.script != [] && p.script[0] == Data(chunk)
    requires next.script == p.script[1..] && next.done == p.done + 1 && next.frames == p.frames
    requires next.conn.readBuffer == p.conn.readBuffer + chunk
    ensures match Peel(next.conn.readBuffer)
            case Incomplete => Completes(p) == Completes(next)
            case Malformed => !Completes(p)
            case Complete(_, _) => Completes(p)
  {
    var later := Chunks(next.script, MAX_READS - next.done);
    var buffer, all := p.conn.readBuffer, Chunks(p.script, MAX_READS - p.done);
    assert all == [chunk] + later && all[1..] == later;
    assert buffer + (chunk + Joined(later)) == (buffer + chunk) + Joined(later);
    if Peel(buffer + chunk).Incomplete? {
      if later == [] { assert (buffer + chunk) + [] == buffer + chunk; }
    } else {
      PeelExtends(buffer + chunk, Joined(later));
    }
  }

  lemma {:induction false} LoopStops(drain: Drainer, p: Pause, now: Millis)
    requires !GoesOn(p) && p.done <= MAX_READS
    ensures Resume(drain, p, now).0.conn.history == p.conn.history
    ensures Resume(drain, p, now).0.conn.closeAfterWrite == p.conn.closeAfterWrite
    ensures Completes(p) ==> p.conn.closed
  {
  }

  predicate GoesOn(p: Pause) {
    Receives(p.conn, p.script, p.done, p.frames)
  }

  /** The next turn of the loop; the flag says that it raised. */
  function NextPause(drain: Drainer, p: Pause, now: Millis): (Pause, bool)
    requires GoesOn(p)
  {
    var (e, n) := drain(Arrived(p.conn, p.script[0].chunk, now), p.queue, MAX_FRAMES - p.frames);
    (Pause(e.conn, e.queue, p.script[1..], p.done + 1, p.frames + n), e.raised)
  }

  lemma {:induction false} ResumeNext(drain: Drainer, p: Pause, now: Millis)
    requires GoesOn(p)
    ensures var (next, raised) := NextPause(drain, p, now);
            Resume(drain, p, now).0.conn == if raised then next.conn else Resume(drain, next, now).0.conn
  {
    MiddleTurn(drain, p.conn, p.queue, p.script, p.done, p.frames, now);
  }

  /** The loop k turns on, or where it stops. */
  function Turned(drain: Drainer, p: Pause, k: nat, now: Millis): Pause
    decreases k
  {
    if k == 0 || !GoesOn(p) then p else Turned(drain, NextPause(drain, p, now).0, k - 1, now)
  }

  /**
   The loop gets from p to x: x is so many turns on, with the rest of the script; the bytes
   received and the frames counted since are those of the chunks and messages in between; and
   resuming from either is the same.
   */
  ghost predicate Reaches(drain: Drainer, p: Pause, x: Pause, now: Millis) {
    && p.done <= x.done && x == Turned(drain, p, x.done - p.done, now)
    && Resume(drain, x, now) == Resume(drain, p, now)
    && x.done - p.done <= |p.script| && x.script == p.script[x.done - p.done..]
    && |Chunks(p.script, x.done - p.done)| == x.done - p.done
    && x.conn.history.received == p.conn.history.received + Joined(Chunks(p.script, x.done - p.done))
    && p.conn.history.handled <= x.conn.history.handled
    && x.frames - p.frames == |x.conn.history.handled| - |p.conn.history.handled|
  }

  lemma {:induction false} ReachesItself(drain: Drainer, p: Pause, now: Millis)
    ensures Reaches(drain, p, p, now)
  {
    assert Joined(Chunks(p.script, 0)) == [];
  }

  lemma {:induction false} NextTies(drain: Drainer, p: Pause, now: Millis)
    requires DrainsWell(drain) && GoesOn(p) && !NextPause(drain, p, now).1
    ensures var next := NextPause(drain, p, now).0;
            && Resume(drain, p, now) == Resume(drain, next, now)
            && next.conn.history.received == p.conn.history.received + p.script[0].chunk
            && p.conn.history.handled <= next.conn.history.handled
            && next.frames - p.frames == |next.conn.history.handled| - |p.conn.history.handled|
  {
    var a := Arrived(p.conn, p.script[0].chunk, now);
    var (e, n) := drain(a, p.queue, MAX_FRAMES - p.frames);
    assert Consumed(a, e.conn);
    MiddleTurn(drain, p.conn, p.queue, p.script, p.done, p.frames, now);
  }

  lemma {:induction false} ReachesOn(drain: Drainer, p: Pause, x: Pause, now: Millis)
    requires DrainsWell(drain) && GoesOn(p) && !NextPause(drain, p, now).1
    requires Reaches(drain, NextPause(drain, p, now).0, x, now)
    ensures Reaches(drain, p, x, now)
  {
    var next, k := NextPause(drain, p, now).0, x.done - p.done;
    NextTies(drain, p, now);
    assert p.script[1..][k - 1..] == p.script[k..];
    var chunk, later := p.script[0].chunk, Chunks(p.script[1..], k - 1);
    assert Chunks(p.script, k) == [chunk] + later && ([chunk] + later)[1..] == later;
    assert p.conn.history.received + (chunk + Joined(later)) == (p.conn.history.received + chunk) + Joined(later);
  }

  lemma {:induction false} NextMarked(cfg: Config, drain: Drainer, p: Pause, now: Millis)
    requires DrainsMarked(cfg, drain) && GoesOn(p) && !p.conn.closeAfterWrite
    ensures var (next, raised) := NextPause(drain, p, now);
            && next.done == p.done + 1 && p.conn.history.handled <= next.conn.history.handled
            && (next.conn.closeAfterWrite ==>
                  !raised && JustRefused(cfg, next.conn) && |p.conn.history.handled| < |next.conn.history.handled|)
  {
    var a := Arrived(p.conn, p.script[0].chunk, now);
    var e := drain(a, p.queue, MAX_FRAMES - p.frames).0;
    assert LastRefusal(cfg, a, e) && MarkedByRefusal(cfg, a, e);
  }

  lemma {:induction false} RefusalNeedsTurn(drain: Drainer, p: Pause, now: Millis)
    requires p.done <= MAX_READS && !p.conn.closeAfterWrite && Resume(drain, p, now).0.conn.closeAfterWrite
    ensures GoesOn(p) && p.done < MAX_READS
  {
    if !GoesOn(p) { LoopStops(drain, p, now); }
  }

  /** No turn before x was refused. */
  ghost predicate FirstRefused(drain: Drainer, p: Pause, x: Pause, now: Millis) {
    p.done <= x.done && forall k: nat :: k < x.done - p.done ==> !Turned(drain, p, k, now).conn.closeAfterWrite
  }

  lemma {:induction false} FirstAfter(drain: Drainer, p: Pause, x: Pause, now: Millis)
    requires GoesOn(p) && !p.conn.closeAfterWrite && FirstRefused(drain, NextPause(drain, p, now).0, x, now)
    ensures FirstRefused(drain, p, x, now)
  {
    var next := NextPause(drain, p, now).0;
    forall k: nat | k < x.done - p.done ensures !Turned(drain, p, k, now).conn.closeAfterWrite {
      if k > 0 { assert Turned(drain, p, k, now) == Turned(drain, next, k - 1, now); }
    }
  }

  /** Where in the loop the refusal happened. */
  lemma {:induction false} LoopRefusal(cfg: Config, drain: Drainer, p: Pause, now: Millis) returns (x: Pause)
    requires DrainsWell(drain) && DrainsMarked(cfg, drain) && !p.conn.closeAfterWrite && p.done <= MAX_READS
    requires Resume(drain, p, now).0.conn.closeAfterWrite
    ensures JustRefused(cfg, x.conn) && Reaches(drain, p, x, now) && FirstRefused(drain, p, x, now)
    ensures p.done < x.done <= MAX_READS && |p.conn.history.handled| < |x.conn.history.handled|
    decreases MAX_READS - p.done
  {
    RefusalNeedsTurn(drain, p, now);
    var (next, raised) := NextPause(drain, p, now);
    ResumeNext(drain, p, now);
    NextMarked(cfg, drain, p, now);
    x := next;
    if next.conn.closeAfterWrite {
      ReachesItself(drain, next, now);
    } else {
      x := LoopRefusal(cfg, drain, next, now);
    }
    ReachesOn(drain, p, x, now);
    FirstAfter(drain, p, x, now);
  }

  lemma {:induction false} NextAfterRefusal(cfg: Config, drain: Drainer, p: Pause, now: Millis)
    requires DrainsWell(drain) && DrainsMarked(cfg, drain) && p.conn.closeAfterWrite && GoesOn(p)
    ensures var (next, raised) := NextPause(drain, p, now);
            && next.conn.closeAfterWrite && next.script == p.script[1..] && next.done == p.done + 1
            && match Peel(p.conn.readBuffer + p.script[0].chunk)
               case Incomplete => !raised && next.frames == p.frames && next.conn == Arrived(p.conn, p.script[0].chunk, now)
               case Malformed => raised && next.conn.history.handled == p.conn.history.handled
               case Complete(_, _) => |p.conn.history.handled| < |next.conn.history.handled|
  {
    var a := Arrived(p.conn, p.script[0].chunk, now);
    var (e, n) := drain(a, p.queue, MAX_FRAMES - p.frames);
    assert Consumed(a, e.conn);
  }

  /** After a refusal another frame is handled exactly if a read that is left completes one. */
  lemma {:induction false} AnotherFrameIff(cfg: Config, drain: Drainer, p: Pause, now: Millis)
    requires DrainsWell(drain) && DrainsMarked(cfg, drain) && p.conn.closeAfterWrite && p.done <= MAX_READS
    ensures Resume(drain, p, now).0.conn.history.handled != p.conn.history.handled <==> !p.conn.closed && Completes(p)
    decreases MAX_READS - p.done
  {
    if GoesOn(p) {
      var chunk := p.script[0].chunk;
      var (next, raised) := NextPause(drain, p, now);
      ResumeNext(drain, p, now);
      NextAfterRefusal(cfg, drain, p, now);
      CompletesNext(p, chunk, Pause(Arrived(p.conn, chunk, now), p.queue, p.script[1..], p.done + 1, p.frames));
      match Peel(p.conn.readBuffer + chunk)
      case Incomplete => AnotherFrameIff(cfg, drain, next, now);
      case Malformed =>
      case Complete(_, _) =>
        if !raised { LoopExtends(drain, next.conn, next.queue, next.script, next.done, next.frames, now); }
    } else {
      LoopStops(drain, p, now);
    }
  }

  /** The read loop goes on after a refusal, one frame for every read that is left. */
  lemma {:induction false} RefusedLoop(drain: Drainer, c: Conn, q: seq<Work>, script: seq<Bridge.ReadResult>,
                                       done: nat, frames: nat, now: Millis)
    requires DrainsWell(drain) && c.closeAfterWrite && done <= MAX_READS
    ensures |ReadLoop(drain, c, q, script, done, frames, now).0.conn.history.handled|
              <= |c.history.handled| + (MAX_READS - done)
  {
    var bound := |c.history.handled| + (MAX_READS - done);
    var turn: Turn := (x: Conn, p: seq<Work>, done: nat, frames: nat) =>
      x.closeAfterWrite && done <= MAX_READS && |x.history.handled| + (MAX_READS - done) <= bound;
    var end: End := (e: Effect) => |e.conn.history.handled| <= bound;
    ReadLoopRule(turn, end, drain, c, q, script, done, frames, now);
  }

  // ---------- becoming ready ----------

  /** Since `from` messages were handled: ready exactly if one of the later ones presented the token. */
  ghost predicate ReadyInv(cfg: Config, from: nat, c: Conn) {
    && from <= |c.history.handled| && c.phase != AwaitHello
    && (c.phase == Ready <==>
          exists j :: from <= j < |c.history.handled| && AuthenticateAt(cfg, c.history.handled[j]))
  }

  lemma {:induction false} HandleAuthenticated(cfg: Config, c: Conn, q: seq<Work>, m: seq<Field>, env: Env)
    requires c.phase == AwaitAuthenticate && Fits(cfg.codec.generate(AuthenticateResponse(true)))
    ensures HandleMessage(cfg, c, q, m, env).conn.phase ==
            if ValidAuthenticate(m) && cfg.codec.utf8(Token(m)) == cfg.codec.utf8(cfg.token) then Ready else AwaitAuthenticate
  {
    RespondSame(cfg, c, q, AuthenticateResponse(true), false, env);
    RespondSame(cfg, c, q, AuthenticateResponse(false), false, env);
  }

  lemma {:induction false} ReadyStep(cfg: Config, from: nat, c: Conn, payload: Bytes, c': Conn)
    requires ReadyInv(cfg, from, c) && c'.history.handled == c.history.handled + [payload]
    requires c.phase == Ready ==> c'.phase == Ready
    requires c.phase == AwaitAuthenticate ==>
               c'.phase == if AuthenticateAt(cfg, payload) then Ready else AwaitAuthenticate
    ensures ReadyInv(cfg, from, c')
  {
    var a, b := c.history.handled, c'.history.handled;
    assert forall j :: 0 <= j < |a| ==> b[j] == a[j];
    assert b[|a|] == payload;
    if c.phase == Ready {
      var j :| from <= j < |a| && AuthenticateAt(cfg, a[j]);
      assert AuthenticateAt(cfg, b[j]);
    }
  }

  lemma {:induction false} OneFrameReady(cfg: Config, from: nat, c: Conn, q: seq<Work>, env: Env)
    requires ReadyInv(cfg, from, c) && Peel(c.readBuffer).Complete?
    requires Fits(cfg.codec.generate(AuthenticateResponse(true)))
    ensures ReadyInv(cfg, from, Rescued(OneFrame(HandlerOf(cfg, env), c, q)).conn)
  {
    var front := Peel(c.readBuffer);
    var t := Taken(c, front.payload, front.rest);
    OneFrameSame(cfg, c, q, env);
    match Decode(cfg.codec, front.payload) {
      case None =>
      case Some(m) =>
        HandleMessageMoves(cfg, t, q, m, env);
        if t.phase == AwaitAuthenticate { HandleAuthenticated(cfg, t, q, m, env); }
    }
    ReadyStep(cfg, from, c, front.payload, Rescued(OneFrame(HandlerOf(cfg, env), c, q)).conn);
  }

  /** The ready rule holds through any part of a tick. */
  lemma {:induction false} ReadyKept(cfg: Config, from: nat, env: Env) returns (inv: ConnInv)
    requires Fits(cfg.codec.generate(AuthenticateResponse(true)))
    ensures forall c, q {:trigger inv(c, q)} :: inv(c, q) == ReadyInv(cfg, from, c)
    ensures KeptByDrain(inv, DrainerOf(HandlerOf(cfg, env))) && KeptByClose(inv) && KeptByArrival(inv, env.now)
  {
    inv := (c, q) => ReadyInv(cfg, from, c);
    forall c, q | inv(c, q) && !c.closed && Peel(c.readBuffer).Complete?
      ensures inv(Rescued(OneFrame(HandlerOf(cfg, env), c, q)).conn, OneFrame(HandlerOf(cfg, env), c, q).queue)
    {
      OneFrameReady(cfg, from, c, q, env);
    }
    DrainerKeeps(inv, HandlerOf(cfg, env));
  }

  /** A tick makes a connection ready exactly if one of the frames it handles presents the token. */
  lemma {:induction false} ReadyIff(cfg: Config, c: Conn, q: seq<Work>, script: seq<Bridge.ReadResult>, env: Env)
    requires c.phase == AwaitAuthenticate && Fits(cfg.codec.generate(AuthenticateResponse(true)))
    ensures var c' := ReadTick(cfg, c, q, script, env).0.conn;
            c'.phase == Ready <==>
            exists j :: |c.history.handled| <= j < |c'.history.handled| && AuthenticateAt(cfg, c'.history.handled[j])
  {
    var inv := ReadyKept(cfg, |c.history.handled|, env);
    assert inv(c, q);
    ReadPendingKeeps(inv, DrainerOf(HandlerOf(cfg, env)), c, q, script, env.now);
    var e := ReadTick(cfg, c, q, script, env).0;
    assert inv(e.conn, e.queue);
  }

  // ---------- the whole tick ----------

  /**
   What follows a refusal that came with a read: another frame exactly if a read left before a
   stop completes one within the frame budget; at most one a read; and readiness exactly if
   one of those that follow presents the token.
   */
  ghost predicate FollowsRefusal(cfg: Config, x: Pause, c': Conn) {
    && x.conn.history.handled <= c'.history.handled
    && (c'.history.handled != x.conn.history.handled <==> !x.conn.closed && Completes(x))
    && |c'.history.handled| <= |x.conn.history.handled| + (MAX_READS - x.done)
    && (Fits(cfg.codec.generate(AuthenticateResponse(true))) ==>
          (c'.phase == Ready <==> exists j ::
             |x.conn.history.handled| <= j < |c'.history.handled| && AuthenticateAt(cfg, c'.history.handled[j])))
  }

  lemma {:induction false} LoopAfterRefusal(cfg: Config, x: Pause, env: Env)
    requires JustRefused(cfg, x.conn) && x.done <= MAX_READS
    ensures FollowsRefusal(cfg, x, Rescued(Resume(DrainerOf(HandlerOf(cfg, env)), x, env.now).0).conn)
  {
    var drain := DrainerOf(HandlerOf(cfg, env));
    HandlerDrainsWell(cfg, env);
    HandlerDrainsMarked(cfg, env);
    AnotherFrameIff(cfg, drain, x, env.now);
    RefusedLoop(drain, x.conn, x.queue, x.script, x.done, x.frames, env.now);
    LoopExtends(drain, x.conn, x.queue, x.script, x.done, x.frames, env.now);
    if Fits(cfg.codec.generate(AuthenticateResponse(true))) { LoopReadyIff(cfg, x, env); }
  }

  lemma {:induction false} LoopReadyIff(cfg: Config, x: Pause, env: Env)
    requires x.conn.phase == AwaitAuthenticate && Fits(cfg.codec.generate(AuthenticateResponse(true)))
    ensures var c' := Rescued(Resume(DrainerOf(HandlerOf(cfg, env)), x, env.now).0).conn;
            c'.phase == Ready <==>
            exists j :: |x.conn.history.handled| <= j < |c'.history.handled| && AuthenticateAt(cfg, c'.history.handled[j])
  {
    var drain := DrainerOf(HandlerOf(cfg, env));
    var inv := ReadyKept(cfg, |x.conn.history.handled|, env);
    assert inv(x.conn, x.queue);
    ReadLoopKeeps(inv, drain, x.conn, x.queue, x.script, x.done, x.frames, env.now);
    var e := Resume(drain, x, env.now).0;
    assert inv(Rescued(e).conn, e.queue);
  }

  /** A tick is its first drain, then perhaps the read loop. */
  lemma {:induction false} TickParts(drain: Drainer, c: Conn, q: seq<Work>, script: seq<Bridge.ReadResult>, now: Millis)
    requires !c.closed && !c.closeAfterWrite
    ensures var (e, n) := drain(c, q, MAX_FRAMES);
            var c' := ReadPending(drain, c, q, script, now).0.conn;
            && (!e.raised && e.conn.closeAfterWrite ==> c' == e.conn)
            && (!e.conn.closeAfterWrite && c'.closeAfterWrite ==>
                  !e.raised && c' == Rescued(Resume(drain, Pause(e.conn, e.queue, script, 0, n), now).0).conn)
  {
  }

  /** A tick after its first drain, at the head of the read loop. */
  function Head(drain: Drainer, c: Conn, q: seq<Work>, script: seq<Bridge.ReadResult>): Pause {
    var (e, n) := drain(c, q, MAX_FRAMES);
    Pause(e.conn, e.queue, script, 0, n)
  }

  lemma {:induction false} BufferedRefusal(cfg: Config, drain: Drainer, c: Conn, q: seq<Work>, script: seq<Bridge.ReadResult>)
    requires DrainsWell(drain) && DrainsMarked(cfg, drain) && !c.closeAfterWrite
    ensures var start, raised := Head(drain, c, q, script), drain(c, q, MAX_FRAMES).0.raised;
            && c.history.handled <= start.conn.history.handled && start.conn.history.received == c.history.received
            && (!raised ==> start.frames == |start.conn.history.handled| - |c.history.handled|)
            && (start.conn.closeAfterWrite ==>
                  !raised && JustRefused(cfg, start.conn) && |c.history.handled| < |start.conn.history.handled|)
  {
    var e := drain(c, q, MAX_FRAMES).0;
    assert LastRefusal(cfg, c, e) && MarkedByRefusal(cfg, c, e) && Consumed(c, e.conn);
  }

  /** The pause x of this tick: so many reads and frames after its start, with the rest of its script. */
  ghost predicate PauseOf(drain: Drainer, c: Conn, q: seq<Work>, script: seq<Bridge.ReadResult>, now: Millis, x: Pause) {
    && Reaches(drain, Head(drain, c, q, script), x, now)
    && x.done <= |script| && x.script == script[x.done..]
    && |Chunks(script, x.done)| == x.done && x.conn.history.received == c.history.received + Joined(Chunks(script, x.done))
    && c.history.handled <= x.conn.history.handled && x.frames == |x.conn.history.handled| - |c.history.handled|
  }

  lemma {:induction false} PauseTied(drain: Drainer, c: Conn, q: seq<Work>, script: seq<Bridge.ReadResult>, now: Millis, x: Pause)
    requires var start := Head(drain, c, q, script);
             && Reaches(drain, start, x, now) && c.history.handled <= start.conn.history.handled
             && start.conn.history.received == c.history.received
             && start.frames == |start.conn.history.handled| - |c.history.handled|
    ensures PauseOf(drain, c, q, script, now, x)
  {
  }

  /**
   In a tick that refuses, x is where the loop stands right after the refusal, which no earlier
   turn had. A refusal among the frames that were already buffered is the last frame its tick
   handles; for one that comes with a later read, the rest of the tick is the rest of the loop
   from x, and what follows is FollowsRefusal.
   */
  lemma {:induction false} AfterRefusal(cfg: Config, c: Conn, q: seq<Work>, script: seq<Bridge.ReadResult>, env: Env)
    returns (x: Pause, buffered: bool)
    requires !c.closed && !c.closeAfterWrite && ReadTick(cfg, c, q, script, env).0.conn.closeAfterWrite
    ensures |c.history.handled| < |x.conn.history.handled| && JustRefused(cfg, x.conn)
    ensures var drain := DrainerOf(HandlerOf(cfg, env));
            && PauseOf(drain, c, q, script, env.now, x) && FirstRefused(drain, Head(drain, c, q, script), x, env.now)
            && (buffered <==> drain(c, q, MAX_FRAMES).0.conn.closeAfterWrite) && (buffered <==> x.done == 0)
    ensures var c' := ReadTick(cfg, c, q, script, env).0.conn;
            if buffered then c' == x.conn
            else
              && 1 <= x.done <= MAX_READS && FollowsRefusal(cfg, x, c')
              && c' == Rescued(Resume(DrainerOf(HandlerOf(cfg, env)), x, env.now).0).conn
  {
    var drain := DrainerOf(HandlerOf(cfg, env));
    var start := Head(drain, c, q, script);
    HandlerDrainsMarked(cfg, env);
    HandlerDrainsWell(cfg, env);
    BufferedRefusal(cfg, drain, c, q, script);
    TickParts(drain, c, q, script, env.now);
    buffered := start.conn.closeAfterWrite;
    x := start;
    if buffered {
      ReachesItself(drain, start, env.now);
    } else {
      x := LoopRefusal(cfg, drain, start, env.now);
      LoopAfterRefusal(cfg, x, env);
    }
    PauseTied(drain, c, q, script, env.now, x);
  }

  // ---------- over whole runs ----------

  /** A connection that handled a refused token is closed or about to be, after at most `more` further messages. */
  ghost predicate RefusedSince(cfg: Config, c: Conn, ends: bool, more: nat) {
    forall r :: 0 <= r < |c.history.handled| && RefusedAt(cfg, c.history.handled[r]) ==>
      (ends || c.closed || c.closeAfterWrite) && |c.history.handled| <= r + more
  }

  /** No connection handles more than seven messages after a refusal. */
  ghost predicate RefusalInv(cfg: Config, c: Conn) {
    RefusedSince(cfg, c, false, MAX_READS)
  }

  lemma {:induction false} RefusalStays(cfg: Config, c: Conn, c': Conn)
    requires RefusalInv(cfg, c) && c'.history.handled == c.history.handled
    requires (c.closed ==> c'.closed) && (c.closeAfterWrite ==> c'.closeAfterWrite)
    ensures RefusalInv(cfg, c')
  {
  }

  lemma {:induction false} DrainSince(cfg: Config, drain: Drainer, c: Conn, q: seq<Work>, limit: nat, done: nat)
    requires DrainsWell(drain) && DrainsMarked(cfg, drain) && limit > 0 && RefusedSince(cfg, c, false, done) && !c.closed
    ensures var e := drain(c, q, limit).0; RefusedSince(cfg, e.conn, e.raised, done + 1)
  {
    var e := drain(c, q, limit).0;
    var a, b := c.history.handled, e.conn.history.handled;
    assert Consumed(c, e.conn) && LastRefusal(cfg, c, e);
    forall r | 0 <= r < |b| && RefusedAt(cfg, b[r])
      ensures (e.raised || e.conn.closed || e.conn.closeAfterWrite) && |b| <= r + (done + 1)
    {
      if r < |a| { assert a[r] == b[r]; }
    }
  }

  /** One tick adds no more than that to a refusal. */
  lemma {:induction false} ReadTickRefusal(cfg: Config, c: Conn, q: seq<Work>, script: seq<Bridge.ReadResult>, env: Env)
    requires RefusalInv(cfg, c)
    ensures RefusalInv(cfg, ReadTick(cfg, c, q, script, env).0.conn)
  {
    if !c.closed && !c.closeAfterWrite {
      var drain := DrainerOf(HandlerOf(cfg, env));
      HandlerDrainsWell(cfg, env);
      HandlerDrainsMarked(cfg, env);
      assert RefusedSince(cfg, c, false, 0);
      DrainSince(cfg, drain, c, q, MAX_FRAMES, 0);
      var (e, n) := drain(c, q, MAX_FRAMES);
      if !e.raised && !e.conn.closed && !e.conn.closeAfterWrite && n < MAX_FRAMES {
        LoopRefusals(cfg, drain, e.conn, e.queue, script, n, env.now);
      }
    }
  }

  lemma {:induction false} LoopRefusals(cfg: Config, drain: Drainer, c: Conn, q: seq<Work>,
                                        script: seq<Bridge.ReadResult>, frames: nat, now: Millis)
    requires DrainsWell(drain) && DrainsMarked(cfg, drain) && RefusedSince(cfg, c, false, 0)
    ensures var e := ReadLoop(drain, c, q, script, 0, frames, now).0; RefusedSince(cfg, e.conn, e.raised, MAX_READS)
  {
    var turn: Turn := (x: Conn, p: seq<Work>, done: nat, frames: nat) =>
      done <= MAX_READS && RefusedSince(cfg, x, false, done);
    var end: End := (e: Effect) => RefusedSince(cfg, e.conn, e.raised, MAX_READS);
    forall x, p, done: nat, frames: nat, chunk: Chunk ensures MayReceive(turn, end, drain, now, x, p, done, frames, chunk) {
      if turn(x, p, done, frames) && done < MAX_READS && frames < MAX_FRAMES && !x.closed {
        DrainSince(cfg, drain, Arrived(x, chunk, now), p, MAX_FRAMES - frames, done);
      }
    }
    ReadLoopRule(turn, end, drain, c, q, script, 0, frames, now);
  }

  // ---------- a run in which a refused peer becomes ready ----------

  lemma {:induction false} PeelWhole(payload: Bytes)
    requires Fits(payload)
    ensures Peel(Frame(payload)) == Complete(payload, [])
  {
    PeelFrame(payload, []);
    assert Frame(payload) + [] == Frame(payload);
  }

  /** Room for one more answer to an authenticate message. */
  ghost predicate HasRoom(cfg: Config, c: Conn, ok: bool, left: int) {
    var payload := cfg.codec.generate(AuthenticateResponse(ok));
    Fits(payload) && c.pending + |Frame(payload)| <= left
  }

  /** A drain of a single frame after which the connection is to be closed. */
  lemma {:induction false} LoneFrame(handle: Handler, c: Conn, q: seq<Work>, payload: Bytes, limit: nat)
    requires Fits(payload) && c.readBuffer == Frame(payload) && limit > 0
    ensures Peel(c.readBuffer).Complete?
    ensures var e := OneFrame(handle, c, q);
            !e.raised && e.conn.closeAfterWrite ==> DrainerOf(handle)(c, q, limit) == (e, 1)
  {
    PeelWhole(payload);
  }

  lemma {:induction false} NothingBefore(a: Bytes, b: Bytes)
    requires a == []
    ensures a + b == b
  {
  }

  /** The frame `payload` arriving on its own at a connection that waits for authentication. */
  lemma {:induction false} FrameArrives(cfg: Config, c: Conn, q: seq<Work>, payload: Bytes, limit: nat, env: Env) returns (e: Effect)
    requires Fits(payload) && |payload| <= 1000 && !c.closed && c.readBuffer == [] && limit > 0
    ensures e == HandlePayload(cfg, Taken(Arrived(c, Frame(payload), env.now), payload, []), q, payload, env)
    ensures !e.raised && e.conn.closeAfterWrite ==>
              DrainerOf(HandlerOf(cfg, env))(Arrived(c, Frame(payload), env.now), q, limit) == (e, 1)
  {
    var c1 := Arrived(c, Frame(payload), env.now);
    NothingBefore(c.readBuffer, Frame(payload));
    PeelWhole(payload);
    LoneFrame(HandlerOf(cfg, env), c1, q, payload, limit);
    e := OneFrame(HandlerOf(cfg, env), c1, q);
  }

  lemma {:induction false} RefusalHandled(cfg: Config, c: Conn, q: seq<Work>, payload: Bytes, env: Env)
    requires c.phase == AwaitAuthenticate && !c.closed
    requires RefusedAt(cfg, payload) && HasRoom(cfg, c, false, MAX_PENDING_WRITE_BYTES)
    ensures var e := HandlePayload(cfg, c, q, payload, env);
            && !e.raised && !e.conn.closed && e.conn.closeAfterWrite && e.conn.phase == AwaitAuthenticate
            && e.conn.readBuffer == c.readBuffer && e.queue == q
            && e.conn.pending == c.pending + |cfg.codec.generate(AuthenticateResponse(false))| + 4
  {
  }

  lemma {:induction false} AcceptanceHandled(cfg: Config, c: Conn, q: seq<Work>, payload: Bytes, env: Env)
    requires c.phase == AwaitAuthenticate && !c.closed && c.closeAfterWrite
    requires AuthenticateAt(cfg, payload) && HasRoom(cfg, c, true, MAX_PENDING_WRITE_BYTES)
    ensures var e := HandlePayload(cfg, c, q, payload, env);
            !e.raised && !e.conn.closed && e.conn.closeAfterWrite && e.conn.phase == Ready
  {
  }

  /** Two reads, one frame each, and nothing more to read. */
  lemma {:induction false} TwoTurns(drain: Drainer, c: Conn, q: seq<Work>, a: Chunk, b: Chunk, e1: Effect, e2: Effect, now: Millis)
    requires !c.closed && !c.closeAfterWrite && a != [] && b != [] && !e1.raised && !e1.conn.closed && !e2.raised && !e2.conn.closed
    requires drain(c, q, MAX_FRAMES) == (Effect(c, q, false), 0)
    requires drain(Arrived(c, a, now), q, MAX_FRAMES) == (e1, 1)
    requires drain(Arrived(e1.conn, b, now), e1.queue, MAX_FRAMES - 1) == (e2, 1)
    ensures ReadPending(drain, c, q, [Data(a), Data(b)], now) == (e2, 4)
  {
    var script: seq<Bridge.ReadResult> := [Data(a), Data(b)];
    MiddleTurn(drain, c, q, script, 0, 0, now);
    assert script[1..] == [Data(b)] && script[1..][1..] == [];
    MiddleTurn(drain, e1.conn, e1.queue, script[1..], 1, 1, now);
  }

  /**
   A refusal does not stop the tick it happens in: a second authenticate that arrives with
   the next read still makes the connection ready.
   */
  lemma {:induction false} ReadyAfterRefusal(cfg: Config, c: Conn, q: seq<Work>, bad: Bytes, good: Bytes, env: Env)
    requires c.phase == AwaitAuthenticate && !c.closed && !c.closeAfterWrite && c.readBuffer == []
    requires Fits(bad) && Fits(good) && |bad| <= 1000 && |good| <= 1000
    requires RefusedAt(cfg, bad) && AuthenticateAt(cfg, good)
    requires HasRoom(cfg, c, false, 1000) && HasRoom(cfg, c, true, 1000) && c.pending >= 0
    ensures var (e, n) := ReadTick(cfg, c, q, [Data(Frame(bad)), Data(Frame(good))], env);
            n == 4 && e.conn.phase == Ready && !e.conn.closed && e.conn.closeAfterWrite
  {
    RefusalHandled(cfg, Taken(Arrived(c, Frame(bad), env.now), bad, []), q, bad, env);
    var e1 := FrameArrives(cfg, c, q, bad, MAX_FRAMES, env);
    AcceptanceHandled(cfg, Taken(Arrived(e1.conn, Frame(good), env.now), good, []), q, good, env);
    var e2 := FrameArrives(cfg, e1.conn, q, good, MAX_FRAMES - 1, env);
    TwoTurns(DrainerOf(HandlerOf(cfg, env)), c, q, Frame(bad), Frame(good), e1, e2, env.now);
  }
}
