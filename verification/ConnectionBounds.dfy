/** How much one tick reads and handles: buffer bounds, progress, and the order of what is handled. */
module ConnectionBounds {
  import opened Basics
  import opened Json
  import opened Framing
  import opened Protocol
  import opened Bridge
  import opened ConnectionInvariants
  import opened ConnectionRuns

  /** An incomplete frame: length prefix missing a byte, or payload missing a byte. */
  const PARTIAL := MAX_MESSAGE_BYTES + 3

  lemma {:induction false} IncompleteIsShort(buffer: Bytes)
    requires Peel(buffer).Incomplete?
    ensures |buffer| <= PARTIAL
  {
  }

  // ---------- draining ----------

  /** Draining takes frames off the front of the buffer and touches nothing else of the reading side. */
  ghost predicate Consumed(c: Conn, c': Conn) {
    && |c'.readBuffer| <= |c.readBuffer|
    && c'.history.peak == c.history.peak
    && c'.history.received == c.history.received
    && c.history.handled <= c'.history.handled
    && (c.closeAfterWrite ==> c'.closeAfterWrite)
  }

  /** What a message handler may do to the reading side. */
  ghost predicate Consumes(handle: Handler) {
    forall c: Conn, q {:trigger OneFrame(handle, c, q)} ::
      Peel(c.readBuffer).Complete? ==>
        && Consumed(c, OneFrame(handle, c, q).conn)
        && |OneFrame(handle, c, q).conn.history.handled| == |c.history.handled| + 1
  }

  lemma {:induction false} HandlerConsumes(cfg: Config, env: Env)
    ensures Consumes(HandlerOf(cfg, env))
  {
    forall c: Conn, q | Peel(c.readBuffer).Complete?
      ensures Consumed(c, OneFrame(HandlerOf(cfg, env), c, q).conn)
      ensures |OneFrame(HandlerOf(cfg, env), c, q).conn.history.handled| == |c.history.handled| + 1
    {
      PeelInverse(c.readBuffer);
      OneFrameSame(cfg, c, q, env);
    }
  }

  /** One more frame than `n` may be handled when handling it raised. */
  lemma {:induction false} DrainConsumed(handle: Handler, c: Conn, q: seq<Work>, limit: nat)
    requires Consumes(handle)
    ensures var (e, n) := Drain(handle, c, q, limit);
            && n <= limit
            && Consumed(c, e.conn)
            && |e.conn.history.handled| <= |c.history.handled| + limit
            && (!e.raised ==> |e.conn.history.handled| == |c.history.handled| + n)
    decreases limit
  {
    if limit > 0 && Peel(c.readBuffer).Complete? {
      var e := OneFrame(handle, c, q);
      if !e.raised && !e.conn.closed && !e.conn.closeAfterWrite {
        DrainConsumed(handle, e.conn, e.queue, limit - 1);
      }
    }
  }

  /** A drain that neither spent its limit, nor ended the connection, nor raised leaves a partial frame. */
  lemma {:induction false} DrainLeavesPartial(handle: Handler, c: Conn, q: seq<Work>, limit: nat)
    ensures var (e, n) := Drain(handle, c, q, limit);
            !e.raised && !e.conn.closed && !e.conn.closeAfterWrite && n < limit ==> Peel(e.conn.readBuffer).Incomplete?
    decreases limit
  {
    if limit > 0 && Peel(c.readBuffer).Complete? {
      var e := OneFrame(handle, c, q);
      if !e.raised && !e.conn.closed && !e.conn.closeAfterWrite {
        DrainLeavesPartial(handle, e.conn, e.queue, limit - 1);
      }
    }
  }

  /** Once the connection waits to be closed, a drain handles one frame at most. */
  lemma {:induction false} DrainAfterRefusal(handle: Handler, c: Conn, q: seq<Work>, limit: nat)
    requires Consumes(handle) && c.closeAfterWrite
    ensures |Drain(handle, c, q, limit).0.conn.history.handled| <= |c.history.handled| + 1
  {
  }

  // ---------- the read loop ----------

  /** What the read loop relies on of drain_frames. */
  ghost predicate DrainsWell(drain: Drainer) {
    forall c, q, limit: nat {:trigger drain(c, q, limit)} ::
      var (e, n) := drain(c, q, limit);
      && Consumed(c, e.conn)
      && n <= limit
      && |e.conn.history.handled| <= |c.history.handled| + (if c.closeAfterWrite then 1 else limit)
      && (!e.raised ==> |e.conn.history.handled| == |c.history.handled| + n)
      && (!e.raised && !e.conn.closed && !e.conn.closeAfterWrite && n < limit ==> Peel(e.conn.readBuffer).Incomplete?)
  }

  lemma {:induction false} HandlerDrainsWell(cfg: Config, env: Env)
    ensures DrainsWell(DrainerOf(HandlerOf(cfg, env)))
  {
    var handle := HandlerOf(cfg, env);
    HandlerConsumes(cfg, env);
    forall c: Conn, q, limit: nat
      ensures var (e, n) := DrainerOf(handle)(c, q, limit);
              && Consumed(c, e.conn)
              && n <= limit
              && |e.conn.history.handled| <= |c.history.handled| + (if c.closeAfterWrite then 1 else limit)
              && (!e.raised ==> |e.conn.history.handled| == |c.history.handled| + n)
              && (!e.raised && !e.conn.closed && !e.conn.closeAfterWrite && n < limit ==> Peel(e.conn.readBuffer).Incomplete?)
    {
      DrainConsumed(handle, c, q, limit);
      DrainLeavesPartial(handle, c, q, limit);
      if c.closeAfterWrite { DrainAfterRefusal(handle, c, q, limit); }
    }
  }

  /** Between two turns: bytes are only read behind a partial frame, unless the connection was refused. */
  ghost predicate Steady(c: Conn, done: nat, frames: nat) {
    && |c.readBuffer| <= c.history.peak <= PARTIAL + READ_CHUNK_BYTES * (if done == 0 then 1 else done)
    && (c.closeAfterWrite ==> done > 0)
    && (!c.closeAfterWrite ==> c.history.peak <= PARTIAL + READ_CHUNK_BYTES)
    && (!c.closeAfterWrite && !c.closed && frames < MAX_FRAMES ==> Peel(c.readBuffer).Incomplete?)
  }

  /** Buffer bounds between ticks. */
  ghost predicate PeakInv(c: Conn) {
    && |c.readBuffer| <= c.history.peak <= PARTIAL + MAX_READS * READ_CHUNK_BYTES
    && (!c.closeAfterWrite ==> c.history.peak <= PARTIAL + READ_CHUNK_BYTES)
  }

  lemma {:induction false} TurnSteady(drain: Drainer, c: Conn, q: seq<Work>, chunk: Chunk, done: nat, frames: nat, now: Millis)
    requires DrainsWell(drain) && Steady(c, done, frames) && frames < MAX_FRAMES && done < MAX_READS && !c.closed
    ensures var (e, n) := drain(Arrived(c, chunk, now), q, MAX_FRAMES - frames);
            && PeakInv(e.conn)
            && (!e.raised ==> Steady(e.conn, done + 1, frames + n))
  {
    if !c.closeAfterWrite { IncompleteIsShort(c.readBuffer); }
    var a := Arrived(c, chunk, now);
    assert |a.readBuffer| == |c.readBuffer| + |chunk|;
    assert a.history.peak <= PARTIAL + READ_CHUNK_BYTES * (done + 1);
    var (e, n) := drain(a, q, MAX_FRAMES - frames);
  }

  /** Where a tick leaves an open connection: a partial frame, unless its frame budget is spent. */
  ghost predicate Settled(c: Conn, budgetSpent: bool) {
    c.closed || c.closeAfterWrite || budgetSpent || Peel(c.readBuffer).Incomplete?
  }

  lemma {:induction false} ReadLoopSteady(drain: Drainer, c: Conn, q: seq<Work>, script: seq<Bridge.ReadResult>,
                                          frames: nat, now: Millis, before: int)
    requires DrainsWell(drain) && Steady(c, 0, frames)
    requires |c.history.handled| == before + frames
    ensures var e := ReadLoop(drain, c, q, script, 0, frames, now).0;
            && PeakInv(e.conn)
            && (!e.raised ==> Settled(e.conn, |e.conn.history.handled| >= before + MAX_FRAMES))
  {
    var turn: Turn := (x: Conn, p: seq<Work>, done: nat, frames: nat) =>
      done <= MAX_READS && Steady(x, done, frames) && |x.history.handled| == before + frames;
    var end: End := (e: Effect) =>
      PeakInv(e.conn) && (!e.raised ==> Settled(e.conn, |e.conn.history.handled| >= before + MAX_FRAMES));
    forall x, p, done: nat, frames: nat, chunk: Chunk ensures MayReceive(turn, end, drain, now, x, p, done, frames, chunk) {
      if turn(x, p, done, frames) && done < MAX_READS && frames < MAX_FRAMES && !x.closed {
        TurnSteady(drain, x, p, chunk, done, frames, now);
      }
    }
    ReadLoopRule(turn, end, drain, c, q, script, 0, frames, now);
  }

  /**
   The buffer never holds more than a partial frame and one chunk while the connection is in
   good standing, and never more than a partial frame and eight chunks at all. A tick ends
   with a partial frame unless it handled 32 frames: no complete frame waits for a later tick.
   */
  lemma {:induction false} ReadTickBounded(cfg: Config, c: Conn, q: seq<Work>, script: seq<Bridge.ReadResult>, env: Env)
    requires PeakInv(c)
    ensures var (e, n) := ReadTick(cfg, c, q, script, env);
            && PeakInv(e.conn)
            && Settled(e.conn, |e.conn.history.handled| >= |c.history.handled| + MAX_FRAMES)
  {
    if !c.closed && !c.closeAfterWrite {
      HandlerDrainsWell(cfg, env);
      var drain := DrainerOf(HandlerOf(cfg, env));
      var (e, n) := drain(c, q, MAX_FRAMES);
      if !e.raised && !e.conn.closed && !e.conn.closeAfterWrite && n < MAX_FRAMES {
        ReadLoopSteady(drain, e.conn, e.queue, script, n, env.now, |c.history.handled|);
      }
    }
  }

  lemma {:induction false} LoopExtends(drain: Drainer, c: Conn, q: seq<Work>, script: seq<Bridge.ReadResult>,
                                       done: nat, frames: nat, now: Millis)
    requires DrainsWell(drain)
    ensures c.history.handled <= ReadLoop(drain, c, q, script, done, frames, now).0.conn.history.handled
  {
    var handled := c.history.handled;
    var turn: Turn := (x: Conn, p: seq<Work>, done: nat, frames: nat) => handled <= x.history.handled;
    var end: End := (x: Effect) => handled <= x.conn.history.handled;
    ReadLoopRule(turn, end, drain, c, q, script, done, frames, now);
  }

  /** What was handled stays handled, in order. */
  lemma {:induction false} ReadTickExtends(cfg: Config, c: Conn, q: seq<Work>, script: seq<Bridge.ReadResult>, env: Env)
    ensures c.history.handled <= ReadTick(cfg, c, q, script, env).0.conn.history.handled
  {
    if !c.closed && !c.closeAfterWrite {
      HandlerDrainsWell(cfg, env);
      var drain := DrainerOf(HandlerOf(cfg, env));
      var (e, n) := drain(c, q, MAX_FRAMES);
      if !e.raised { LoopExtends(drain, e.conn, e.queue, script, 0, n, env.now); }
    }
  }

  /** Writing leaves the reading side alone. */
  lemma {:induction false} FlushReadsNothing(c: Conn, script: seq<WriteResult>, now: Millis)
    requires Writable(c.writeQueue)
    ensures ReadingSame(c, FlushPending(c, script, now).0)
    ensures FlushPending(c, script, now).0.closeAfterWrite == c.closeAfterWrite
  {
    if !c.closed {
      var inv: Conn -> bool := (x: Conn) => ReadingSame(c, x) && x.closeAfterWrite == c.closeAfterWrite;
      WriteLoopKeeps(inv, c, script, 0, now);
    }
  }

  // ---------- delivery ----------

  /**
   Whatever chunks the bytes of a message list came in, the frames handled so far are a
   prefix of that list, and all of it once everything arrived and no whole frame is left.
   */
  lemma {:induction false} HandledInOrder(c: Conn, messages: seq<Bytes>, more: Bytes)
    requires ReadInv(c) && AllFit(messages) && c.history.received + more == Stream(messages)
    ensures c.history.handled <= messages
    ensures c.readBuffer + more == Stream(messages[|c.history.handled|..])
    ensures !Peel(c.readBuffer).Malformed?
    ensures more == [] && Peel(c.readBuffer).Incomplete? ==> c.history.handled == messages && c.readBuffer == []
  {
    var handled, buffer := c.history.handled, c.readBuffer;
    TakenIsPrefix(handled, buffer, more, messages);
    PrefixNotMalformed(buffer, more, messages[|handled|..]);
    if more == [] && Peel(buffer).Incomplete? {
      assert c.history.received + more == c.history.received;
      DrainedTakesAll(handled, buffer, messages);
    }
  }

  /** A peer that has received any part of what was sent has the answers in order. */
  lemma {:induction false} AnswersInOrder(c: Conn, arrived: Bytes, taken: seq<Bytes>, buffer: Bytes)
    requires WriteInv(c) && arrived <= c.history.sent
    requires AllFit(taken) && arrived == Stream(taken) + buffer
    ensures taken <= c.history.answers
    ensures !c.closed && c.writeQueue == [] && arrived == c.history.sent && !Peel(buffer).Complete? ==>
              taken == c.history.answers && buffer == []
  {
    var queued := c.history.queued;
    assert arrived <= queued;
    assert Stream(taken) + buffer + queued[|arrived|..] == queued;
    TakenIsPrefix(taken, buffer, queued[|arrived|..], c.history.answers);
    if !c.closed && c.writeQueue == [] && arrived == c.history.sent && !Peel(buffer).Complete? {
      assert c.history.sent + Unsent([]) == c.history.sent;
      DrainedTakesAll(taken, buffer, c.history.answers);
    }
  }
}
