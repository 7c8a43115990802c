/**
 What holds of a connection at every moment, for every input the peer can send, every
 partial write and every clock.
 */
module ConnectionInvariants {
  import opened Basics
  import opened Json
  import opened Framing
  import opened Protocol
  import opened Bridge

  // ---------- write side ----------

  predicate ItemsOk(wq: seq<Item>) {
    forall i :: 0 <= i < |wq| ==> wq[i].offset < |wq[i].frame| && (i > 0 ==> wq[i].offset == 0)
  }

  function PendingBytes(wq: seq<Item>): int {
    if wq == [] then 0 else |wq[0].frame| - wq[0].offset + PendingBytes(wq[1..])
  }

  /** The part of an item still to be written. */
  function Left(item: Item): Bytes {
    if item.offset <= |item.frame| then item.frame[item.offset..] else []
  }

  function Unsent(wq: seq<Item>): Bytes {
    if wq == [] then [] else Left(wq[0]) + Unsent(wq[1..])
  }

  lemma {:induction false} Assoc(a: Bytes, b: Bytes, c: Bytes)
    ensures (a + b) + c == a + (b + c)
  {
  }

  /**
   The byte account is exact and bounded, a closed connection owes nothing, and what was
   sent together with what is still queued is every answer in order.
   */
  ghost predicate WriteInv(c: Conn) {
    && ItemsOk(c.writeQueue)
    && c.pending == PendingBytes(c.writeQueue)
    && c.pending <= MAX_PENDING_WRITE_BYTES
    && (c.closed ==> c.writeQueue == [] && c.outstanding == {})
    && c.history.sent <= c.history.queued
    && (!c.closed ==> c.history.sent + Unsent(c.writeQueue) == c.history.queued)
    && AllFit(c.history.answers)
    && Stream(c.history.answers) == c.history.queued
  }

  lemma {:induction false} AppendOk(wq: seq<Item>, item: Item)
    requires ItemsOk(wq) && item.offset == 0 && |item.frame| > 0
    ensures ItemsOk(wq + [item])
  {
  }

  lemma {:induction false} AppendPending(wq: seq<Item>, item: Item)
    requires item.offset == 0
    ensures PendingBytes(wq + [item]) == PendingBytes(wq) + |item.frame|
  {
    if wq == [] {
      assert wq + [item] == [item];
      assert [item][1..] == [];
    } else {
      assert (wq + [item])[1..] == wq[1..] + [item];
      AppendPending(wq[1..], item);
    }
  }

  lemma {:induction false} AppendUnsent(wq: seq<Item>, item: Item)
    requires item.offset == 0
    ensures Unsent(wq + [item]) == Unsent(wq) + item.frame
  {
    if wq == [] {
      assert wq + [item] == [item];
      assert [item][1..] == [];
      assert Unsent([item]) == Left(item) + Unsent([]);
      assert Left(item) + [] == item.frame;
    } else {
      assert (wq + [item])[1..] == wq[1..] + [item];
      AppendUnsent(wq[1..], item);
      Assoc(Left(wq[0]), Unsent(wq[1..]), item.frame);
    }
  }

  lemma {:induction false} CloseWrite(c: Conn)
    requires WriteInv(c)
    ensures WriteInv(Close(c))
  {
  }

  lemma {:induction false} QueuedWrite(c: Conn, response: Json, payload: Bytes, id: Option<string>, clock: Millis)
    requires WriteInv(c) && !c.closed && Fits(payload)
    requires c.pending + |Frame(payload)| <= MAX_PENDING_WRITE_BYTES
    ensures WriteInv(Queued(c, response, payload, Frame(payload), id, clock))
  {
    var item := Item(Frame(payload), 0, id);
    AppendOk(c.writeQueue, item);
    AppendPending(c.writeQueue, item);
    AppendUnsent(c.writeQueue, item);
    StreamSnoc(c.history.answers, payload);
    var c' := Queued(c, response, payload, Frame(payload), id, clock);
    Assoc(c.history.sent, Unsent(c.writeQueue), item.frame);
  }

  lemma {:induction false} EnqueueWrite(codec: Codec, c: Conn, response: Json, release: bool, clock: Millis)
    requires WriteInv(c)
    ensures WriteInv(Enqueue(codec, c, response, release, clock).0)
  {
    CloseWrite(c);
    var payload := codec.generate(response);
    if !c.closed && Fits(payload) && c.pending + |Frame(payload)| <= MAX_PENDING_WRITE_BYTES {
      QueuedWrite(c, response, payload, if release then ResponseId(response) else None, clock);
    }
  }

  lemma {:induction false} AdvanceOk(wq: seq<Item>, n: nat)
    requires ItemsOk(wq) && CanWrite(wq, n)
    ensures ItemsOk(Advance(wq, n))
  {
  }

  lemma {:induction false} AdvancePending(wq: seq<Item>, n: nat)
    requires CanWrite(wq, n)
    ensures PendingBytes(Advance(wq, n)) == PendingBytes(wq) - n
  {
    if wq[0].offset + n != |wq[0].frame| {
      assert Advance(wq, n)[1..] == wq[1..];
    }
  }

  lemma {:induction false} AdvanceUnsent(wq: seq<Item>, n: nat)
    requires CanWrite(wq, n)
    ensures HeadBytes(wq, n) + Unsent(Advance(wq, n)) == Unsent(wq)
  {
    var item, rest := wq[0], wq[1..];
    SplitLeft(item.frame, item.offset, n);
    if item.offset + n == |item.frame| {
      NothingLeft(HeadBytes(wq, n), Left(item), item.frame[item.offset + n..]);
    } else {
      var item' := item.(offset := item.offset + n);
      UnsentCons(item', rest);
      Assoc(HeadBytes(wq, n), Left(item'), Unsent(rest));
    }
  }

  lemma {:induction false} NothingLeft(head: Bytes, all: Bytes, tail: Bytes)
    requires all == head + tail && tail == []
    ensures all == head
  {
  }

  lemma {:induction false} UnsentCons(item: Item, rest: seq<Item>)
    ensures Unsent([item] + rest) == Left(item) + Unsent(rest)
  {
    assert ([item] + rest)[1..] == rest;
  }

  lemma {:induction false} SplitLeft(f: Bytes, from: nat, n: nat)
    requires from + n <= |f|
    ensures f[from..] == f[from..from + n] + f[from + n..]
  {
  }

  lemma {:induction false} SentGrows(sent: Bytes, head: Bytes, left: Bytes, queued: Bytes)
    requires sent + (head + left) == queued
    ensures sent + head <= queued && (sent + head) + left == queued
  {
    Assoc(sent, head, left);
  }

  lemma {:induction false} WrittenWrite(c: Conn, n: nat, now: Millis)
    requires WriteInv(c) && !c.closed && CanWrite(c.writeQueue, n)
    ensures WriteInv(Written(c, n, now)) && !Written(c, n, now).closed
  {
    var wq := c.writeQueue;
    AdvanceOk(wq, n);
    AdvancePending(wq, n);
    AdvanceUnsent(wq, n);
    SentGrows(c.history.sent, HeadBytes(wq, n), Unsent(Advance(wq, n)), c.history.queued);
  }

  // ---------- read side ----------

  /** Bytes received are the frames handled followed by the buffer: none lost, none invented. */
  ghost predicate ReadInv(c: Conn) {
    && AllFit(c.history.handled)
    && c.history.received == Stream(c.history.handled) + c.readBuffer
  }

  lemma {:induction false} TakenRead(c: Conn)
    requires ReadInv(c) && Peel(c.readBuffer).Complete?
    ensures ReadInv(Taken(c, Peel(c.readBuffer).payload, Peel(c.readBuffer).rest))
  {
    var p, rest := Peel(c.readBuffer).payload, Peel(c.readBuffer).rest;
    PeelInverse(c.readBuffer);
    StreamSnoc(c.history.handled, p);
    assert Stream(c.history.handled) + (Frame(p) + rest) == (Stream(c.history.handled) + Frame(p)) + rest;
  }

  lemma {:induction false} ArrivedRead(c: Conn, chunk: Bytes, now: Millis)
    requires ReadInv(c)
    ensures ReadInv(Arrived(c, chunk, now))
  {
    assert Stream(c.history.handled) + c.readBuffer + chunk == Stream(c.history.handled) + (c.readBuffer + chunk);
  }

  // ---------- handshake ----------

  ghost predicate HelloAt(cfg: Config, payload: Bytes) {
    Decode(cfg.codec, payload).Some? && ValidHello(Decode(cfg.codec, payload).value)
  }

  ghost predicate AuthenticateAt(cfg: Config, payload: Bytes) {
    && Decode(cfg.codec, payload).Some?
    && ValidAuthenticate(Decode(cfg.codec, payload).value)
    && cfg.codec.utf8(Token(Decode(cfg.codec, payload).value)) == cfg.codec.utf8(cfg.token)
  }

  /** The peer opened with a valid hello and later presented the server's token. */
  ghost predicate Shaken(cfg: Config, handled: seq<Bytes>) {
    && handled != [] && HelloAt(cfg, handled[0])
    && exists j :: 0 < j < |handled| && AuthenticateAt(cfg, handled[j])
  }

  ghost predicate PhaseInv(cfg: Config, c: Conn) {
    && (c.phase == AwaitHello && !c.closed ==> c.history.handled == [])
    && (c.phase != AwaitHello ==> c.history.handled != [] && HelloAt(cfg, c.history.handled[0]))
    && (c.phase == Ready ==> Shaken(cfg, c.history.handled))
  }

  /** The payload is a valid request that became this piece of work. */
  ghost predicate AskedBy(cfg: Config, payload: Bytes, w: Work) {
    Decode(cfg.codec, payload).Some? &&
    match ValidateRequest(Decode(cfg.codec, payload).value)
    case Accepted(r) => w.conn == cfg.id && w.id == r.id && w.operation == r.operation && w.payload == r.payload
    case Rejected(_, _, _) => false
  }

  /** The handshake was complete among the messages handled before the one that asked for w. */
  ghost predicate Preceded(cfg: Config, handled: seq<Bytes>, w: Work) {
    exists n: nat :: n < |handled| && AskedBy(cfg, handled[n], w) && Shaken(cfg, handled[..n])
  }

  ghost predicate OwnWorkPreceded(cfg: Config, c: Conn, q: seq<Work>) {
    forall i :: 0 <= i < |q| && q[i].conn == cfg.id ==> Preceded(cfg, c.history.handled, q[i])
  }

  // ---------- outstanding ids ----------

  function QueuedIds(q: seq<Work>, conn: ConnId): seq<string> {
    if q == [] then []
    else (if q[0].conn == conn then [q[0].id] else []) + QueuedIds(q[1..], conn)
  }

  function ReleaseIds(wq: seq<Item>): seq<string> {
    if wq == [] then []
    else (if wq[0].releaseId.Some? then [wq[0].releaseId.value] else []) + ReleaseIds(wq[1..])
  }

  lemma {:induction false} QueuedIdsAppend(a: seq<Work>, b: seq<Work>, conn: ConnId)
    ensures QueuedIds(a + b, conn) == QueuedIds(a, conn) + QueuedIds(b, conn)
  {
    if a == [] {
      assert a + b == b;
    } else {
      assert (a + b)[1..] == a[1..] + b;
      QueuedIdsAppend(a[1..], b, conn);
    }
  }

  lemma {:induction false} ReleaseIdsAppend(a: seq<Item>, b: seq<Item>)
    ensures ReleaseIds(a + b) == ReleaseIds(a) + ReleaseIds(b)
  {
    if a == [] {
      assert a + b == b;
    } else {
      assert (a + b)[1..] == a[1..] + b;
      ReleaseIdsAppend(a[1..], b);
    }
  }

  /**
   Request conservation. On an open connection every outstanding id is owed by exactly
   one place: a request waiting in the queue or an unsent response that will release it.
   `extra` holds the ids of requests popped but not yet answered.
   */
  ghost predicate Accounted(c: Conn, waiting: seq<string>, extra: seq<string>) {
    && (!c.closed ==>
          multiset(waiting) + multiset(extra) + multiset(ReleaseIds(c.writeQueue)) == multiset(c.outstanding))
    && |c.outstanding| <= MAX_OUTSTANDING_REQUESTS
  }

  lemma {:induction false} ReserveAccounted(c: Conn, waiting: seq<string>, id: string)
    requires Accounted(c, waiting, []) && id !in c.outstanding && |c.outstanding| < MAX_OUTSTANDING_REQUESTS
    ensures Accounted(Reserve(c, id), waiting, [id])
    ensures Accounted(Reserve(c, id), waiting + [id], [])
  {
    assert multiset(c.outstanding + {id}) == multiset(c.outstanding) + multiset{id};
    assert multiset([id]) == multiset{id};
    assert multiset(waiting + [id]) == multiset(waiting) + multiset([id]);
  }

  /** An answer that frees the id takes it over from `extra`; one that does not leaves the account alone. */
  lemma {:induction false} EnqueueAccounted(codec: Codec, c: Conn, response: Json, release: bool, clock: Millis,
                         waiting: seq<string>, extra: seq<string>)
    requires Accounted(c, waiting, if release then extra else [])
    requires release ==> ResponseId(response).Some? && extra == [ResponseId(response).value]
    ensures var (c', raised) := Enqueue(codec, c, response, release, clock);
            && (!raised ==> Accounted(c', waiting, []))
            && (raised ==> c' == c)
  {
    var (c', raised) := Enqueue(codec, c, response, release, clock);
    if !raised && !c'.closed {
      var releaseId := if release then ResponseId(response) else None;
      var item := Item(Frame(codec.generate(response)), 0, releaseId);
      assert c'.writeQueue == c.writeQueue + [item];
      ReleaseIdsAppend(c.writeQueue, [item]);
      assert [item][1..] == [];
      assert ReleaseIds([item]) == if release then extra else [];
      assert multiset(ReleaseIds(c'.writeQueue)) == multiset(ReleaseIds(c.writeQueue)) + multiset(ReleaseIds([item]));
    }
  }

  /** A finished response frees exactly its own id. */
  lemma {:induction false} WrittenAccounted(c: Conn, n: nat, now: Millis, waiting: seq<string>, extra: seq<string>)
    requires Accounted(c, waiting, extra) && !c.closed && CanWrite(c.writeQueue, n)
    ensures Accounted(Written(c, n, now), waiting, extra)
  {
    var wq := c.writeQueue;
    if wq[0].offset + n == |wq[0].frame| {
      if wq[0].releaseId.Some? {
        FreeId(c.outstanding, waiting, extra, wq[0].releaseId.value, ReleaseIds(wq[1..]));
      }
    } else {
      assert Advance(wq, n)[1..] == wq[1..];
    }
  }

  lemma {:induction false} FreeId(outstanding: set<string>, waiting: seq<string>, extra: seq<string>, id: string, rest: seq<string>)
    requires multiset(waiting) + multiset(extra) + multiset([id] + rest) == multiset(outstanding)
    ensures multiset(waiting) + multiset(extra) + multiset(rest) == multiset(outstanding - {id})
    ensures |outstanding - {id}| <= |outstanding|
  {
    var owed := multiset(waiting) + multiset(extra) + multiset(rest);
    assert multiset([id] + rest) == multiset{id} + multiset(rest);
    assert owed + multiset{id} == multiset(outstanding);
    assert multiset(outstanding)[id] >= 1;
    assert multiset(outstanding - {id}) == multiset(outstanding) - multiset{id};
    assert outstanding - {id} <= outstanding;
    assert outstanding == (outstanding - {id}) + (outstanding * {id});
  }
}
