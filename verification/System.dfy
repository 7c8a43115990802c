/**
 The whole bridge as a state machine: any number of connections, the shared request queue,
 the dispatcher and the mutation engine, with every interleaving of their ticks and of
 edits made outside them.
 */
module System {
  import opened Basics
  import opened Json
  import opened Framing
  import opened Protocol
  import opened Bridge
  import opened ConnectionInvariants
  import opened ConnectionRuns
  import opened ConnectionBounds
  import opened Refusals
  import opened Replies
  import opened Dispatcher
  import opened Handshakes
  import Tracking
  import Mutations
  import MutationRuns

  const MAX_CLIENTS := 32

  datatype Setup = Setup(sessionId: string, token: string, codec: Codec, routes: Routes)

  function ConfigOf(u: Setup, id: ConnId): Config {
    Config(id, u.sessionId, u.token, u.codec)
  }

  /** A command that was run, with the clock reading that let it run. */
  datatype Execution = Execution(work: Work, clock: Millis)

  /** `clients` are the connections poll_once still serves; the last four fields are history:
   requests queued, the clock when each was, requests popped, commands run. */
  datatype Sys = Sys(
    conns: map<ConnId, Conn>, clients: set<ConnId>, next: ConnId,
    queue: seq<Work>, world: Mutations.World,
    pushed: seq<Work>, arrivals: seq<Millis>, popped: seq<Work>, ran: seq<Execution>)

  datatype Step =
    | Connect(now: Millis)
    | Read(id: ConnId, input: seq<Bridge.ReadResult>, env: Env)
    | Flush(id: ConnId, output: seq<WriteResult>, flushNow: Millis)
    | ExpireStep(id: ConnId, expireNow: Millis)
    | Sweep(id: ConnId)                    // poll_once forgets a closed connection
    | Drop(id: ConnId)                     // stop closes and forgets a connection
    | Dispatch(turn: Dispatcher.Turn)                 // one turn of drain_once
    | Outside(event: Tracking.Event)

  function NewWork(q: seq<Work>, q': seq<Work>): seq<Work> {
    if |q| <= |q'| then q'[|q|..] else []
  }

  function Put(s: Sys, id: ConnId, c: Conn): Sys {
    s.(conns := s.conns[id := c])
  }

  function Connected(s: Sys, now: Millis): Sys {
    if |s.clients| >= MAX_CLIENTS then s
    else s.(conns := s.conns[s.next := Bridge.Accept(now)], clients := s.clients + {s.next}, next := s.next + 1)
  }

  function Stamps(works: seq<Work>, clock: Millis): seq<Millis> {
    seq(|works|, i => clock)
  }

  function Arrive(s: Sys, id: ConnId, e: Effect, clock: Millis): Sys {
    var more := NewWork(s.queue, e.queue);
    Put(s, id, e.conn).(queue := e.queue, pushed := s.pushed + more, arrivals := s.arrivals + Stamps(more, clock))
  }

  function Served(u: Setup, s: Sys, turn: Dispatcher.Turn): Sys {
    if s.queue == [] || s.queue[0].conn !in s.conns then s
    else
      var work := s.queue[0];
      var d := PopOne(u.codec, Desk(s.conns, s.queue, s.world), turn.clock, turn.play, RegistryOf(u.routes)).0;
      s.(conns := d.conns, queue := d.queue, world := d.world,
         popped := s.popped + [work],
         ran := s.ran + if Due(s.conns[work.conn], work, turn.clock) then [Execution(work, turn.clock)] else [])
  }

  function StepClient(u: Setup, s: Sys, st: Step, id: ConnId, c: Conn): Sys {
    match st
    case Read(_, input, env) => Arrive(s, id, ReadTick(ConfigOf(u, id), c, s.queue, input, env).0, env.clock)
    case Flush(_, output, now) =>
      if Writable(c.writeQueue) then Put(s, id, FlushPending(c, output, now).0) else s
    case ExpireStep(_, now) => Put(s, id, Expire(c, now))
    case Sweep(_) => if c.closed then s.(clients := s.clients - {id}) else s
    case Drop(_) => Put(s, id, Close(c)).(clients := s.clients - {id})
    case _ => s
  }

  function StepSys(u: Setup, s: Sys, st: Step): Sys {
    match st
    case Connect(now) => Connected(s, now)
    case Dispatch(turn) => Served(u, s, turn)
    case Outside(e) => s.(world := MutationRuns.StepWorld(s.world, MutationRuns.Outside(e)))
    case _ => if st.id in s.clients && st.id in s.conns then StepClient(u, s, st, st.id, s.conns[st.id]) else s
  }

  function RunSys(u: Setup, s: Sys, steps: seq<Step>): Sys
    decreases |steps|
  {
    if steps == [] then s else RunSys(u, StepSys(u, s, steps[0]), steps[1..])
  }

  ghost predicate InitialSys(s: Sys) {
    && s.conns == map[] && s.clients == {} && s.next == 0 && s.queue == []
    && s.pushed == [] && s.arrivals == [] && s.popped == [] && s.ran == []
    && Mutations.Initial(s.world)
  }

  // ---------- what holds of every reachable state ----------

  ghost predicate ConnOk(u: Setup, id: ConnId, c: Conn, queue: seq<Work>) {
    && Good(ConfigOf(u, id), c, queue) && PeakInv(c)
    && RefusalInv(ConfigOf(u, id), c) && OrderInv(ConfigOf(u, id), c, QueuedIds(queue, id))
    && GreetInv(ConfigOf(u, id), c)
  }

  /** The connection authenticated before it handled the message that asked for w. */
  ghost predicate ShakenBy(u: Setup, id: ConnId, handled: seq<Bytes>, w: Work) {
    Preceded(ConfigOf(u, id), handled, w)
  }

  // The step lemmas see the two predicates above as values, so that what a step does to the
  // bookkeeping is proved apart from what it does inside one connection.

  type Ok = (ConnId, Conn, seq<Work>) -> bool
  type Hands = (ConnId, seq<Bytes>, Work) -> bool

  ghost predicate Means(ok: Ok, hands: Hands, u: Setup) {
    && (forall id, c, q {:trigger ConnOk(u, id, c, q)} :: ok(id, c, q) == ConnOk(u, id, c, q))
    && (forall id, handled, w {:trigger ShakenBy(u, id, handled, w)} :: hands(id, handled, w) == ShakenBy(u, id, handled, w))
  }

  ghost predicate ConnsOk(ok: Ok, conns: map<ConnId, Conn>, queue: seq<Work>) {
    forall id :: id in conns ==> ok(id, conns[id], queue)
  }

  /** At most 32 connections are served, and every open connection is one of them. */
  ghost predicate ClientsOk(s: Sys) {
    && |s.clients| <= MAX_CLIENTS
    && (forall id :: id in s.clients ==> id in s.conns)
    && (forall id :: id in s.conns && !s.conns[id].closed ==> id in s.clients)
    && (forall id :: id in s.conns ==> id < s.next)
  }

  /** Its connection completed the handshake before the request was queued. */
  ghost predicate WorkOk(hands: Hands, conns: map<ConnId, Conn>, w: Work) {
    w.conn in conns && IsUuid(w.id) && hands(w.conn, conns[w.conn].history.handled, w)
  }

  ghost predicate WorksOk(hands: Hands, conns: map<ConnId, Conn>, pushed: seq<Work>) {
    forall i :: 0 <= i < |pushed| ==> WorkOk(hands, conns, pushed[i])
  }

  /** A deadline is the clock at arrival plus a timeout between 100 and 30000 milliseconds. */
  ghost predicate Timed(pushed: seq<Work>, arrivals: seq<Millis>) {
    && |arrivals| == |pushed|
    && forall i :: 0 <= i < |pushed| ==> arrivals[i] + 100 <= pushed[i].deadline <= arrivals[i] + 30_000
  }

  /** Requests leave the bounded queue in the order they entered it, and are run only before their deadline. */
  ghost predicate LogOk(s: Sys) {
    && s.pushed == s.popped + s.queue
    && |s.queue| <= REQUEST_QUEUE_CAPACITY
    && Timed(s.pushed, s.arrivals)
    && (forall i :: 0 <= i < |s.ran| ==> s.ran[i].clock < s.ran[i].work.deadline && s.ran[i].work in s.popped)
  }

  ghost predicate Inv(ok: Ok, hands: Hands, s: Sys) {
    ConnsOk(ok, s.conns, s.queue) && ClientsOk(s) && WorksOk(hands, s.conns, s.pushed) && LogOk(s)
  }

  // ---------- bookkeeping ----------

  /** From q to q' the queue grew by requests of connection `id`, or lost one of them from its head. */
  ghost predicate Touches(id: ConnId, q: seq<Work>, q': seq<Work>) {
    || (q <= q' && forall i :: |q| <= i < |q'| ==> q'[i].conn == id)
    || (q != [] && q[0].conn == id && q' == q[1..])
  }

  /** Connections other than `id` do not notice the change of the queue. */
  ghost predicate Undisturbed(ok: Ok, id: ConnId, q: seq<Work>, q': seq<Work>) {
    forall j, c {:trigger ok(j, c, q')} :: j != id && ok(j, c, q) ==> ok(j, c, q')
  }

  /** More handled messages do not undo a handshake. */
  ghost predicate Lasting(hands: Hands, id: ConnId, a: seq<Bytes>, b: seq<Bytes>) {
    forall w {:trigger hands(id, b, w)} :: hands(id, a, w) ==> hands(id, b, w)
  }

  lemma {:induction false} OneConnUpdated(ok: Ok, conns: map<ConnId, Conn>, q: seq<Work>, id: ConnId, c': Conn, q': seq<Work>)
    requires ConnsOk(ok, conns, q) && ok(id, c', q') && Undisturbed(ok, id, q, q')
    ensures ConnsOk(ok, conns[id := c'], q')
  {
  }

  lemma {:induction false} WorksStay(hands: Hands, conns: map<ConnId, Conn>, id: ConnId, c': Conn, pushed: seq<Work>)
    requires WorksOk(hands, conns, pushed)
    requires id in conns ==> Lasting(hands, id, conns[id].history.handled, c'.history.handled)
    requires id !in conns ==> forall i :: 0 <= i < |pushed| ==> pushed[i].conn != id
    ensures WorksOk(hands, conns[id := c'], pushed)
  {
    forall i | 0 <= i < |pushed| ensures WorkOk(hands, conns[id := c'], pushed[i]) {
      assert WorkOk(hands, conns, pushed[i]);
    }
  }

  lemma {:induction false} WorksMore(hands: Hands, conns: map<ConnId, Conn>, a: seq<Work>, b: seq<Work>)
    requires WorksOk(hands, conns, a) && WorksOk(hands, conns, b)
    ensures WorksOk(hands, conns, a + b)
  {
  }

  lemma {:induction false} TimedMore(a: seq<Work>, at: seq<Millis>, b: seq<Work>, bt: seq<Millis>)
    requires Timed(a, at) && Timed(b, bt)
    ensures Timed(a + b, at + bt)
  {
  }

  lemma {:induction false} ConnectInv(ok: Ok, hands: Hands, s: Sys, now: Millis)
    requires Inv(ok, hands, s) && ok(s.next, Bridge.Accept(now), s.queue)
    ensures Inv(ok, hands, Connected(s, now))
  {
    if |s.clients| < MAX_CLIENTS {
      var id, c := s.next, Bridge.Accept(now);
      OneConnUpdated(ok, s.conns, s.queue, id, c, s.queue);
      forall i | 0 <= i < |s.pushed| ensures s.pushed[i].conn != id {
        assert WorkOk(hands, s.conns, s.pushed[i]);
      }
      WorksStay(hands, s.conns, id, c, s.pushed);
    }
  }

  lemma {:induction false} PutInv(ok: Ok, hands: Hands, s: Sys, id: ConnId, c': Conn)
    requires Inv(ok, hands, s) && id in s.conns && id in s.clients && ok(id, c', s.queue)
    requires Lasting(hands, id, s.conns[id].history.handled, c'.history.handled)
    ensures Inv(ok, hands, Put(s, id, c'))
  {
    OneConnUpdated(ok, s.conns, s.queue, id, c', s.queue);
    WorksStay(hands, s.conns, id, c', s.pushed);
  }

  lemma {:induction false} FewerClients(ok: Ok, hands: Hands, s: Sys, id: ConnId)
    requires Inv(ok, hands, s) && id in s.conns && s.conns[id].closed
    ensures Inv(ok, hands, s.(clients := s.clients - {id}))
  {
    assert s.clients == (s.clients - {id}) + (s.clients * {id});
  }

  lemma {:induction false} ArriveInv(ok: Ok, hands: Hands, s: Sys, id: ConnId, e: Effect, clock: Millis)
    requires Inv(ok, hands, s) && id in s.conns && id in s.clients && ok(id, e.conn, e.queue)
    requires Lasting(hands, id, s.conns[id].history.handled, e.conn.history.handled)
    requires s.queue <= e.queue && |e.queue| <= REQUEST_QUEUE_CAPACITY && Undisturbed(ok, id, s.queue, e.queue)
    requires WorksOk(hands, s.conns[id := e.conn], NewWork(s.queue, e.queue))
    requires Timed(NewWork(s.queue, e.queue), Stamps(NewWork(s.queue, e.queue), clock))
    ensures Inv(ok, hands, Arrive(s, id, e, clock))
  {
    var more := NewWork(s.queue, e.queue);
    assert e.queue == s.queue + more;
    OneConnUpdated(ok, s.conns, s.queue, id, e.conn, e.queue);
    WorksStay(hands, s.conns, id, e.conn, s.pushed);
    WorksMore(hands, s.conns[id := e.conn], s.pushed, more);
    assert s.popped + (s.queue + more) == (s.popped + s.queue) + more;
    TimedMore(s.pushed, s.arrivals, more, Stamps(more, clock));
  }

  /** The head of the queue was processed and left its connection as c'. */
  function Popped(s: Sys, c': Conn, w': Mutations.World, ran: seq<Execution>): Sys
    requires s.queue != []
  {
    s.(conns := s.conns[s.queue[0].conn := c'], queue := s.queue[1..], world := w',
       popped := s.popped + [s.queue[0]], ran := s.ran + ran)
  }

  lemma {:induction false} PoppedInv(ok: Ok, hands: Hands, s: Sys, c': Conn, w': Mutations.World, ran: seq<Execution>)
    requires Inv(ok, hands, s) && s.queue != [] && s.queue[0].conn in s.conns
    requires ok(s.queue[0].conn, c', s.queue[1..]) && Undisturbed(ok, s.queue[0].conn, s.queue, s.queue[1..])
    requires c'.history.handled == s.conns[s.queue[0].conn].history.handled
    requires s.conns[s.queue[0].conn].closed ==> c'.closed
    requires forall i :: 0 <= i < |ran| ==> ran[i].work == s.queue[0] && ran[i].clock < ran[i].work.deadline
    ensures Inv(ok, hands, Popped(s, c', w', ran))
  {
    var id, s' := s.queue[0].conn, Popped(s, c', w', ran);
    OneConnUpdated(ok, s.conns, s.queue, id, c', s.queue[1..]);
    WorksStay(hands, s.conns, id, c', s.pushed);
    assert s.queue == [s.queue[0]] + s.queue[1..];
    assert s.popped + s.queue == s'.popped + s'.queue;
    assert s.queue[0] == s'.popped[|s.popped|];
    forall i | 0 <= i < |s'.ran| ensures s'.ran[i].clock < s'.ran[i].work.deadline && s'.ran[i].work in s'.popped {
    }
  }

  lemma {:induction false} HeadKnown(ok: Ok, hands: Hands, s: Sys, i: nat)
    requires Inv(ok, hands, s) && i < |s.queue|
    ensures WorkOk(hands, s.conns, s.queue[i]) && s.queue[i].conn < s.next
    ensures ok(s.queue[i].conn, s.conns[s.queue[i].conn], s.queue)
  {
    assert s.queue[i] == s.pushed[|s.popped| + i];
    assert WorkOk(hands, s.conns, s.pushed[|s.popped| + i]);
  }

  // ---------- inside the connections ----------

  lemma {:induction false} NoneQueued(q: seq<Work>, id: ConnId)
    requires forall i :: 0 <= i < |q| ==> q[i].conn != id
    ensures QueuedIds(q, id) == []
  {
    if q != [] { NoneQueued(q[1..], id); }
  }

  lemma {:induction false} OthersQueue(id: ConnId, j: ConnId, q: seq<Work>, q': seq<Work>)
    requires Touches(id, q, q') && j != id
    ensures QueuedIds(q', j) == QueuedIds(q, j)
    ensures forall i :: 0 <= i < |q'| && q'[i].conn == j ==> q'[i] in q
  {
    if q <= q' && forall i :: |q| <= i < |q'| ==> q'[i].conn == id {
      var more := q'[|q|..];
      assert q' == q + more;
      QueuedIdsAppend(q, more, j);
      NoneQueued(more, j);
    } else {
      assert q == [q[0]] + q[1..];
    }
  }

  lemma {:induction false} OthersOk(ok: Ok, hands: Hands, u: Setup, id: ConnId, q: seq<Work>, q': seq<Work>)
    requires Means(ok, hands, u) && Touches(id, q, q') && |q'| <= REQUEST_QUEUE_CAPACITY
    ensures Undisturbed(ok, id, q, q')
  {
    forall j, c | j != id && ok(j, c, q) ensures ok(j, c, q') {
      assert ConnOk(u, j, c, q);
      OthersQueue(id, j, q, q');
      assert ConnOk(u, j, c, q');
    }
  }

  lemma {:induction false} HandsLast(ok: Ok, hands: Hands, u: Setup, id: ConnId, a: seq<Bytes>, b: seq<Bytes>)
    requires Means(ok, hands, u) && a <= b
    ensures Lasting(hands, id, a, b)
  {
    forall w | hands(id, a, w) ensures hands(id, b, w) {
      assert ShakenBy(u, id, a, w);
      PrecededMore(ConfigOf(u, id), a, b, w);
      assert ShakenBy(u, id, b, w);
    }
  }

  lemma {:induction false} AcceptOk(ok: Ok, hands: Hands, u: Setup, id: ConnId, q: seq<Work>, now: Millis)
    requires Means(ok, hands, u) && |q| <= REQUEST_QUEUE_CAPACITY
    requires forall i :: 0 <= i < |q| ==> q[i].conn != id
    ensures ok(id, Bridge.Accept(now), q)
  {
    NoneQueued(q, id);
    AcceptGood(ConfigOf(u, id), q, now);
    AcceptGreets(ConfigOf(u, id), now);
    assert ConnOk(u, id, Bridge.Accept(now), q);
  }

  lemma {:induction false} CloseOk(ok: Ok, hands: Hands, u: Setup, id: ConnId, c: Conn, q: seq<Work>)
    requires Means(ok, hands, u) && ok(id, c, q)
    ensures ok(id, Close(c), q) && Close(c).history.handled == c.history.handled
  {
    assert ConnOk(u, id, c, q);
    CloseGood(ConfigOf(u, id), c, q);
    RefusalStays(ConfigOf(u, id), c, Close(c));
    OrderStays(ConfigOf(u, id), c, Close(c), QueuedIds(q, id));
    GreetStays(ConfigOf(u, id), c, Close(c));
    assert ConnOk(u, id, Close(c), q);
  }

  lemma {:induction false} ExpireOk(ok: Ok, hands: Hands, u: Setup, id: ConnId, c: Conn, q: seq<Work>, now: Millis)
    requires Means(ok, hands, u) && ok(id, c, q)
    ensures ok(id, Expire(c, now), q) && Expire(c, now).history.handled == c.history.handled
  {
    assert ConnOk(u, id, c, q);
    ExpireGood(ConfigOf(u, id), c, q, now);
    RefusalStays(ConfigOf(u, id), c, Expire(c, now));
    OrderStays(ConfigOf(u, id), c, Expire(c, now), QueuedIds(q, id));
    GreetStays(ConfigOf(u, id), c, Expire(c, now));
    assert ConnOk(u, id, Expire(c, now), q);
  }

  lemma {:induction false} FlushOk(ok: Ok, hands: Hands, u: Setup, id: ConnId, c: Conn, q: seq<Work>,
                                   output: seq<WriteResult>, now: Millis)
    requires Means(ok, hands, u) && ok(id, c, q)
    ensures Writable(c.writeQueue)
    ensures ok(id, FlushPending(c, output, now).0, q)
    ensures FlushPending(c, output, now).0.history.handled == c.history.handled
  {
    assert ConnOk(u, id, c, q);
    FlushPendingGood(ConfigOf(u, id), c, q, output, now);
    FlushReadsNothing(c, output, now);
    RefusalStays(ConfigOf(u, id), c, FlushPending(c, output, now).0);
    FlushOrder(ConfigOf(u, id), c, QueuedIds(q, id), output, now);
    FlushGreets(ConfigOf(u, id), c, output, now);
    assert ConnOk(u, id, FlushPending(c, output, now).0, q);
  }

  lemma {:induction false} ReadOk(ok: Ok, hands: Hands, u: Setup, id: ConnId, c: Conn, q: seq<Work>,
                                  input: seq<Bridge.ReadResult>, env: Env) returns (e: Effect)
    requires Means(ok, hands, u) && ok(id, c, q)
    ensures e == ReadTick(ConfigOf(u, id), c, q, input, env).0
    ensures ok(id, e.conn, e.queue) && c.history.handled <= e.conn.history.handled
    ensures Grows(ConfigOf(u, id), q, e.queue, env)
    ensures forall i :: |q| <= i < |e.queue| ==> hands(id, e.conn.history.handled, e.queue[i])
  {
    var cfg := ConfigOf(u, id);
    assert ConnOk(u, id, c, q);
    e := ReadTick(cfg, c, q, input, env).0;
    ReadTickGood(cfg, c, q, input, env);
    ReadTickBounded(cfg, c, q, input, env);
    ReadTickExtends(cfg, c, q, input, env);
    ReadTickRefusal(cfg, c, q, input, env);
    ReadTickOrder(cfg, c, q, input, env);
    ReadTickGreets(cfg, c, q, input, env);
    assert ConnOk(u, id, e.conn, e.queue);
    forall i | |q| <= i < |e.queue| ensures hands(id, e.conn.history.handled, e.queue[i]) {
      assert e.queue[i].conn == cfg.id;
      assert ShakenBy(u, id, e.conn.history.handled, e.queue[i]);
    }
  }

  lemma {:induction false} HeadOwed(c: Conn, q: seq<Work>, id: ConnId)
    requires q != [] && q[0].conn == id && Accounted(c, QueuedIds(q, id), [])
    ensures Accounted(c, QueuedIds(q[1..], id), [q[0].id])
  {
    var rest := QueuedIds(q[1..], id);
    assert QueuedIds(q, id) == [q[0].id] + rest;
    assert multiset([q[0].id] + rest) == multiset(rest) + multiset([q[0].id]);
  }

  lemma {:induction false} SettledOk(cfg: Config, c: Conn, q: seq<Work>, c': Conn)
    requires q != [] && Good(cfg, c, q) && Settles(c, c', QueuedIds(q[1..], cfg.id))
    ensures Good(cfg, c', q[1..])
  {
    assert OwnWorkPreceded(cfg, c, q[1..]);
  }

  lemma {:induction false} HeadReplied(u: Setup, c: Conn, q: seq<Work>, w: Mutations.World, clock: Millis, ran: Ran)
    requires Adequate(u.codec) && q != [] && IsUuid(q[0].id)
    requires OrderInv(ConfigOf(u, q[0].conn), c, QueuedIds(q, q[0].conn))
    requires OnlyAnswers(c, Process(u.codec, c, w, q[0], clock, ran).0)
    ensures OrderInv(ConfigOf(u, q[0].conn), Process(u.codec, c, w, q[0], clock, ran).0, QueuedIds(q[1..], q[0].conn))
  {
    var work := q[0];
    var c' := Process(u.codec, c, w, work, clock, ran).0;
    ProcessOnce(u.codec, c, w, work, clock, ran);
    var response := if Due(c, work, clock) then CommandResponse(work.id, ran.reply) else Some(TimeoutResponse(work.id));
    ServedOrder(ConfigOf(u, work.conn), c, work.id, QueuedIds(q[1..], work.conn), c', DueResponse(u.codec, work.id, response));
  }

  /** What answering the head of the queue changes of its connection. */
  lemma {:induction false} HeadSettled(u: Setup, c: Conn, q: seq<Work>, w: Mutations.World, clock: Millis, ran: Ran)
    requires Adequate(u.codec) && q != [] && IsUuid(q[0].id)
    requires WriteInv(c) && Accounted(c, QueuedIds(q, q[0].conn), [])
    ensures Settles(c, Process(u.codec, c, w, q[0], clock, ran).0, QueuedIds(q[1..], q[0].conn))
  {
    HeadOwed(c, q, q[0].conn);
    ProcessKeeps(u.codec, c, w, q[0], clock, ran, QueuedIds(q[1..], q[0].conn));
  }

  lemma {:induction false} ServedConn(u: Setup, c: Conn, q: seq<Work>, w: Mutations.World, clock: Millis, ran: Ran)
    requires Adequate(u.codec) && q != [] && IsUuid(q[0].id) && ConnOk(u, q[0].conn, c, q)
    ensures var c' := Process(u.codec, c, w, q[0], clock, ran).0;
            ConnOk(u, q[0].conn, c', q[1..]) && c'.history.handled == c.history.handled && (c.closed ==> c'.closed)
  {
    var cfg, c' := ConfigOf(u, q[0].conn), Process(u.codec, c, w, q[0], clock, ran).0;
    HeadSettled(u, c, q, w, clock, ran);
    SettledOk(cfg, c, q, c');
    RefusalStays(cfg, c, c');
    HeadReplied(u, c, q, w, clock, ran);
    ServedGreets(cfg, c, q, w, clock, ran);
  }

  lemma {:induction false} ServedOk(ok: Ok, hands: Hands, u: Setup, c: Conn, q: seq<Work>, w: Mutations.World,
                                    clock: Millis, ran: Ran) returns (c': Conn)
    requires Adequate(u.codec) && Means(ok, hands, u)
    requires q != [] && IsUuid(q[0].id) && ok(q[0].conn, c, q)
    ensures c' == Process(u.codec, c, w, q[0], clock, ran).0
    ensures ok(q[0].conn, c', q[1..])
    ensures c'.history.handled == c.history.handled && (c.closed ==> c'.closed)
  {
    assert ConnOk(u, q[0].conn, c, q);
    ServedConn(u, c, q, w, clock, ran);
    c' := Process(u.codec, c, w, q[0], clock, ran).0;
    assert ConnOk(u, q[0].conn, c', q[1..]);
  }

  // ---------- every step, every run ----------

  lemma {:induction false} GrownWork(hands: Hands, conns: map<ConnId, Conn>, cfg: Config, q: seq<Work>, q': seq<Work>, env: Env)
    requires Grows(cfg, q, q', env) && cfg.id in conns
    requires forall i :: |q| <= i < |q'| ==> hands(cfg.id, conns[cfg.id].history.handled, q'[i])
    ensures Touches(cfg.id, q, q') && WorksOk(hands, conns, NewWork(q, q'))
    ensures Timed(NewWork(q, q'), Stamps(NewWork(q, q'), env.clock))
  {
    forall i | 0 <= i < |NewWork(q, q')|
      ensures env.clock + 100 <= NewWork(q, q')[i].deadline <= env.clock + 30_000
    {
      assert NewWork(q, q')[i] == q'[|q| + i];
    }
    forall i | 0 <= i < |NewWork(q, q')| ensures WorkOk(hands, conns, NewWork(q, q')[i]) {
      assert NewWork(q, q')[i] == q'[|q| + i];
    }
  }

  lemma {:induction false} ReadInvKept(ok: Ok, hands: Hands, u: Setup, s: Sys, id: ConnId,
                                       input: seq<Bridge.ReadResult>, env: Env)
    requires Means(ok, hands, u) && Inv(ok, hands, s) && id in s.conns && id in s.clients
    ensures Inv(ok, hands, Arrive(s, id, ReadTick(ConfigOf(u, id), s.conns[id], s.queue, input, env).0, env.clock))
  {
    var e := ReadOk(ok, hands, u, id, s.conns[id], s.queue, input, env);
    GrownWork(hands, s.conns[id := e.conn], ConfigOf(u, id), s.queue, e.queue, env);
    OthersOk(ok, hands, u, id, s.queue, e.queue);
    HandsLast(ok, hands, u, id, s.conns[id].history.handled, e.conn.history.handled);
    ArriveInv(ok, hands, s, id, e, env.clock);
  }

  lemma {:induction false} ClientInv(ok: Ok, hands: Hands, u: Setup, s: Sys, st: Step, id: ConnId)
    requires Means(ok, hands, u) && Inv(ok, hands, s) && id in s.conns && id in s.clients
    ensures Inv(ok, hands, StepClient(u, s, st, id, s.conns[id]))
  {
    var c := s.conns[id];
    match st
    case Read(_, input, env) => ReadInvKept(ok, hands, u, s, id, input, env);
    case Flush(_, output, now) =>
      FlushOk(ok, hands, u, id, c, s.queue, output, now);
      PutInv(ok, hands, s, id, FlushPending(c, output, now).0);
    case ExpireStep(_, now) =>
      ExpireOk(ok, hands, u, id, c, s.queue, now);
      PutInv(ok, hands, s, id, Expire(c, now));
    case Sweep(_) => if c.closed { FewerClients(ok, hands, s, id); }
    case Drop(_) =>
      CloseOk(ok, hands, u, id, c, s.queue);
      PutInv(ok, hands, s, id, Close(c));
      FewerClients(ok, hands, Put(s, id, Close(c)), id);
    case _ =>
  }

  lemma {:induction false} ServedIsPopped(u: Setup, s: Sys, turn: Dispatcher.Turn, ran: Ran, c': Conn)
    requires s.queue != [] && s.queue[0].conn in s.conns
    requires ran == RegistryOf(u.routes)(s.world, s.queue[0].operation, s.queue[0].payload, turn.play)
    requires c' == Process(u.codec, s.conns[s.queue[0].conn], s.world, s.queue[0], turn.clock, ran).0
    ensures var due := Due(s.conns[s.queue[0].conn], s.queue[0], turn.clock);
            Served(u, s, turn) == Popped(s, c', if due then ran.world else s.world,
                                         if due then [Execution(s.queue[0], turn.clock)] else [])
  {
  }

  lemma {:induction false} ServedInv(ok: Ok, hands: Hands, u: Setup, s: Sys, turn: Dispatcher.Turn)
    requires Adequate(u.codec) && Means(ok, hands, u) && Inv(ok, hands, s)
    ensures Inv(ok, hands, Served(u, s, turn))
  {
    if s.queue != [] {
      var work := s.queue[0];
      HeadKnown(ok, hands, s, 0);
      var ran := RegistryOf(u.routes)(s.world, work.operation, work.payload, turn.play);
      var c' := ServedOk(ok, hands, u, s.conns[work.conn], s.queue, s.world, turn.clock, ran);
      var due := Due(s.conns[work.conn], work, turn.clock);
      OthersOk(ok, hands, u, work.conn, s.queue, s.queue[1..]);
      PoppedInv(ok, hands, s, c', if due then ran.world else s.world, if due then [Execution(work, turn.clock)] else []);
      ServedIsPopped(u, s, turn, ran, c');
    }
  }

  lemma {:induction false} StepInv(ok: Ok, hands: Hands, u: Setup, s: Sys, st: Step)
    requires Adequate(u.codec) && Means(ok, hands, u) && Inv(ok, hands, s)
    ensures Inv(ok, hands, StepSys(u, s, st))
  {
    match st
    case Connect(now) =>
      forall i | 0 <= i < |s.queue| ensures s.queue[i].conn != s.next {
        HeadKnown(ok, hands, s, i);
      }
      AcceptOk(ok, hands, u, s.next, s.queue, now);
      ConnectInv(ok, hands, s, now);
    case Dispatch(turn) => ServedInv(ok, hands, u, s, turn);
    case Outside(_) =>
    case _ => if st.id in s.clients && st.id in s.conns { ClientInv(ok, hands, u, s, st, st.id); }
  }

  lemma {:induction false} RunInv(ok: Ok, hands: Hands, u: Setup, s: Sys, steps: seq<Step>)
    requires Adequate(u.codec) && Means(ok, hands, u) && Inv(ok, hands, s)
    ensures Inv(ok, hands, RunSys(u, s, steps))
    decreases |steps|
  {
    if steps != [] {
      StepInv(ok, hands, u, s, steps[0]);
      RunInv(ok, hands, u, StepSys(u, s, steps[0]), steps[1..]);
    }
  }
}
