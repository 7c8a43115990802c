/**
 What holds in every state the bridge can reach from an empty start, for every peer, every
 schedule of ticks, every clock and every behaviour of the host.
 */
module SystemRuns {
  import opened Basics
  import opened Json
  import opened Framing
  import opened Protocol
  import opened Bridge
  import opened ConnectionInvariants
  import opened ConnectionRuns
  import opened ConnectionBounds
  import opened Refusals
  import opened Replies
  import opened Dispatcher
  import opened System
  import Commands
  import Fingerprint
  import Mutations
  import MutationOutcomes
  import MutationRuns
  import Tracking

  /** Some run from an empty start ends in s. */
  ghost predicate Reachable(u: Setup, s: Sys) {
    exists s0, steps :: InitialSys(s0) && s == RunSys(u, s0, steps)
  }

  lemma {:induction false} ReachedInv(u: Setup, s: Sys) returns (ok: Ok, hands: Hands)
    requires Adequate(u.codec) && Reachable(u, s)
    ensures Means(ok, hands, u) && Inv(ok, hands, s)
  {
    ok := (id: ConnId, c, q) => ConnOk(u, id, c, q);
    hands := (id: ConnId, handled, w) => ShakenBy(u, id, handled, w);
    var s0, steps :| InitialSys(s0) && s == RunSys(u, s0, steps);
    assert Inv(ok, hands, s0);
    RunInv(ok, hands, u, s0, steps);
  }

  lemma {:induction false} ReachedConn(u: Setup, s: Sys, id: ConnId)
    requires Adequate(u.codec) && Reachable(u, s) && id in s.conns
    ensures ConnOk(u, id, s.conns[id], s.queue)
  {
    var ok, hands := ReachedInv(u, s);
    assert ok(id, s.conns[id], s.queue);
  }

  /**
   Request conservation: on every open connection each outstanding id is owed exactly once,
   by a request waiting in the queue or by an unsent response that will release it, and
   there are at most 32 of them.
   */
  lemma {:induction false} RequestsConserved(u: Setup, s: Sys, id: ConnId)
    requires Adequate(u.codec) && Reachable(u, s)
    requires id in s.conns && !s.conns[id].closed
    ensures var c := s.conns[id];
            && multiset(QueuedIds(s.queue, id)) + multiset(ReleaseIds(c.writeQueue)) == multiset(c.outstanding)
            && |c.outstanding| <= 32
  {
    ReachedConn(u, s, id);
    OwedOnce(s.conns[id], QueuedIds(s.queue, id));
  }

  lemma {:induction false} OwedOnce(c: Conn, waiting: seq<string>)
    requires Accounted(c, waiting, []) && !c.closed
    ensures multiset(waiting) + multiset(ReleaseIds(c.writeQueue)) == multiset(c.outstanding) && |c.outstanding| <= 32
  {
    assert multiset(waiting) + multiset([]) == multiset(waiting);
  }

  /**
   The byte account of the write queue: exact, at most 2 MiB, nothing after close; the bytes
   sent are a prefix of the answers' frames in the order they were queued.
   */
  lemma {:induction false} WritesAccounted(u: Setup, s: Sys, id: ConnId)
    requires Adequate(u.codec) && Reachable(u, s)
    requires id in s.conns
    ensures var c := s.conns[id];
            && c.pending == PendingBytes(c.writeQueue) && 0 <= c.pending <= 2 * 1_048_576
            && (c.closed ==> c.pending == 0 && c.writeQueue == [] && c.outstanding == {})
            && AllFit(c.history.answers) && c.history.sent <= Stream(c.history.answers)
  {
    ReachedConn(u, s, id);
    WriteAccount(s.conns[id]);
  }

  lemma {:induction false} PendingPositive(wq: seq<Item>)
    requires Writable(wq)
    ensures PendingBytes(wq) >= 0
  {
    if wq != [] { PendingPositive(wq[1..]); }
  }

  lemma {:induction false} WriteAccount(c: Conn)
    requires ConnectionInvariants.WriteInv(c)
    ensures c.pending == PendingBytes(c.writeQueue) && 0 <= c.pending <= 2 * 1_048_576
    ensures c.closed ==> c.pending == 0 && c.writeQueue == [] && c.outstanding == {}
    ensures AllFit(c.history.answers) && c.history.sent <= Stream(c.history.answers)
  {
    PendingPositive(c.writeQueue);
  }

  /**
   Chunking: if a peer encoded a list of messages and any part of its bytes has arrived, in
   any chunks, the connection has handled a prefix of the list; the buffer is what follows.
   */
  lemma {:induction false} MessagesHandledInOrder(u: Setup, s: Sys, id: ConnId,
                                                  messages: seq<Bytes>, more: Bytes)
    requires Adequate(u.codec) && Reachable(u, s) && AllFit(messages)
    requires id in s.conns && s.conns[id].history.received + more == Stream(messages)
    ensures var c := s.conns[id];
            && c.history.handled <= messages
            && c.readBuffer + more == Stream(messages[|c.history.handled|..])
            && (more == [] && Peel(c.readBuffer).Incomplete? ==> c.history.handled == messages)
  {
    ReachedConn(u, s, id);
    HandledInOrder(s.conns[id], messages, more);
  }

  /** A client that split what it received into frames has the first answers, in order. */
  lemma {:induction false} AnswersReceivedInOrder(u: Setup, s: Sys, id: ConnId,
                                                  arrived: Bytes, taken: seq<Bytes>, buffer: Bytes)
    requires Adequate(u.codec) && Reachable(u, s) && AllFit(taken)
    requires id in s.conns && arrived <= s.conns[id].history.sent && arrived == Stream(taken) + buffer
    ensures var c := s.conns[id];
            && taken <= c.history.answers
            && (!c.closed && c.writeQueue == [] && arrived == c.history.sent && !Peel(buffer).Complete? ==>
                  taken == c.history.answers)
  {
    ReachedConn(u, s, id);
    AnswersInOrder(s.conns[id], arrived, taken, buffer);
  }

  /** Read-buffer bounds: a partial frame and one chunk in good standing, eight chunks at worst. */
  lemma {:induction false} BuffersBounded(u: Setup, s: Sys, id: ConnId)
    requires Adequate(u.codec) && Reachable(u, s)
    requires id in s.conns
    ensures var c := s.conns[id];
            && |c.readBuffer| <= c.history.peak <= 1_048_576 + 3 + 8 * 65_536
            && (!c.closeAfterWrite ==> c.history.peak <= 1_048_576 + 3 + 65_536)
  {
    ReachedConn(u, s, id);
  }

  /** The peer opened with a valid hello and later presented exactly the server's token. */
  ghost predicate Authenticated(u: Setup, handled: seq<Bytes>) {
    && handled != []
    && Decode(u.codec, handled[0]).Some? && ValidHello(Decode(u.codec, handled[0]).value)
    && exists j :: 0 < j < |handled| && PresentsToken(u, handled[j])
  }

  ghost predicate PresentsToken(u: Setup, payload: Bytes) {
    && Decode(u.codec, payload).Some? && ValidAuthenticate(Decode(u.codec, payload).value)
    && Token(Decode(u.codec, payload).value) == u.token
  }

  lemma {:induction false} ShakenIsAuthenticated(u: Setup, id: ConnId, handled: seq<Bytes>)
    requires Adequate(u.codec) && Shaken(ConfigOf(u, id), handled)
    ensures Authenticated(u, handled)
  {
    var j :| 0 < j < |handled| && AuthenticateAt(ConfigOf(u, id), handled[j]);
    assert PresentsToken(u, handled[j]);
  }

  /** The message was a valid request, and this work is what it asked for. */
  ghost predicate Requests(u: Setup, payload: Bytes, w: Work) {
    Decode(u.codec, payload).Some? &&
    match ValidateRequest(Decode(u.codec, payload).value)
    case Accepted(r) => w.id == r.id && w.operation == r.operation && w.payload == r.payload
    case Rejected(_, _, _) => false
  }

  /**
   Handshake safety: whatever entered the queue was asked for by a message its connection
   handled, and the handshake was complete among the messages handled before that one.
   */
  lemma {:induction false} OnlyAuthenticatedWork(u: Setup, s: Sys, i: nat)
    requires Adequate(u.codec) && Reachable(u, s) && i < |s.pushed|
    ensures s.pushed[i].conn in s.conns
    ensures var handled := s.conns[s.pushed[i].conn].history.handled;
            exists n: nat :: n < |handled| && Requests(u, handled[n], s.pushed[i]) && Authenticated(u, handled[..n])
  {
    var ok, hands := ReachedInv(u, s);
    var w := s.pushed[i];
    assert WorkOk(hands, s.conns, w);
    var handled := s.conns[w.conn].history.handled;
    assert ShakenBy(u, w.conn, handled, w);
    var n: nat :| n < |handled| && AskedBy(ConfigOf(u, w.conn), handled[n], w) && Shaken(ConfigOf(u, w.conn), handled[..n]);
    ShakenIsAuthenticated(u, w.conn, handled[..n]);
    assert Requests(u, handled[n], w);
  }

  /** The message presents a well-formed token that is not the server's. */
  ghost predicate PresentsAnother(u: Setup, payload: Bytes) {
    && Decode(u.codec, payload).Some? && ValidAuthenticate(Decode(u.codec, payload).value)
    && Token(Decode(u.codec, payload).value) != u.token
  }

  /** After a wrong token the connection is closed or waits to be, and handles at most seven more messages, ever. */
  lemma {:induction false} SevenAfterRefusal(u: Setup, s: Sys, id: ConnId, r: nat)
    requires Adequate(u.codec) && Reachable(u, s)
    requires id in s.conns && r < |s.conns[id].history.handled| && PresentsAnother(u, s.conns[id].history.handled[r])
    ensures s.conns[id].closed || s.conns[id].closeAfterWrite
    ensures |s.conns[id].history.handled| <= r + 1 + 7
  {
    ReachedConn(u, s, id);
    assert RefusedAt(ConfigOf(u, id), s.conns[id].history.handled[r]);
  }

  /**
   The queue is a bounded FIFO; every deadline is the clock at the request's arrival plus 100
   to 30000 milliseconds; no command ran at or after its deadline; at most 32 connections are
   served and every open one is among them.
   */
  lemma {:induction false} QueueAndDeadlines(u: Setup, s: Sys)
    requires Adequate(u.codec) && Reachable(u, s)
    ensures s.pushed == s.popped + s.queue && |s.queue| <= 128 && |s.arrivals| == |s.pushed|
    ensures forall i :: 0 <= i < |s.pushed| ==> s.arrivals[i] + 100 <= s.pushed[i].deadline <= s.arrivals[i] + 30_000
    ensures forall i :: 0 <= i < |s.ran| ==> s.ran[i].clock < s.ran[i].work.deadline && s.ran[i].work in s.popped
    ensures |s.clients| <= 32
    ensures forall id :: id in s.conns && !s.conns[id].closed ==> id in s.clients
  {
    var ok, hands := ReachedInv(u, s);
  }

  // ---------- progress ----------

  function Dispatches(steps: seq<Step>): nat {
    if steps == [] then 0 else (if steps[0].Dispatch? then 1 else 0) + Dispatches(steps[1..])
  }

  /** A step appends to what was queued and, if it dispatches, pops the head when there is one. */
  ghost predicate Moves(s: Sys, s': Sys, dispatch: bool) {
    && s.pushed <= s'.pushed && s.popped <= s'.popped
    && (dispatch && s.queue != [] ==> |s'.popped| == |s.popped| + 1)
  }

  lemma {:induction false} StepMoves(ok: Ok, hands: Hands, u: Setup, s: Sys, st: Step)
    requires Inv(ok, hands, s)
    ensures Moves(s, StepSys(u, s, st), st.Dispatch?)
  {
    if st.Dispatch? && s.queue != [] { HeadKnown(ok, hands, s, 0); }
  }

  lemma {:induction false} PoppedUpTo(ok: Ok, hands: Hands, u: Setup, s: Sys, steps: seq<Step>, target: nat)
    requires Adequate(u.codec) && Means(ok, hands, u) && Inv(ok, hands, s) && target <= |s.pushed|
    ensures var s' := RunSys(u, s, steps);
            && s.pushed <= s'.pushed
            && (|s'.popped| >= target || |s'.popped| >= |s.popped| + Dispatches(steps))
    decreases |steps|
  {
    if steps != [] {
      var s1 := StepSys(u, s, steps[0]);
      StepMoves(ok, hands, u, s, steps[0]);
      StepInv(ok, hands, u, s, steps[0]);
      PoppedUpTo(ok, hands, u, s1, steps[1..], target);
      PoppedGrows(ok, hands, u, s1, steps[1..]);
    }
  }

  lemma {:induction false} PoppedGrows(ok: Ok, hands: Hands, u: Setup, s: Sys, steps: seq<Step>)
    requires Adequate(u.codec) && Means(ok, hands, u) && Inv(ok, hands, s)
    ensures s.popped <= RunSys(u, s, steps).popped
    decreases |steps|
  {
    if steps != [] {
      StepMoves(ok, hands, u, s, steps[0]);
      StepInv(ok, hands, u, s, steps[0]);
      PoppedGrows(ok, hands, u, StepSys(u, s, steps[0]), steps[1..]);
    }
  }

  /**
   Progress: sixteen dispatcher ticks of eight turns pop every request accepted before them,
   first in first out, whatever is pushed in the meantime.
   */
  lemma {:induction false} SixteenTicksDrain(u: Setup, s: Sys, steps: seq<Step>)
    requires Adequate(u.codec) && Reachable(u, s)
    requires Dispatches(steps) >= 16 * MAX_PER_TICK
    ensures s.pushed <= RunSys(u, s, steps).popped
  {
    var ok, hands := ReachedInv(u, s);
    var s' := RunSys(u, s, steps);
    PoppedUpTo(ok, hands, u, s, steps, |s.pushed|);
    PoppedGrows(ok, hands, u, s, steps);
    RunInv(ok, hands, u, s, steps);
    PrefixOf(s.pushed, s'.popped, s'.queue);
  }

  lemma {:induction false} PrefixOf(a: seq<Work>, popped: seq<Work>, queue: seq<Work>)
    requires a <= popped + queue && |a| <= |popped|
    ensures a <= popped
  {
    assert forall i :: 0 <= i < |a| ==> a[i] == (popped + queue)[i];
  }

  // ---------- the order of answers ----------

  /** Every message a connection has handled was answered exactly once, or waits in the queue, or ended the connection. */
  lemma {:induction false} AnsweredOrWaiting(u: Setup, s: Sys, id: ConnId)
    requires Adequate(u.codec) && Reachable(u, s) && id in s.conns
    ensures var h := s.conns[id].history;
            && |h.answers| == |h.replies|
            && (forall i :: 0 <= i < |h.answers| ==> h.answers[i] == u.codec.generate(h.replies[i]))
            && (!s.conns[id].closed ==> |h.answers| + |QueuedIds(s.queue, id)| == |h.handled|)
  {
    ReachedConn(u, s, id);
  }

  lemma {:induction false} OrderGives(cfg: Config, c: Conn, waiting: seq<string>, ids: seq<string>, p: nat)
    requires OrderInv(cfg, c, waiting)
    requires Distinct(ids) && AskedIds(cfg.codec, c.history.handled) <= ids && p < |c.history.replies|
    ensures Fair(Remaining(ids, c.history.replies[..p]), c.history.replies[p])
  {
    var asked := AskedIds(cfg.codec, c.history.handled);
    DistinctPrefix(asked, ids);
    SuccessAnswersOldest(asked, ids, c.history.replies, p);
  }

  /**
   A client that uses no id twice sends requests; the connection has handled some of them and
   the client has read the first p answers. Whichever of its requests those leave unanswered,
   a next answer that reports success is the answer to the oldest of them, and any other
   response is the answer to one of them.
   */
  lemma {:induction false} SuccessIsOldest(u: Setup, s: Sys, id: ConnId, ids: seq<string>, p: nat)
    requires Adequate(u.codec) && Reachable(u, s) && id in s.conns
    requires Distinct(ids) && AskedIds(u.codec, s.conns[id].history.handled) <= ids
    requires p < |s.conns[id].history.replies|
    ensures var owed := Remaining(ids, s.conns[id].history.replies[..p]);
            var reply := s.conns[id].history.replies[p];
            && (ResponseId(reply).Some? ==> ResponseId(reply).value in owed)
            && (IsSuccess(reply) ==> owed != [] && ResponseId(reply) == Some(owed[0]))
  {
    ReachedConn(u, s, id);
    OrderGives(ConfigOf(u, id), s.conns[id], QueuedIds(s.queue, id), ids, p);
  }

  /** What an open connection's answers leave of its requests is what waits in the queue, in the same order. */
  lemma {:induction false} UnansweredIsQueued(u: Setup, s: Sys, id: ConnId)
    requires Adequate(u.codec) && Reachable(u, s) && id in s.conns && !s.conns[id].closed
    requires Distinct(AskedIds(u.codec, s.conns[id].history.handled))
    ensures Remaining(AskedIds(u.codec, s.conns[id].history.handled), s.conns[id].history.replies) == QueuedIds(s.queue, id)
  {
    ReachedConn(u, s, id);
  }

  // ---------- the engine under the bridge ----------

  /** What one command is to the engine. */
  function CommandSteps(route: Option<Mutations.Operation>, payload: Json, play: Play): seq<MutationRuns.Step> {
    match route
    case Some(op) => [MutationRuns.Request(op, payload, play.attempt)]
    case None => if play.captures then [MutationRuns.Observe] else []
  }

  function WorldSteps(u: Setup, s: Sys, st: Step): seq<MutationRuns.Step> {
    match st
    case Dispatch(turn) =>
      if s.queue != [] && s.queue[0].conn in s.conns && Due(s.conns[s.queue[0].conn], s.queue[0], turn.clock) then
        CommandSteps(u.routes(s.queue[0].operation), s.queue[0].payload, turn.play)
      else []
    case Outside(e) => [MutationRuns.Outside(e)]
    case _ => []
  }

  function WorldRun(u: Setup, s: Sys, steps: seq<Step>): seq<MutationRuns.Step>
    decreases |steps|
  {
    if steps == [] then [] else WorldSteps(u, s, steps[0]) + WorldRun(u, StepSys(u, s, steps[0]), steps[1..])
  }

  lemma {:induction false} OneWorldStep(w: Mutations.World, st: MutationRuns.Step)
    ensures MutationRuns.Run(w, [st]) == MutationRuns.StepWorld(w, st)
  {
    assert [st][1..] == [];
  }

  lemma {:induction false} CommandIsRun(w: Mutations.World, route: Option<Mutations.Operation>, payload: Json, play: Play)
    ensures MutationRuns.Run(w, CommandSteps(route, payload, play)) == RunRouted(w, route, payload, play).world
  {
    match route
    case Some(op) => OneWorldStep(w, MutationRuns.Request(op, payload, play.attempt));
    case None => OneWorldStep(w, MutationRuns.Observe);
  }

  lemma {:induction false} ServedWorld(u: Setup, s: Sys, turn: Dispatcher.Turn)
    ensures Served(u, s, turn).world == MutationRuns.Run(s.world, WorldSteps(u, s, Dispatch(turn)))
  {
    if s.queue != [] {
      CommandIsRun(s.world, u.routes(s.queue[0].operation), s.queue[0].payload, turn.play);
    }
  }

  lemma {:induction false} StepWorlds(u: Setup, s: Sys, st: Step)
    ensures StepSys(u, s, st).world == MutationRuns.Run(s.world, WorldSteps(u, s, st))
  {
    match st
    case Dispatch(turn) => ServedWorld(u, s, turn);
    case Outside(e) => OneWorldStep(s.world, MutationRuns.Outside(e));
    case _ =>
  }

  /** The engine under the bridge makes a run of its own: commands in the order they were popped, between edits. */
  lemma {:induction false} WorldRuns(u: Setup, s: Sys, steps: seq<Step>)
    ensures RunSys(u, s, steps).world == MutationRuns.Run(s.world, WorldRun(u, s, steps))
    decreases |steps|
  {
    if steps != [] {
      var s1 := StepSys(u, s, steps[0]);
      StepWorlds(u, s, steps[0]);
      WorldRuns(u, s1, steps[1..]);
      MutationOutcomes.RunAppend(s.world, WorldSteps(u, s, steps[0]), WorldRun(u, s1, steps[1..]));
    }
  }

  /**
   End to end: however requests are resent, under whatever request ids and connections,
   and whatever is closed, timed out, edited or undone in between, the body of a mutation
   starts at most once per operation id and cache epoch; no record is left running; and
   successful writes are serialised by revision.
   */
  lemma {:induction false} AtMostOnceEndToEnd(u: Setup, s: Sys)
    requires Reachable(u, s)
    ensures MutationRuns.Once(MutationRuns.Bodies(s.world.log.calls))
    ensures forall id :: id in s.world.records ==> MutationRuns.Terminal(s.world.records[id])
    ensures MutationRuns.Serialised(s.world.log.writes)
  {
    var s0, steps :| InitialSys(s0) && s == RunSys(u, s0, steps);
    WorldRuns(u, s0, steps);
    MutationRuns.AtMostOncePerEpoch(s0.world, WorldRun(u, s0, steps));
    MutationRuns.WritesSerialised(s0.world, WorldRun(u, s0, steps));
  }

  // ---------- replay, end to end ----------

  /** A command name selects an operation that carries it as its name. */
  ghost predicate Named(routes: Routes) {
    forall name :: routes(name).Some? ==> routes(name).value.name == name
  }

  /** The product's routing table does. */
  lemma {:induction false} RoutesNamed()
    ensures Named(name => Commands.Route(name))
  {
    forall name | Commands.Route(name).Some? ensures Commands.Route(name).value.name == name {
      Commands.RouteNamed(name);
    }
  }

  /** A due request for a mutation is at the head of the queue. */
  ghost predicate HeadMutates(u: Setup, s: Sys, turn: Dispatcher.Turn) {
    && s.queue != [] && s.queue[0].conn in s.conns
    && Due(s.conns[s.queue[0].conn], s.queue[0], turn.clock)
    && u.routes(s.queue[0].operation).Some?
  }

  function HeadOp(u: Setup, s: Sys): Mutations.Operation
    requires s.queue != [] && u.routes(s.queue[0].operation).Some?
  {
    u.routes(s.queue[0].operation).value
  }

  /** What the engine answers to the head of the queue. */
  function HeadReply(u: Setup, s: Sys, turn: Dispatcher.Turn): Mutations.Reply
    requires s.queue != [] && u.routes(s.queue[0].operation).Some?
  {
    Mutations.Handle(s.world, HeadOp(u, s), s.queue[0].payload, turn.play.attempt).1
  }

  /** Unless it closed meanwhile, the connection of `work` was sent this reply, or INTERNAL if it does not fit a frame. */
  ghost predicate Delivered(u: Setup, s: Sys, s': Sys, work: Work, reply: Mutations.Reply) {
    && work.conn in s.conns && work.conn in s'.conns
    && (s'.conns[work.conn].closed ||
        AnsweredOnce(u.codec, s.conns[work.conn], s'.conns[work.conn], work.id,
                     DueResponse(u.codec, work.id, Some(ReplyResponse(work.id, reply)))))
  }

  lemma {:induction false} HeadAnswered(u: Setup, s: Sys, turn: Dispatcher.Turn)
    requires Adequate(u.codec) && HeadMutates(u, s, turn) && IsUuid(s.queue[0].id)
    ensures Served(u, s, turn).world ==
            Mutations.Handle(s.world, HeadOp(u, s), s.queue[0].payload, turn.play.attempt).0
    ensures Delivered(u, s, Served(u, s, turn), s.queue[0], HeadReply(u, s, turn))
  {
    var work := s.queue[0];
    var ran := RegistryOf(u.routes)(s.world, work.operation, work.payload, turn.play);
    ProcessOnce(u.codec, s.conns[work.conn], s.world, work, turn.clock, ran);
  }

  lemma {:induction false} LaterHeadIsUuid(u: Setup, s: Sys, turn: Dispatcher.Turn, steps: seq<Step>)
    requires Adequate(u.codec) && Reachable(u, s) && RunSys(u, Served(u, s, turn), steps).queue != []
    ensures IsUuid(RunSys(u, Served(u, s, turn), steps).queue[0].id)
  {
    RunReachable(u, s, [Dispatch(turn)] + steps);
    assert ([Dispatch(turn)] + steps)[1..] == steps;
    HeadIsUuid(u, RunSys(u, Served(u, s, turn), steps));
  }

  /**
   A mutation is executed and answered. After any steps that leave the replay cache alone, a
   request with the same operation_id comes up for the model the cache belongs to: on any
   connection, under any request id, whatever became of the first one's. Nothing is executed
   and nothing is recorded; the answer is the first one's reply if the command is the same and
   the payload is, up to operation_id and key order, and OPERATION_ID_REUSE otherwise.
   */
  lemma {:induction false} ReplayEndToEnd(u: Setup, s: Sys, turn: Dispatcher.Turn, steps: seq<Step>, again: Dispatcher.Turn)
    requires Adequate(u.codec) && Named(u.routes) && Reachable(u, s)
    requires HeadMutates(u, s, turn)
    requires MutationRuns.Executes(s.world, HeadOp(u, s), s.queue[0].payload, turn.play.attempt)
    requires var s2 := RunSys(u, Served(u, s, turn), steps);
             && HeadMutates(u, s2, again)
             && WellFormed(s.queue[0].payload) && WellFormed(s2.queue[0].payload)
             && s2.world.log.epoch == Served(u, s, turn).world.log.epoch
             && Resends(s.world, HeadOp(u, s), s.queue[0].payload, s2.world, HeadOp(u, s2), s2.queue[0].payload)
    ensures var s1 := Served(u, s, turn);
            var s2 := RunSys(u, s1, steps);
            var s3 := Served(u, s2, again);
            var first, second := s.queue[0], s2.queue[0];
            var reply := HeadReply(u, s2, again);
            && Delivered(u, s, s1, first, HeadReply(u, s, turn))
            && Delivered(u, s2, s3, second, reply)
            && s3.world == Mutations.CaptureWorld(s2.world)
            && (if second.operation == first.operation && Fingerprint.SameRequest(second.payload.fields, first.payload.fields)
                then reply == HeadReply(u, s, turn)
                else reply.Failure? && reply.code == "OPERATION_ID_REUSE")
  {
    var s1 := Served(u, s, turn);
    var s2 := RunSys(u, s1, steps);
    HeadIsUuid(u, s);
    LaterHeadIsUuid(u, s, turn, steps);
    HeadAnswered(u, s, turn);
    HeadAnswered(u, s2, again);
    WorldRuns(u, s1, steps);
    MutationRuns.ReplayStable(s.world, HeadOp(u, s), s.queue[0].payload, turn.play.attempt, WorldRun(u, s1, steps),
                              HeadOp(u, s2), s2.queue[0].payload, again.play.attempt);
  }

  /** Well-formed, with the operation_id of the executed request, and for the model whose replies are cached. */
  ghost predicate Resends(w: Mutations.World, op: Mutations.Operation, payload: Json,
                          w': Mutations.World, op': Mutations.Operation, payload': Json) {
    && payload.Obj? && payload'.Obj?
    && MutationRuns.Admitted(w, op, payload).Some? && Mutations.Parse(op', payload').Good?
    && var args' := Mutations.Parse(op', payload').arguments;
       && args'.operationId == MutationRuns.Admitted(w, op, payload).value.operationId
       && args'.guid == Tracking.Seen(w'.host, w'.tracker).guid
       && w'.cacheGuid == Some(args'.guid)
  }

  lemma {:induction false} HeadIsUuid(u: Setup, s: Sys)
    requires Adequate(u.codec) && Reachable(u, s) && s.queue != []
    ensures IsUuid(s.queue[0].id)
  {
    var ok, hands := ReachedInv(u, s);
    HeadKnown(ok, hands, s, 0);
  }

  lemma {:induction false} RunSysAppend(u: Setup, s: Sys, a: seq<Step>, b: seq<Step>)
    ensures RunSys(u, s, a + b) == RunSys(u, RunSys(u, s, a), b)
    decreases |a|
  {
    if a == [] {
      assert a + b == b;
    } else {
      assert (a + b)[1..] == a[1..] + b;
      RunSysAppend(u, StepSys(u, s, a[0]), a[1..], b);
    }
  }

  lemma {:induction false} RunReachable(u: Setup, s: Sys, steps: seq<Step>)
    requires Reachable(u, s)
    ensures Reachable(u, RunSys(u, s, steps))
  {
    var s0, before :| InitialSys(s0) && s == RunSys(u, s0, before);
    RunSysAppend(u, s0, before, steps);
  }

  // ---------- the dispatcher's tick is made of dispatch steps ----------

  function AsSteps(turns: seq<Dispatcher.Turn>): seq<Step> {
    if turns == [] then [] else [Dispatch(turns[0])] + AsSteps(turns[1..])
  }

  function DeskOf(s: Sys): Desk {
    Desk(s.conns, s.queue, s.world)
  }

  lemma {:induction false} ServedDesk(ok: Ok, hands: Hands, u: Setup, s: Sys, turn: Dispatcher.Turn)
    requires Adequate(u.codec) && Inv(ok, hands, s) && s.queue != []
    ensures PopOne(u.codec, DeskOf(s), turn.clock, turn.play, RegistryOf(u.routes)) == (DeskOf(Served(u, s, turn)), false)
    ensures |Served(u, s, turn).queue| == |s.queue| - 1
  {
    HeadKnown(ok, hands, s, 0);
    var work := s.queue[0];
    var ran := RegistryOf(u.routes)(s.world, work.operation, work.payload, turn.play);
    ProcessOnce(u.codec, s.conns[work.conn], s.world, work, turn.clock, ran);
  }

  lemma {:induction false} NoMoreTurns(u: Setup, s: Sys, turns: seq<Dispatcher.Turn>)
    requires s.queue == []
    ensures RunSys(u, s, AsSteps(turns)) == s
  {
    if turns != [] {
      assert AsSteps(turns)[1..] == AsSteps(turns[1..]);
      NoMoreTurns(u, s, turns[1..]);
    }
  }

  lemma {:induction false} TurnsRefine(ok: Ok, hands: Hands, u: Setup, s: Sys, turns: seq<Dispatcher.Turn>)
    requires Adequate(u.codec) && Means(ok, hands, u) && Inv(ok, hands, s)
    ensures var (d, n, escaped) := DrainOnce(u.codec, DeskOf(s), turns, RegistryOf(u.routes));
            && !escaped && d == DeskOf(RunSys(u, s, AsSteps(turns)))
            && n == if |turns| <= |s.queue| then |turns| else |s.queue|
    decreases |turns|
  {
    if turns != [] {
      if s.queue == [] {
        NoMoreTurns(u, s, turns);
      } else {
        ServedDesk(ok, hands, u, s, turns[0]);
        StepInv(ok, hands, u, s, Dispatch(turns[0]));
        assert AsSteps(turns)[1..] == AsSteps(turns[1..]);
        TurnsRefine(ok, hands, u, Served(u, s, turns[0]), turns[1..]);
      }
    }
  }

  /** No exception escapes drain_once, and its eight turns are eight steps of the system, or as many as the queue held. */
  lemma {:induction false} TickRefines(u: Setup, s: Sys, turns: seq<Dispatcher.Turn>)
    requires Adequate(u.codec) && Reachable(u, s) && |turns| == MAX_PER_TICK
    ensures var (d, n, escaped) := DrainOnce(u.codec, DeskOf(s), turns, RegistryOf(u.routes));
            && !escaped && d == DeskOf(RunSys(u, s, AsSteps(turns)))
            && n == if 8 <= |s.queue| then 8 else |s.queue|
  {
    var ok, hands := ReachedInv(u, s);
    TurnsRefine(ok, hands, u, s, turns);
  }
}
