/**
 A Go client and the Ruby bridge together: what a client reads of a reachable bridge's answers
 is what its own account of them allows, and a client that waits for each reply reads its own.
 */
module ClientRuns {
  import opened Basics
  import opened Json
  import opened Framing
  import opened Protocol
  import opened Bridge
  import opened ConnectionInvariants
  import opened ConnectionRuns
  import opened Replies
  import opened Dispatcher
  import opened System
  import opened SystemRuns
  import BridgeClient
  import Mutations

  // ---------- a ready connection only adds answers to requests ----------

  /** Since it had given `base`, a ready connection gave only replies that bear a request's id. */
  ghost predicate Answering(base: seq<Json>, c: Conn) {
    && c.phase == Ready && base <= c.history.replies
    && forall p :: |base| <= p < |c.history.replies| ==> ResponseId(c.history.replies[p]).Some?
  }

  lemma {:induction false} AnsweringSame(base: seq<Json>, c: Conn, c': Conn)
    requires Answering(base, c) && c'.phase == c.phase && c'.history.replies == c.history.replies
    ensures Answering(base, c')
  {
  }

  lemma {:induction false} AnsweringMore(base: seq<Json>, c: Conn, c': Conn, reply: Json)
    requires Answering(base, c) && c'.phase == c.phase
    requires c'.history.replies == c.history.replies + [reply] && ResponseId(reply).Some?
    ensures Answering(base, c')
  {
  }

  lemma {:induction false} OneFrameAnswering(cfg: Config, base: seq<Json>, c: Conn, q: seq<Work>, env: Env)
    requires Answering(base, c) && !c.closed && Peel(c.readBuffer).Complete?
    ensures Answering(base, Rescued(OneFrame(HandlerOf(cfg, env), c, q)).conn)
  {
    var front := Peel(c.readBuffer);
    var t := Taken(c, front.payload, front.rest);
    var e := HandlePayload(cfg, t, q, front.payload, env);
    match Decode(cfg.codec, front.payload)
    case None =>
    case Some(m) =>
      var fate := ReadyFate(cfg, t, q, m, env);
      HandleMessageMoves(cfg, t, q, m, env);
      if fate.Answered? { AnsweringMore(base, c, e.conn, fate.reply); } else { AnsweringSame(base, c, e.conn); }
      AnsweringSame(base, e.conn, Rescued(e).conn);
  }

  lemma {:induction false} ReadAnswering(cfg: Config, base: seq<Json>, c: Conn, q: seq<Work>, script: seq<Bridge.ReadResult>, env: Env)
    requires Answering(base, c)
    ensures Answering(base, ReadTick(cfg, c, q, script, env).0.conn)
  {
    var inv: ConnInv := (x, p) => Answering(base, x);
    forall x, p | inv(x, p) && !x.closed && Peel(x.readBuffer).Complete?
      ensures inv(Rescued(OneFrame(HandlerOf(cfg, env), x, p)).conn, OneFrame(HandlerOf(cfg, env), x, p).queue)
    {
      OneFrameAnswering(cfg, base, x, p, env);
    }
    DrainerKeeps(inv, HandlerOf(cfg, env));
    ReadPendingKeeps(inv, DrainerOf(HandlerOf(cfg, env)), c, q, script, env.now);
  }

  lemma {:induction false} FlushAnswering(base: seq<Json>, c: Conn, script: seq<WriteResult>, now: Millis)
    requires Answering(base, c) && Writable(c.writeQueue)
    ensures Answering(base, FlushPending(c, script, now).0)
  {
    if !c.closed {
      var inv: Conn -> bool := (x: Conn) => Answering(base, x);
      WriteLoopKeeps(inv, c, script, 0, now);
    }
  }

  lemma {:induction false} ProcessAnswering(u: Setup, base: seq<Json>, c: Conn, q: seq<Work>, w: Mutations.World,
                                            clock: Millis, ran: Ran)
    requires Adequate(u.codec) && q != [] && IsUuid(q[0].id) && ConnOk(u, q[0].conn, c, q) && Answering(base, c)
    ensures Answering(base, Process(u.codec, c, w, q[0], clock, ran).0)
  {
    var work, c' := q[0], Process(u.codec, c, w, q[0], clock, ran).0;
    HeadOwed(c, q, work.conn);
    ProcessKeeps(u.codec, c, w, work, clock, ran, QueuedIds(q[1..], work.conn));
    ProcessOnce(u.codec, c, w, work, clock, ran);
    var response := if Due(c, work, clock) then CommandResponse(work.id, ran.reply) else Some(TimeoutResponse(work.id));
    if c.closed || c' == Close(c) {
      AnsweringSame(base, c, c');
    } else {
      AnsweringMore(base, c, c', DueResponse(u.codec, work.id, response));
    }
  }

  // ---------- along the runs of the bridge ----------

  ghost predicate AnsweringAt(base: seq<Json>, s: Sys, id: ConnId) {
    id in s.conns && Answering(base, s.conns[id])
  }

  lemma {:induction false} ServedAnswering(ok: Ok, hands: Hands, u: Setup, s: Sys, turn: Dispatcher.Turn, id: ConnId, base: seq<Json>)
    requires Adequate(u.codec) && Means(ok, hands, u) && Inv(ok, hands, s) && AnsweringAt(base, s, id)
    ensures AnsweringAt(base, Served(u, s, turn), id)
  {
    if s.queue != [] && s.queue[0].conn in s.conns {
      var work := s.queue[0];
      HeadKnown(ok, hands, s, 0);
      var ran := RegistryOf(u.routes)(s.world, work.operation, work.payload, turn.play);
      var c' := Process(u.codec, s.conns[work.conn], s.world, work, turn.clock, ran).0;
      ServedIsPopped(u, s, turn, ran, c');
      if work.conn == id {
        assert ConnOk(u, id, s.conns[id], s.queue);
        ProcessAnswering(u, base, s.conns[id], s.queue, s.world, turn.clock, ran);
      }
    }
  }

  lemma {:induction false} ClientAnswering(ok: Ok, hands: Hands, u: Setup, s: Sys, st: Step, id: ConnId, base: seq<Json>)
    requires Means(ok, hands, u) && Inv(ok, hands, s) && AnsweringAt(base, s, id)
    ensures AnsweringAt(base, StepClient(u, s, st, id, s.conns[id]), id)
  {
    var c := s.conns[id];
    match st
    case Read(_, input, env) => ReadAnswering(ConfigOf(u, id), base, c, s.queue, input, env);
    case Flush(_, output, now) => if Writable(c.writeQueue) { FlushAnswering(base, c, output, now); }
    case ExpireStep(_, now) => AnsweringSame(base, c, Expire(c, now));
    case Drop(_) => AnsweringSame(base, c, Close(c));
    case _ =>
  }

  lemma {:induction false} OthersLeft(u: Setup, s: Sys, st: Step, j: ConnId, id: ConnId)
    requires j in s.conns && id in s.conns && j != id
    ensures var s' := StepClient(u, s, st, j, s.conns[j]); id in s'.conns && s'.conns[id] == s.conns[id]
  {
  }

  lemma {:induction false} StepAnswering(ok: Ok, hands: Hands, u: Setup, s: Sys, st: Step, id: ConnId, base: seq<Json>)
    requires Adequate(u.codec) && Means(ok, hands, u) && Inv(ok, hands, s) && AnsweringAt(base, s, id)
    ensures AnsweringAt(base, StepSys(u, s, st), id)
  {
    match st
    case Connect(_) => assert id < s.next;
    case Dispatch(turn) => ServedAnswering(ok, hands, u, s, turn, id, base);
    case Outside(_) =>
    case _ =>
      if st.id in s.clients && st.id in s.conns {
        if st.id == id { ClientAnswering(ok, hands, u, s, st, id, base); } else { OthersLeft(u, s, st, st.id, id); }
      }
  }

  /** Along every run a ready connection keeps the replies it gave, and adds only answers to requests. */
  lemma {:induction false} RunAnswering(ok: Ok, hands: Hands, u: Setup, s: Sys, steps: seq<Step>, id: ConnId, base: seq<Json>)
    requires Adequate(u.codec) && Means(ok, hands, u) && Inv(ok, hands, s) && AnsweringAt(base, s, id)
    ensures AnsweringAt(base, RunSys(u, s, steps), id)
    decreases |steps|
  {
    if steps != [] {
      StepInv(ok, hands, u, s, steps[0]);
      StepAnswering(ok, hands, u, s, steps[0], id, base);
      RunAnswering(ok, hands, u, StepSys(u, s, steps[0]), steps[1..], id, base);
    }
  }

  // ---------- a conversation ----------

  /** A request that never gets out, one whose reply is not waited for, and one with the next reply as the client decodes it. */
  datatype Outcome = Unsent | Unread | Reads(response: BridgeClient.Response)

  /** One exchange of the client, and all that the bridge does while it lasts. */
  datatype Talk = Talk(steps: seq<Step>, id: string, outcome: Outcome)

  /** The bridge after the first k exchanges. */
  function After(u: Setup, s: Sys, talks: seq<Talk>, k: nat): Sys
    requires k <= |talks|
  {
    if k == 0 then s else RunSys(u, After(u, s, talks, k - 1), talks[k - 1].steps)
  }

  /** The requests that got out, and the number of replies that were read. */
  function Said(talks: seq<Talk>, k: nat): seq<string>
    requires k <= |talks|
  {
    if k == 0 then []
    else if talks[k - 1].outcome.Unsent? then Said(talks, k - 1)
    else Said(talks, k - 1) + [talks[k - 1].id]
  }

  function Heard(talks: seq<Talk>, k: nat): nat
    requires k <= |talks|
  {
    if k == 0 then 0 else Heard(talks, k - 1) + if talks[k - 1].outcome.Reads? then 1 else 0
  }

  function RepliesAt(s: Sys, id: ConnId): seq<Json> {
    if id in s.conns then s.conns[id].history.replies else []
  }

  function HandledAt(s: Sys, id: ConnId): seq<Bytes> {
    if id in s.conns then s.conns[id].history.handled else []
  }

  /** When the client reads in exchange k, the next reply has been given, and is decoded as it is. */
  ghost predicate ReadsNext(replies: seq<Json>, from: nat, talks: seq<Talk>, k: nat)
    requires k < |talks|
  {
    talks[k].outcome.Reads? ==>
      var p := from + Heard(talks, k);
      p < |replies| && (talks[k].outcome.response.ok <==> IsSuccess(replies[p]))
  }

  /** During exchange k the bridge gets no further than the requests that were sent, and what the client reads is there. */
  ghost predicate Heeds(u: Setup, s: Sys, id: ConnId, talks: seq<Talk>, k: nat)
    requires k < |talks|
  {
    var s' := After(u, s, talks, k + 1);
    && AskedIds(u.codec, HandledAt(s', id)) <= Said(talks, k + 1)
    && ReadsNext(RepliesAt(s', id), |RepliesAt(s, id)|, talks, k)
  }

  /** A client that uses no id twice talks to a connection that has become ready and was asked nothing yet. */
  ghost predicate Converses(u: Setup, s: Sys, id: ConnId, talks: seq<Talk>) {
    && id in s.conns && s.conns[id].phase == Ready && AskedIds(u.codec, s.conns[id].history.handled) == []
    && Distinct(Said(talks, |talks|))
    && forall k: nat {:trigger Heeds(u, s, id, talks, k)} :: k < |talks| ==> Heeds(u, s, id, talks, k)
  }

  /** What exchange k is to the client, when `reply` is what it reads. */
  function ExchangeOf(t: Talk, owed: seq<string>, reply: Json): BridgeClient.Exchange {
    match t.outcome
    case Unsent => BridgeClient.Exchange(false, false, BridgeClient.NotSent(false), BridgeClient.Unread)
    case Unread => BridgeClient.Exchange(false, false, BridgeClient.Sent, BridgeClient.Unread)
    case Reads(r) =>
      var place := match ResponseId(reply) case Some(i) => BridgeClient.Place(owed + [t.id], i) case None => 0;
      BridgeClient.Exchange(false, false, BridgeClient.Sent, BridgeClient.Decoded(place, r))
  }

  /** The client's own account after k exchanges in which it read `replies` in order: what it is owed, and its results. */
  function Account(replies: seq<Json>, talks: seq<Talk>, k: nat): (seq<string>, seq<BridgeClient.CallResult>)
    requires k <= |talks| && Heard(talks, k) <= |replies|
  {
    if k == 0 then ([], [])
    else
      var (owed, results) := Account(replies, talks, k - 1);
      var t, n := talks[k - 1], Heard(talks, k - 1);
      var (owed', result) := BridgeClient.Exchanged(true, owed, t.id, ExchangeOf(t, owed, if n < |replies| then replies[n] else Null));
      (owed', results + [result])
  }

  // ---------- one exchange ----------

  lemma {:induction false} ReadAgrees(owed: seq<string>, id: string, reply: Json, r: BridgeClient.Response)
    requires Fair(owed + [id], reply) && ResponseId(reply).Some? && (r.ok <==> IsSuccess(reply))
    ensures BridgeClient.Exchanged(true, owed, id, ExchangeOf(Talk([], id, Reads(r)), owed, reply)) ==
            (Struck(owed + [id], reply), BridgeClient.Interpret(r, ResponseId(reply) == Some(id)))
  {
    BridgeClient.FairServer(owed + [id], reply);
  }

  /** What the client is owed after k exchanges is what the replies it read leave of the requests that got out. */
  ghost predicate Agrees(all: seq<Json>, from: nat, talks: seq<Talk>, k: nat)
    requires k <= |talks|
  {
    && from + Heard(talks, k) <= |all|
    && Account(all[from..], talks, k).0 == Remaining(Said(talks, k), all[..from + Heard(talks, k)])
    && |Account(all[from..], talks, k).1| == k
  }

  /** The result of exchange k is correlated exactly if the reply bears its id. */
  ghost predicate Correlated(all: seq<Json>, from: nat, talks: seq<Talk>, k: nat)
    requires k < |talks|
  {
    talks[k].outcome.Reads? ==>
      && from + Heard(talks, k + 1) <= |all| && |Account(all[from..], talks, k + 1).1| == k + 1
      && Account(all[from..], talks, k + 1).1[k] ==
         BridgeClient.Interpret(talks[k].outcome.response, ResponseId(all[from + Heard(talks, k)]) == Some(talks[k].id))
  }

  /** The replies so far are lawful, and the one read in exchange k is the next, decoded as it is, and fair. */
  ghost predicate Offered(all: seq<Json>, from: nat, talks: seq<Talk>, k: nat)
    requires k < |talks|
  {
    var p := from + Heard(talks, k);
    && p <= |all| && Lawful(Said(talks, k), all[..p])
    && (talks[k].outcome.Reads? ==>
          && p < |all| && ResponseId(all[p]).Some? && (talks[k].outcome.response.ok <==> IsSuccess(all[p]))
          && Fair(Remaining(Said(talks, k + 1), all[..p]), all[p]))
  }

  lemma {:induction false} TalkAgrees(all: seq<Json>, from: nat, talks: seq<Talk>, k: nat)
    requires k < |talks| && Agrees(all, from, talks, k)
    requires Offered(all, from, talks, k)
    ensures Agrees(all, from, talks, k + 1) && Correlated(all, from, talks, k)
  {
    var t, p := talks[k], from + Heard(talks, k);
    var owed := Account(all[from..], talks, k).0;
    RemainingMore(Said(talks, k), [t.id], all[..p]);
    if t.outcome.Reads? {
      ReadAgrees(owed, t.id, all[p], t.outcome.response);
      assert ExchangeOf(t, owed, all[p]) == ExchangeOf(Talk([], t.id, t.outcome), owed, all[p]);
      assert all[..p + 1][..p] == all[..p];
      assert all[from..][Heard(talks, k)] == all[p];
    }
  }

  // ---------- all exchanges, told of the replies alone ----------

  /** After k exchanges: the replies so far are lawful for what was said, and hold all that was heard. */
  ghost predicate Holds(replies: seq<Json>, all: seq<Json>, from: nat, talks: seq<Talk>, k: nat)
    requires k <= |talks|
  {
    && replies <= all && Lawful(Said(talks, k), replies) && from + Heard(talks, k) <= |replies|
    && forall p :: from <= p < |replies| ==> ResponseId(replies[p]).Some?
  }

  ghost predicate HoldsAt(record: seq<seq<Json>>, from: nat, talks: seq<Talk>, k: nat)
    requires k <= |talks| && |record| == |talks| + 1
  {
    Holds(record[k], record[|talks|], from, talks, k)
  }

  ghost predicate ReadsAt(record: seq<seq<Json>>, from: nat, talks: seq<Talk>, k: nat)
    requires k < |talks| && |record| == |talks| + 1
  {
    ReadsNext(record[k + 1], from, talks, k)
  }

  /** The replies after every exchange. */
  ghost predicate Recorded(record: seq<seq<Json>>, from: nat, talks: seq<Talk>) {
    && |record| == |talks| + 1
    && (forall k: nat {:trigger HoldsAt(record, from, talks, k)} :: k <= |talks| ==> HoldsAt(record, from, talks, k))
    && (forall k: nat {:trigger ReadsAt(record, from, talks, k)} :: k < |talks| ==> ReadsAt(record, from, talks, k))
  }

  /** Lawful replies, cut at p: the law up to p, and the next reply is fair to what they leave. */
  lemma {:induction false} CutLawful(sent: seq<string>, replies: seq<Json>, all: seq<Json>, p: nat)
    requires Lawful(sent, replies) && replies <= all && p <= |replies|
    ensures Lawful(sent, all[..p])
    ensures p < |replies| ==> all[p] == replies[p] && Fair(Remaining(sent, all[..p]), all[p])
  {
    assert all[..p] == replies[..p];
    LawfulPrefix(sent, replies, p);
  }

  lemma {:induction false} NothingRemains(replies: seq<Json>)
    ensures Remaining([], replies) == []
    decreases |replies|
  {
    if replies != [] { NothingRemains(replies[..|replies| - 1]); }
  }

  lemma {:induction false} ReadOffered(after: seq<Json>, all: seq<Json>, from: nat, talks: seq<Talk>, k: nat)
    requires k < |talks| && Holds(after, all, from, talks, k + 1) && ReadsNext(after, from, talks, k) && talks[k].outcome.Reads?
    ensures var p := from + Heard(talks, k);
            && p < |all| && ResponseId(all[p]).Some? && (talks[k].outcome.response.ok <==> IsSuccess(all[p]))
            && Fair(Remaining(Said(talks, k + 1), all[..p]), all[p])
  {
    CutLawful(Said(talks, k + 1), after, all, from + Heard(talks, k));
  }

  lemma {:induction false} TalkNext(before: seq<Json>, after: seq<Json>, all: seq<Json>, from: nat, talks: seq<Talk>, k: nat)
    requires k < |talks| && Holds(before, all, from, talks, k) && Holds(after, all, from, talks, k + 1)
    requires ReadsNext(after, from, talks, k)
    ensures Offered(all, from, talks, k)
  {
    var p := from + Heard(talks, k);
    CutLawful(Said(talks, k), before, all, p);
    if talks[k].outcome.Reads? { ReadOffered(after, all, from, talks, k); }
  }

  lemma {:induction false} TalkRecorded(record: seq<seq<Json>>, from: nat, talks: seq<Talk>, k: nat)
    requires Recorded(record, from, talks) && k < |talks| && Agrees(record[|talks|], from, talks, k)
    ensures Agrees(record[|talks|], from, talks, k + 1) && Correlated(record[|talks|], from, talks, k)
  {
    assert HoldsAt(record, from, talks, k) && HoldsAt(record, from, talks, k + 1) && ReadsAt(record, from, talks, k);
    TalkNext(record[k], record[k + 1], record[|talks|], from, talks, k);
    TalkAgrees(record[|talks|], from, talks, k);
  }

  lemma {:induction false} RecordAgrees(record: seq<seq<Json>>, from: nat, talks: seq<Talk>, k: nat)
    requires Recorded(record, from, talks) && k <= |talks|
    ensures Agrees(record[|talks|], from, talks, k)
    ensures forall j :: 0 <= j < k ==> Correlated(record[|talks|], from, talks, j)
  {
    if k == 0 {
      assert HoldsAt(record, from, talks, 0);
      NothingRemains(record[|talks|][..from]);
    } else {
      RecordAgrees(record, from, talks, k - 1);
      TalkRecorded(record, from, talks, k - 1);
    }
  }

  // ---------- lock step ----------

  lemma {:induction false} HeardAll(talks: seq<Talk>, k: nat)
    requires k <= |talks| && forall j :: 0 <= j < k ==> talks[j].outcome.Reads?
    ensures Heard(talks, k) == k
  {
    if k > 0 { HeardAll(talks, k - 1); }
  }

  /** A client that waits for every reply is owed nothing between two exchanges. */
  lemma {:induction false} WaitingOwesNothing(replies: seq<Json>, talks: seq<Talk>, k: nat)
    requires k <= |talks| && Heard(talks, k) <= |replies| && forall j :: 0 <= j < k ==> talks[j].outcome.Reads?
    ensures Account(replies, talks, k).0 == []
  {
    if k > 0 { WaitingOwesNothing(replies, talks, k - 1); }
  }

  lemma {:induction false} OneOwed(id: string, reply: Json)
    requires Fair([id], reply) && ResponseId(reply).Some?
    ensures ResponseId(reply) == Some(id)
  {
  }

  /** The reply read in exchange k bears its id, and the client's result is what the remaining checks make of it. */
  ghost predicate Own(all: seq<Json>, from: nat, talks: seq<Talk>, k: nat)
    requires k < |talks|
  {
    && from + k < |all| && ResponseId(all[from + k]) == Some(talks[k].id)
    && talks[k].outcome.Reads? && Heard(talks, k + 1) == k + 1
    && var (owed, results) := Account(all[from..], talks, k + 1);
    owed == [] && |results| == k + 1 && results[k] == BridgeClient.Interpret(talks[k].outcome.response, true)
  }

  lemma {:induction false} RecordOwn(record: seq<seq<Json>>, from: nat, talks: seq<Talk>, k: nat)
    requires Recorded(record, from, talks) && k < |talks| && forall j :: 0 <= j <= k ==> talks[j].outcome.Reads?
    ensures Own(record[|talks|], from, talks, k)
  {
    var all, p := record[|talks|], from + k;
    HeardAll(talks, k);
    HeardAll(talks, k + 1);
    RecordAgrees(record, from, talks, k + 1);
    RecordAgrees(record, from, talks, k);
    WaitingOwesNothing(all[from..], talks, k);
    WaitingOwesNothing(all[from..], talks, k + 1);
    assert HoldsAt(record, from, talks, k) && HoldsAt(record, from, talks, k + 1) && ReadsAt(record, from, talks, k);
    TalkNext(record[k], record[k + 1], all, from, talks, k);
    RemainingMore(Said(talks, k), [talks[k].id], all[..p]);
    assert [] + [talks[k].id] == [talks[k].id];
    OneOwed(talks[k].id, all[p]);
    assert Correlated(all, from, talks, k);
  }

  // ---------- the bridge's side ----------

  lemma {:induction false} AfterReachable(u: Setup, s: Sys, talks: seq<Talk>, k: nat)
    requires k <= |talks| && Reachable(u, s)
    ensures Reachable(u, After(u, s, talks, k))
  {
    if k > 0 {
      AfterReachable(u, s, talks, k - 1);
      RunReachable(u, After(u, s, talks, k - 1), talks[k - 1].steps);
    }
  }

  lemma {:induction false} ReachedAnswering(u: Setup, s: Sys, steps: seq<Step>, id: ConnId, base: seq<Json>)
    requires Adequate(u.codec) && Reachable(u, s) && AnsweringAt(base, s, id)
    ensures AnsweringAt(base, RunSys(u, s, steps), id)
  {
    var ok, hands := ReachedInv(u, s);
    RunAnswering(ok, hands, u, s, steps, id, base);
  }

  /** From exchange j to exchange k the connection keeps its replies and adds answers to requests. */
  lemma {:induction false} AfterAnswering(u: Setup, s: Sys, talks: seq<Talk>, id: ConnId, base: seq<Json>, j: nat, k: nat)
    requires Adequate(u.codec) && Reachable(u, s) && j <= k <= |talks| && AnsweringAt(base, After(u, s, talks, j), id)
    ensures AnsweringAt(base, After(u, s, talks, k), id)
    decreases k
  {
    if j < k {
      AfterAnswering(u, s, talks, id, base, j, k - 1);
      AfterReachable(u, s, talks, k - 1);
      ReachedAnswering(u, After(u, s, talks, k - 1), talks[k - 1].steps, id, base);
    }
  }

  lemma {:induction false} RepliesKept(u: Setup, s: Sys, talks: seq<Talk>, id: ConnId, j: nat, k: nat)
    requires Adequate(u.codec) && Reachable(u, s) && j <= k <= |talks| && id in s.conns && s.conns[id].phase == Ready
    ensures RepliesAt(After(u, s, talks, j), id) <= RepliesAt(After(u, s, talks, k), id)
    ensures AnsweringAt(RepliesAt(s, id), After(u, s, talks, j), id)
  {
    assert After(u, s, talks, 0) == s;
    AfterAnswering(u, s, talks, id, RepliesAt(s, id), 0, j);
    AfterAnswering(u, s, talks, id, RepliesAt(After(u, s, talks, j), id), j, k);
  }

  lemma {:induction false} AskedLawful(cfg: Config, c: Conn, waiting: seq<string>, sent: seq<string>)
    requires OrderInv(cfg, c, waiting) && Distinct(sent) && AskedIds(cfg.codec, c.history.handled) <= sent
    ensures Lawful(sent, c.history.replies)
  {
    var asked := AskedIds(cfg.codec, c.history.handled);
    DistinctPrefix(asked, sent);
    assert sent == asked + sent[|asked|..];
    LawfulMore(asked, sent[|asked|..], c.history.replies);
  }

  lemma {:induction false} LawfulAt(u: Setup, s: Sys, id: ConnId, sent: seq<string>)
    requires Adequate(u.codec) && Reachable(u, s) && id in s.conns
    requires Distinct(sent) && AskedIds(u.codec, HandledAt(s, id)) <= sent
    ensures Lawful(sent, RepliesAt(s, id))
  {
    ReachedConn(u, s, id);
    AskedLawful(ConfigOf(u, id), s.conns[id], QueuedIds(s.queue, id), sent);
  }

  lemma {:induction false} SaidPrefix(talks: seq<Talk>, j: nat, k: nat)
    requires j <= k <= |talks|
    ensures Said(talks, j) <= Said(talks, k)
    decreases k
  {
    if j < k { SaidPrefix(talks, j, k - 1); }
  }

  lemma {:induction false} SaidApart(talks: seq<Talk>, k: nat)
    requires k <= |talks| && Distinct(Said(talks, |talks|))
    ensures Distinct(Said(talks, k))
  {
    SaidPrefix(talks, k, |talks|);
    DistinctPrefix(Said(talks, k), Said(talks, |talks|));
  }

  ghost predicate GrowsAt(record: seq<seq<Json>>, k: nat)
    requires k + 1 < |record|
  {
    record[k] <= record[k + 1]
  }

  /** Replies are kept, and there when they are read. */
  lemma {:induction false} HeardIn(record: seq<seq<Json>>, from: nat, talks: seq<Talk>, k: nat)
    requires |record| == |talks| + 1 && k <= |talks| && |record[0]| == from
    requires forall j: nat {:trigger GrowsAt(record, j)} :: j < |talks| ==> GrowsAt(record, j)
    requires forall j: nat {:trigger ReadsAt(record, from, talks, j)} :: j < |talks| ==> ReadsAt(record, from, talks, j)
    ensures from + Heard(talks, k) <= |record[k]|
  {
    if k > 0 {
      HeardIn(record, from, talks, k - 1);
      assert GrowsAt(record, k - 1) && ReadsAt(record, from, talks, k - 1);
    }
  }

  /** The connection's replies after every exchange. */
  ghost function RecordOf(u: Setup, s: Sys, id: ConnId, talks: seq<Talk>): seq<seq<Json>> {
    seq(|talks| + 1, k requires 0 <= k < |talks| + 1 => RepliesAt(After(u, s, talks, k), id))
  }

  lemma {:induction false} RecordReads(u: Setup, s: Sys, id: ConnId, talks: seq<Talk>, k: nat)
    requires Converses(u, s, id, talks) && k < |talks|
    ensures ReadsAt(RecordOf(u, s, id, talks), |RepliesAt(s, id)|, talks, k)
  {
    assert Heeds(u, s, id, talks, k);
  }

  lemma {:induction false} RecordGrows(u: Setup, s: Sys, id: ConnId, talks: seq<Talk>, k: nat)
    requires Adequate(u.codec) && Reachable(u, s) && Converses(u, s, id, talks) && k < |talks|
    ensures GrowsAt(RecordOf(u, s, id, talks), k)
  {
    var n := k + 1;
    assert RepliesAt(After(u, s, talks, k), id) <= RepliesAt(After(u, s, talks, n), id) by { RepliesKept(u, s, talks, id, k, n); }
    var record := RecordOf(u, s, id, talks);
    assert record[k] == RepliesAt(After(u, s, talks, k), id) && record[n] == RepliesAt(After(u, s, talks, n), id);
  }

  lemma {:induction false} HeardFits(u: Setup, s: Sys, id: ConnId, talks: seq<Talk>, k: nat)
    requires Adequate(u.codec) && Reachable(u, s) && Converses(u, s, id, talks) && k <= |talks|
    ensures |RepliesAt(s, id)| + Heard(talks, k) <= |RepliesAt(After(u, s, talks, k), id)|
  {
    var record, from := RecordOf(u, s, id, talks), |RepliesAt(s, id)|;
    forall j: nat | j < |talks| ensures GrowsAt(record, j) {
      RecordGrows(u, s, id, talks, j);
    }
    forall j: nat | j < |talks| ensures ReadsAt(record, from, talks, j) {
      RecordReads(u, s, id, talks, j);
    }
    assert record[0] == RepliesAt(s, id);
    HeardIn(record, from, talks, k);
  }

  lemma {:induction false} AskedSaid(u: Setup, s: Sys, id: ConnId, talks: seq<Talk>, k: nat)
    requires Converses(u, s, id, talks) && k <= |talks|
    ensures AskedIds(u.codec, HandledAt(After(u, s, talks, k), id)) <= Said(talks, k)
  {
    if k > 0 { assert Heeds(u, s, id, talks, k - 1); }
  }

  lemma {:induction false} Stands(u: Setup, s: Sys, id: ConnId, talks: seq<Talk>, k: nat)
    requires Adequate(u.codec) && Reachable(u, s) && Converses(u, s, id, talks) && k <= |talks|
    ensures Holds(RepliesAt(After(u, s, talks, k), id), RepliesAt(After(u, s, talks, |talks|), id), |RepliesAt(s, id)|, talks, k)
  {
    AfterReachable(u, s, talks, k);
    RepliesKept(u, s, talks, id, k, |talks|);
    HeardFits(u, s, id, talks, k);
    SaidApart(talks, k);
    AskedSaid(u, s, id, talks, k);
    LawfulAt(u, After(u, s, talks, k), id, Said(talks, k));
  }

  lemma {:induction false} RecordHolds(u: Setup, s: Sys, id: ConnId, talks: seq<Talk>, k: nat)
    requires Adequate(u.codec) && Reachable(u, s) && Converses(u, s, id, talks) && k <= |talks|
    ensures HoldsAt(RecordOf(u, s, id, talks), |RepliesAt(s, id)|, talks, k)
  {
    Stands(u, s, id, talks, k);
  }

  lemma {:induction false} TalksRecorded(u: Setup, s: Sys, id: ConnId, talks: seq<Talk>)
    requires Adequate(u.codec) && Reachable(u, s) && Converses(u, s, id, talks)
    ensures Recorded(RecordOf(u, s, id, talks), |RepliesAt(s, id)|, talks)
  {
    var record, from := RecordOf(u, s, id, talks), |RepliesAt(s, id)|;
    forall k: nat | k <= |talks| ensures HoldsAt(record, from, talks, k) {
      RecordHolds(u, s, id, talks, k);
    }
    forall k: nat | k < |talks| ensures ReadsAt(record, from, talks, k) {
      RecordReads(u, s, id, talks, k);
    }
  }

  // ---------- client and bridge ----------

  /**
   A client and the bridge, over any run: whatever replies the client gave up on, what it
   thinks it is owed is what the bridge's replies leave of its requests, and it takes a reply
   for its own exactly when it is. `all` are the connection's replies in the end.
   */
  lemma {:induction false} AccountsAgree(u: Setup, s: Sys, id: ConnId, talks: seq<Talk>, k: nat)
    requires Adequate(u.codec) && Reachable(u, s) && Converses(u, s, id, talks) && k <= |talks|
    ensures var all, from := RepliesAt(After(u, s, talks, |talks|), id), |RepliesAt(s, id)|;
            Agrees(all, from, talks, k) && forall j :: 0 <= j < k ==> Correlated(all, from, talks, j)
  {
    TalksRecorded(u, s, id, talks);
    RecordAgrees(RecordOf(u, s, id, talks), |RepliesAt(s, id)|, talks, k);
  }

  /**
   A client of the bridge that waits for every reply reads its own: over any run, the reply
   read in exchange k is the answer to the request of exchange k.
   */
  lemma {:induction false} OwnReply(u: Setup, s: Sys, id: ConnId, talks: seq<Talk>, k: nat)
    requires Adequate(u.codec) && Reachable(u, s) && Converses(u, s, id, talks) && k < |talks|
    requires forall j :: 0 <= j <= k ==> talks[j].outcome.Reads?
    ensures Own(RepliesAt(After(u, s, talks, |talks|), id), |RepliesAt(s, id)|, talks, k)
  {
    TalksRecorded(u, s, id, talks);
    RecordOwn(RecordOf(u, s, id, talks), |RepliesAt(s, id)|, talks, k);
  }
}
