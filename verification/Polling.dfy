/** The server object: what one poll does to its connections is a run of the system's steps. */
module Polling {
  import opened Basics
  import opened Protocol
  import opened Bridge
  import opened System
  import opened Server
  import MainThread
  import Mutations

  /** What the network does for one client during one poll. */
  datatype Traffic = Traffic(input: seq<Bridge.ReadResult>, output: seq<WriteResult>, env: Env)

  const MAX_ACCEPTS := 8

  /** The steps of one client's share of a poll. */
  function ClientSteps(id: ConnId, t: Traffic): seq<Step> {
    [Read(id, t.input, t.env), Flush(id, t.output, t.env.now), ExpireStep(id, t.env.now), Sweep(id)]
  }

  /** The clients' shares, in the order of their ids, which is the order they were accepted in. */
  function Shares(served: set<ConnId>, share: ConnId -> seq<Step>, n: nat): seq<Step> {
    if n == 0 then [] else Shares(served, share, n - 1) + if n - 1 in served then share(n - 1) else []
  }

  function PollShare(traffic: ConnId -> Traffic): ConnId -> seq<Step> {
    (id: ConnId) => ClientSteps(id, traffic(id))
  }

  function PollSteps(served: set<ConnId>, traffic: ConnId -> Traffic, n: nat): seq<Step> {
    Shares(served, PollShare(traffic), n)
  }

  function DropShare(): ConnId -> seq<Step> {
    (id: ConnId) => [Drop(id)]
  }

  /** The steps of stop. */
  function Drops(served: set<ConnId>, n: nat): seq<Step> {
    Shares(served, DropShare(), n)
  }

  /** What one client's share of a poll counts: reads and frames, then writes. */
  function ClientActivity(u: Setup, s: Sys, id: ConnId, t: Traffic): nat {
    if id !in s.conns then 0
    else
      var (e, n) := ReadTick(ConfigOf(u, id), s.conns[id], s.queue, t.input, t.env);
      n + if Writable(e.conn.writeQueue) then FlushPending(e.conn, t.output, t.env.now).1 else 0
  }

  // The steps as value-level equations, so that the object is compared with one of them at a time.

  lemma {:induction false} ReadIs(u: Setup, s: Sys, id: ConnId, t: Traffic)
    requires id in s.clients && id in s.conns
    ensures StepSys(u, s, Read(id, t.input, t.env)) ==
            Arrive(s, id, ReadTick(ConfigOf(u, id), s.conns[id], s.queue, t.input, t.env).0, t.env.clock)
  {
  }

  lemma {:induction false} FlushIs(u: Setup, s: Sys, id: ConnId, t: Traffic)
    requires id in s.clients && id in s.conns && Writable(s.conns[id].writeQueue)
    ensures StepSys(u, s, Flush(id, t.output, t.env.now)) == Put(s, id, FlushPending(s.conns[id], t.output, t.env.now).0)
  {
  }

  lemma {:induction false} ExpireIs(u: Setup, s: Sys, id: ConnId, now: Millis)
    requires id in s.clients && id in s.conns
    ensures StepSys(u, s, ExpireStep(id, now)) == Put(s, id, Expire(s.conns[id], now))
  {
  }

  lemma {:induction false} SweepIs(u: Setup, s: Sys, id: ConnId)
    requires id in s.clients && id in s.conns
    ensures StepSys(u, s, Sweep(id)) == if s.conns[id].closed then s.(clients := s.clients - {id}) else s
  {
  }

  lemma {:induction false} DropIs(u: Setup, s: Sys, id: ConnId)
    requires id in s.clients && id in s.conns
    ensures StepSys(u, s, Drop(id)) == Put(s, id, Bridge.Close(s.conns[id])).(clients := s.clients - {id})
  {
  }

  lemma {:induction false} ConnectIs(u: Setup, s: Sys, now: Millis)
    ensures StepSys(u, s, Connect(now)) == Connected(s, now)
  {
  }

  /** The system's step function and its invariant as values: the loops of a poll need no more of them. */
  type Stepper = (Sys, Step) -> Sys

  ghost predicate Stepping(step: Stepper, u: Setup) {
    forall s, st {:trigger StepSys(u, s, st)} :: step(s, st) == StepSys(u, s, st)
  }

  /** All that accepting and stopping need of it. */
  ghost predicate Joining(step: Stepper) {
    forall s, now {:trigger step(s, Connect(now))} :: step(s, Connect(now)) == Connected(s, now)
  }

  ghost predicate Dropping(step: Stepper) {
    forall s: Sys, id {:trigger step(s, Drop(id))} ::
      id in s.clients && id in s.conns ==>
        step(s, Drop(id)) == Put(s, id, Bridge.Close(s.conns[id])).(clients := s.clients - {id})
  }

  lemma {:induction false} SteppingLaws(step: Stepper, u: Setup)
    requires Stepping(step, u)
    ensures Joining(step) && Dropping(step)
  {
    forall s, now ensures step(s, Connect(now)) == Connected(s, now) {
      assert step(s, Connect(now)) == StepSys(u, s, Connect(now));
      ConnectIs(u, s, now);
    }
    forall s: Sys, id | id in s.clients && id in s.conns
      ensures step(s, Drop(id)) == Put(s, id, Bridge.Close(s.conns[id])).(clients := s.clients - {id})
    {
      assert step(s, Drop(id)) == StepSys(u, s, Drop(id));
      DropIs(u, s, id);
    }
  }

  function StepOf(u: Setup): Stepper {
    (s, st) => StepSys(u, s, st)
  }

  /** The same for what a client's share counts. */
  type Counter = (Sys, ConnId, Traffic) -> nat

  ghost predicate Counting(counter: Counter, u: Setup) {
    forall s, id, t {:trigger ClientActivity(u, s, id, t)} :: counter(s, id, t) == ClientActivity(u, s, id, t)
  }

  function CounterOf(u: Setup): Counter {
    (s, id, t) => ClientActivity(u, s, id, t)
  }

  /** The activity of the clients' shares, each counted in the state it starts from. */
  function Activity(counter: Counter, step: Stepper, s: Sys, served: set<ConnId>, traffic: ConnId -> Traffic, n: nat): nat {
    if n == 0 then 0
    else Activity(counter, step, s, served, traffic, n - 1) +
         if n - 1 in served then counter(RunBy(step, s, PollSteps(served, traffic, n - 1)), n - 1, traffic(n - 1)) else 0
  }

  ghost predicate Lasts(inv: Sys -> bool, step: Stepper) {
    && (forall s, st {:trigger inv(step(s, st))} :: inv(s) ==> inv(step(s, st)))
    && (forall s, id: ConnId {:trigger inv(s), s.conns[id]} :: inv(s) && id in s.conns ==> Writable(s.conns[id].writeQueue))
  }

  function RunBy(step: Stepper, s: Sys, steps: seq<Step>): Sys
    decreases |steps|
  {
    if steps == [] then s else RunBy(step, step(s, steps[0]), steps[1..])
  }

  lemma {:induction false} RunByOne(step: Stepper, s: Sys, st: Step)
    ensures RunBy(step, s, [st]) == step(s, st)
  {
    assert [st][1..] == [];
  }

  lemma {:induction false} RunByAppend(step: Stepper, s: Sys, a: seq<Step>, b: seq<Step>)
    ensures RunBy(step, s, a + b) == RunBy(step, RunBy(step, s, a), b)
    decreases |a|
  {
    if a == [] {
      assert a + b == b;
    } else {
      assert (a + b)[1..] == a[1..] + b;
      RunByAppend(step, step(s, a[0]), a[1..], b);
    }
  }

  lemma {:induction false} RunByIsRun(step: Stepper, u: Setup, s: Sys, steps: seq<Step>)
    requires Stepping(step, u)
    ensures RunBy(step, s, steps) == RunSys(u, s, steps)
    decreases |steps|
  {
    if steps != [] {
      assert step(s, steps[0]) == StepSys(u, s, steps[0]);
      RunByIsRun(step, u, step(s, steps[0]), steps[1..]);
    }
  }

  lemma {:induction false} FourSteps(step: Stepper, s0: Sys, id: ConnId, t: Traffic)
    ensures RunBy(step, s0, ClientSteps(id, t)) ==
            step(step(step(step(s0, Read(id, t.input, t.env)), Flush(id, t.output, t.env.now)), ExpireStep(id, t.env.now)),
                 Sweep(id))
  {
    var a, b, c, d := Read(id, t.input, t.env), Flush(id, t.output, t.env.now), ExpireStep(id, t.env.now), Sweep(id);
    var s1 := step(s0, a);
    var s2 := step(s1, b);
    var s3 := step(s2, c);
    assert ClientSteps(id, t) == [a] + ([b] + ([c] + [d]));
    RunByOne(step, s0, a);
    RunByOne(step, s1, b);
    RunByOne(step, s2, c);
    RunByOne(step, s3, d);
    RunByAppend(step, s0, [a], [b] + ([c] + [d]));
    RunByAppend(step, s1, [b], [c] + [d]);
    RunByAppend(step, s2, [c], [d]);
  }

  function Connects(n: nat, now: Millis): seq<Step> {
    if n == 0 then [] else Connects(n - 1, now) + [Connect(now)]
  }

  function Least(a: nat, b: nat): nat {
    if a <= b then a else b
  }

  function FreeSlots(clients: nat): nat {
    if clients < MAX_CLIENTS then MAX_CLIENTS - clients else 0
  }

  lemma {:induction false} LeastNext(clients: nat, taken: nat)
    ensures Least(taken + 1, FreeSlots(clients)) ==
            Least(taken, FreeSlots(clients)) + if clients + Least(taken, FreeSlots(clients)) < MAX_CLIENTS then 1 else 0
  {
  }

  /**
   What accepting makes of the waiting sockets when there were `before` clients: `taken` of them
   are taken off the listener, `added` join, and `count` is returned.
   */
  predicate Accepting(waiting: nat, raises: bool, before: nat, taken: nat, added: nat, count: nat) {
    && taken == (if FreeSlots(before) >= MAX_ACCEPTS then Least(waiting, MAX_ACCEPTS) else waiting)
    && added == Least(taken, FreeSlots(before))
    && count == (if raises && added < MAX_ACCEPTS then 0 else added)
  }

  /** The same while sockets are being taken. */
  ghost predicate Taking(waiting: nat, before: nat, taken: nat, count: nat) {
    && count == Least(taken, FreeSlots(before)) <= MAX_ACCEPTS && taken <= waiting
    && (FreeSlots(before) >= MAX_ACCEPTS ==> taken == count)
  }

  lemma {:induction false} TakingNext(waiting: nat, before: nat, taken: nat, count: nat)
    requires Taking(waiting, before, taken, count) && count < MAX_ACCEPTS && taken < waiting
    ensures Taking(waiting, before, taken + 1, if before + count < MAX_CLIENTS then count + 1 else count)
  {
    LeastNext(before, taken);
  }

  lemma {:induction false} TakingDone(waiting: nat, before: nat, taken: nat, count: nat)
    requires Taking(waiting, before, taken, count) && (count == MAX_ACCEPTS || taken == waiting)
    ensures Accepting(waiting, false, before, taken, count, count)
  {
  }

  /** The ids of n connections accepted in a row. */
  function Newcomers(from: ConnId, n: nat): set<ConnId> {
    if n == 0 then {} else Newcomers(from, n - 1) + {from + n - 1}
  }

  /** Who the clients are when n joined those that were known. */
  ghost predicate Joined(known: set<ConnId>, from: ConnId, n: nat, clients: set<ConnId>, next: ConnId) {
    && next == from + n && clients == known + Newcomers(from, n) && |clients| == |known| + n
    && forall id :: id in clients ==> id < next
  }

  lemma {:induction false} JoinedNext(known: set<ConnId>, from: ConnId, n: nat, clients: set<ConnId>, next: ConnId)
    requires Joined(known, from, n, clients, next)
    ensures Joined(known, from, n + 1, clients + {next}, next + 1)
  {
    assert clients + {next} == known + (Newcomers(from, n) + {from + n});
    assert next !in clients;
  }

  lemma {:induction false} ConnectJoins(s: Sys, now: Millis, known: set<ConnId>, from: ConnId, n: nat)
    requires Joined(known, from, n, s.clients, s.next)
    ensures var s' := Connected(s, now);
            Joined(known, from, if |s.clients| < MAX_CLIENTS then n + 1 else n, s'.clients, s'.next)
  {
    JoinedNext(known, from, n, s.clients, s.next);
  }

  /** Once n sockets were taken, a newcomer for each free place has joined the clients. */
  lemma {:induction false} ConnectsAdd(step: Stepper, s: Sys, n: nat, now: Millis)
    requires Joining(step) && forall id :: id in s.clients ==> id < s.next
    ensures var s' := RunBy(step, s, Connects(n, now));
            Joined(s.clients, s.next, Least(n, FreeSlots(|s.clients|)), s'.clients, s'.next)
  {
    if n > 0 {
      var s1, m := RunBy(step, s, Connects(n - 1, now)), Least(n - 1, FreeSlots(|s.clients|));
      ConnectsAdd(step, s, n - 1, now);
      assert RunBy(step, s, Connects(n, now)) == Connected(s1, now) by {
        RunByAppend(step, s, Connects(n - 1, now), [Connect(now)]);
        RunByOne(step, s1, Connect(now));
      }
      LeastNext(|s.clients|, n - 1);
      assert Joined(s.clients, s.next, m, s1.clients, s1.next) && |s1.clients| == |s.clients| + m;
      ConnectJoins(s1, now, s.clients, s.next, m);
    }
  }

  lemma {:induction false} ViewsAdded(known: map<ConnId, Connection>, id: ConnId, connection: Connection)
    ensures MainThread.Views(known[id := connection]) == MainThread.Views(known)[id := connection.View()]
  {
  }

  class BridgeServer {
    const u: Setup
    const requestQueue: RequestQueue
    /** Every connection accepted so far; requests keep closed ones alive. */
    var connections: map<ConnId, Connection>
    var clients: set<ConnId>
    var next: ConnId
    var running: bool
    /** The port listened on, the port in the discovery file, and the poll timer. */
    var listener: Option<nat>
    var published: Option<nat>
    var timer: Option<nat>
    /** The parts of the system that are not the server's, and its history. */
    ghost var rest: Sys

    constructor (u: Setup, world: Mutations.World)
      ensures this.u == u && Valid() && Consistent() && !running && requestQueue.items == [] && fresh(requestQueue)
      ensures View() == Sys(map[], {}, 0, [], world, [], [], [], [])
    {
      this.u := u;
      requestQueue := new RequestQueue();
      connections, clients, next, running := map[], {}, 0, false;
      listener, published, timer := None, None, None;
      rest := Sys(map[], {}, 0, [], world, [], [], [], []);
    }

    /** A server runs exactly while it listens, is published under that port, and is polled. */
    ghost predicate Consistent()
      reads this
    {
      if running then listener.Some? && published == listener && timer.Some?
      else listener.None? && published.None? && timer.None?
    }

    ghost predicate Valid()
      reads this
    {
      && (forall id :: id in connections ==>
            connections[id].cfg == ConfigOf(u, id) && connections[id].requestQueue == requestQueue)
      && (forall id :: id in clients ==> id in connections)
      && (forall id :: id in connections ==> id < next)
    }

    ghost function View(): Sys
      reads this, connections.Values, requestQueue
    {
      rest.(conns := MainThread.Views(connections), clients := clients, next := next, queue := requestQueue.items)
    }

    /** What reading leaves of one connection and of the queue, entered into the system's state. */
    method ReadOne(id: ConnId, t: Traffic) returns (count: nat, ghost e: Effect)
      requires Valid() && id in clients
      modifies this`rest, connections[id], requestQueue
      ensures (e, count) == ReadTick(ConfigOf(u, id), old(connections[id].View()), old(requestQueue.items), t.input, t.env)
      ensures Valid() && View() == Arrive(old(View()), id, e, t.env.clock)
    {
      ghost var s := View();
      count := connections[id].ReadPending(t.input, t.env);
      e := Effect(connections[id].View(), requestQueue.items, false);
      rest := rest.(pushed := rest.pushed + NewWork(s.queue, requestQueue.items),
                    arrivals := rest.arrivals + Stamps(NewWork(s.queue, requestQueue.items), t.env.clock));
      MainThread.OneChanged(s.conns, MainThread.Views(connections), id);
    }

    method ReadClient(id: ConnId, t: Traffic, ghost step: Stepper) returns (count: nat)
      requires Valid() && id in clients && Stepping(step, u)
      modifies this`rest, connections[id], requestQueue
      ensures Valid() && View() == step(old(View()), Read(id, t.input, t.env))
      ensures count == ReadTick(ConfigOf(u, id), old(View()).conns[id], old(View()).queue, t.input, t.env).1
    {
      ReadIs(u, View(), id, t);
      ghost var e;
      count, e := ReadOne(id, t);
    }

    method FlushClient(id: ConnId, t: Traffic, ghost step: Stepper) returns (count: nat)
      requires Valid() && id in clients && Writable(connections[id].writeQueue) && Stepping(step, u)
      modifies connections[id]
      ensures Valid() && View() == step(old(View()), Flush(id, t.output, t.env.now))
      ensures count == FlushPending(old(connections[id].View()), t.output, t.env.now).1
    {
      ghost var s := View();
      FlushIs(u, s, id, t);
      count := connections[id].FlushPending(t.output, t.env.now);
      MainThread.OneChanged(s.conns, MainThread.Views(connections), id);
    }

    method ExpireClient(id: ConnId, now: Millis, ghost step: Stepper)
      requires Valid() && id in clients && Stepping(step, u)
      modifies connections[id]
      ensures Valid() && View() == step(old(View()), ExpireStep(id, now))
    {
      ghost var s := View();
      ExpireIs(u, s, id, now);
      connections[id].ExpireIfNeeded(now);
      MainThread.OneChanged(s.conns, MainThread.Views(connections), id);
    }

    method SweepClient(id: ConnId, ghost step: Stepper)
      requires Valid() && id in clients && Stepping(step, u)
      modifies this`clients
      ensures Valid() && View() == step(old(View()), Sweep(id))
      ensures old(clients) - {id} <= clients <= old(clients)
    {
      SweepIs(u, View(), id);
      if connections[id].closed { clients := clients - {id}; }
    }

    /** stop's share of one client. */
    method DropClient(id: ConnId, ghost step: Stepper)
      requires Valid() && id in clients && Dropping(step)
      modifies this`clients, connections[id]
      ensures Valid() && View() == step(old(View()), Drop(id))
      ensures clients == old(clients) - {id}
    {
      ghost var s := View();
      connections[id].Close();
      clients := clients - {id};
      MainThread.OneChanged(s.conns, MainThread.Views(connections), id);
    }

    /** Reading, then writing. */
    method TransferClient(id: ConnId, t: Traffic, ghost inv: Sys -> bool, ghost step: Stepper) returns (count: nat)
      requires Valid() && id in clients && Stepping(step, u) && Lasts(inv, step) && inv(View())
      modifies this`rest, connections[id], requestQueue
      ensures Valid()
      ensures View() == step(step(old(View()), Read(id, t.input, t.env)), Flush(id, t.output, t.env.now))
      ensures count == ClientActivity(u, old(View()), id, t)
    {
      ReadIs(u, View(), id, t);
      count := ReadClient(id, t, step);
      ghost var s := View();
      assert inv(s) && s.conns[id] == connections[id].View();
      var written := FlushClient(id, t, step);
      count := count + written;
    }

    /** One client's share of a poll. */
    method ServeClient(id: ConnId, t: Traffic, ghost inv: Sys -> bool, ghost step: Stepper, ghost counter: Counter)
      returns (count: nat)
      requires Valid() && id in clients && Stepping(step, u) && Lasts(inv, step) && inv(View()) && Counting(counter, u)
      modifies this`rest, this`clients, connections[id], requestQueue
      ensures Valid() && View() == RunBy(step, old(View()), ClientSteps(id, t)) && inv(View())
      ensures count == counter(old(View()), id, t)
      ensures old(clients) - {id} <= clients <= old(clients)
    {
      FourSteps(step, View(), id, t);
      count := TransferClient(id, t, inv, step);
      ExpireClient(id, t.env.now, step);
      SweepClient(id, step);
    }

    /** A fresh connection joins the clients. */
    method AddConnection(now: Millis) returns (added: Connection)
      requires Valid()
      modifies this`connections, this`clients, this`next
      ensures fresh(added) && added.cfg == ConfigOf(u, old(next)) && added.requestQueue == requestQueue
      ensures added.View() == Bridge.Accept(now)
      ensures connections == old(connections)[old(next) := added]
      ensures next == old(next) + 1 && clients == old(clients) + {old(next)}
    {
      added := new Connection(ConfigOf(u, next), requestQueue, now);
      connections := connections[next := added];
      clients := clients + {next};
      next := next + 1;
    }

    method Join(now: Millis)
      requires Valid()
      modifies this`connections, this`clients, this`next
      ensures Valid() && next == old(next) + 1 && clients == old(clients) + {old(next)} && |clients| == |old(clients)| + 1
      ensures MainThread.Views(connections) == old(MainThread.Views(connections))[old(next) := Bridge.Accept(now)]
      ensures fresh(connections.Values - old(connections.Values))
    {
      ghost var known, id := connections, next;
      var connection := AddConnection(now);
      ViewsAdded(known, id, connection);
    }

    method AcceptOne(now: Millis, ghost step: Stepper) returns (added: bool)
      requires Valid() && Joining(step)
      modifies this`connections, this`clients, this`next
      ensures Valid() && View() == step(old(View()), Connect(now))
      ensures next == old(next) + if added then 1 else 0
      ensures added <==> |old(clients)| < MAX_CLIENTS
      ensures |clients| == |old(clients)| + if added then 1 else 0
      ensures fresh(connections.Values - old(connections.Values))
    {
      if |clients| >= MAX_CLIENTS { return false; }
      Join(now);
      return true;
    }

    method AcceptTurn(ghost s0: Sys, ghost waiting: nat, ghost taken: nat, ghost before: nat, count: nat, now: Millis,
                      ghost inv: Sys -> bool, ghost step: Stepper)
      returns (count': nat)
      requires Valid() && Joining(step) && Lasts(inv, step) && inv(View())
      requires View() == RunBy(step, s0, Connects(taken, now))
      requires Taking(waiting, before, taken, count) && count < MAX_ACCEPTS && taken < waiting && |clients| == before + count
      modifies this`connections, this`clients, this`next
      ensures Valid() && inv(View()) && View() == RunBy(step, s0, Connects(taken + 1, now))
      ensures Taking(waiting, before, taken + 1, count') && |clients| == before + count'
      ensures count <= count' && next == old(next) + count' - count
      ensures fresh(connections.Values - old(connections.Values))
    {
      RunByAppend(step, s0, Connects(taken, now), [Connect(now)]);
      RunByOne(step, View(), Connect(now));
      TakingNext(waiting, before, taken, count);
      var added := AcceptOne(now, step);
      count' := if added then count + 1 else count;
    }

    /** The loop of accept_pending_clients. */
    method AcceptLoop(waiting: nat, now: Millis, ghost inv: Sys -> bool, ghost step: Stepper) returns (count: nat, taken: nat)
      requires Valid() && Joining(step) && Lasts(inv, step) && inv(View())
      modifies this`connections, this`clients, this`next
      ensures Valid() && inv(View()) && View() == RunBy(step, old(View()), Connects(taken, now))
      ensures fresh(connections.Values - old(connections.Values))
      ensures Accepting(waiting, false, |old(clients)|, taken, count, count)
      ensures next == old(next) + count
    {
      ghost var s0, before, from := View(), |clients|, next;
      count, taken := 0, 0;
      while count < MAX_ACCEPTS && taken < waiting
        invariant Valid() && inv(View()) && View() == RunBy(step, s0, Connects(taken, now))
        invariant Taking(waiting, before, taken, count) && next == from + count && |clients| == before + count
        invariant fresh(connections.Values - old(connections.Values))
        decreases waiting - taken
      {
        count := AcceptTurn(s0, waiting, taken, before, count, now, inv, step);
        taken := taken + 1;
      }
      TakingDone(waiting, before, taken, count);
    }

    /**
     accept_pending_clients: sockets are taken until none is left or eight joined; those that
     find 32 clients are closed and not counted, so more than eight may be taken. When the
     listener raises after the waiting sockets, what was accepted stays and 0 is returned.
     */
    method AcceptPending(waiting: nat, raises: bool, now: Millis, ghost inv: Sys -> bool, ghost step: Stepper)
      returns (count: nat, taken: nat)
      requires Valid() && Joining(step) && Lasts(inv, step) && inv(View())
      modifies this`connections, this`clients, this`next
      ensures Valid() && inv(View()) && View() == RunBy(step, old(View()), Connects(taken, now))
      ensures fresh(connections.Values - old(connections.Values))
      ensures old(next) <= next && Accepting(waiting, raises, |old(clients)|, taken, next - old(next), count)
    {
      count, taken := AcceptLoop(waiting, now, inv, step);
      if raises && count < MAX_ACCEPTS { count := 0; }
    }

    /** The loop over the clients: each gets its share in the order they were accepted. */
    method ServeAll(traffic: ConnId -> Traffic, ghost inv: Sys -> bool, ghost step: Stepper, ghost counter: Counter)
      returns (count: nat)
      requires Valid() && Stepping(step, u) && Lasts(inv, step) && inv(View()) && Counting(counter, u)
      modifies this`rest, this`clients, connections.Values, requestQueue
      ensures Valid() && inv(View())
      ensures View() == RunBy(step, old(View()), PollSteps(old(clients), traffic, next))
      ensures count == Activity(counter, step, old(View()), old(clients), traffic, next)
    {
      ghost var s0 := View();
      var served := clients;
      count := 0;
      for id := 0 to next
        invariant Valid() && inv(View()) && View() == RunBy(step, s0, PollSteps(served, traffic, id))
        invariant count == Activity(counter, step, s0, served, traffic, id)
        invariant forall j :: j in served && j >= id ==> j in clients
      {
        NextShare(step, s0, served, PollShare(traffic), id);
        if id in served {
          var n := ServeClient(id, traffic(id), inv, step, counter);
          count := count + n;
        }
      }
    }

    method PollWith(waiting: nat, raises: bool, traffic: ConnId -> Traffic, now: Millis,
                    ghost inv: Sys -> bool, ghost step: Stepper, ghost counter: Counter)
      returns (count: nat, taken: nat, ghost accepted: nat, ghost served: set<ConnId>)
      requires Valid() && Stepping(step, u) && Joining(step) && Lasts(inv, step) && inv(View()) && Counting(counter, u)
      modifies this`connections, this`clients, this`next, this`rest, connections.Values, requestQueue
      ensures Valid() && inv(View())
      ensures View() == RunBy(step, old(View()), Connects(taken, now) + PollSteps(served, traffic, next))
      ensures old(next) <= next && Accepting(waiting, raises, |old(clients)|, taken, next - old(next), accepted)
      ensures served == RunBy(step, old(View()), Connects(taken, now)).clients
      ensures count == accepted + Activity(counter, step, RunBy(step, old(View()), Connects(taken, now)), served, traffic, next)
    {
      ghost var s0 := View();
      var joined;
      joined, taken := AcceptPending(waiting, raises, now, inv, step);
      accepted, served := joined, clients;
      RunByAppend(step, s0, Connects(taken, now), PollSteps(served, traffic, next));
      count := ServeAll(traffic, inv, step, counter);
      count := count + joined;
    }

    /** The same as a run of the system. */
    method PollBy(waiting: nat, raises: bool, traffic: ConnId -> Traffic, now: Millis, ghost inv: Sys -> bool)
      returns (count: nat, taken: nat, ghost accepted: nat, ghost served: set<ConnId>)
      requires Valid() && Stepping(StepOf(u), u) && Counting(CounterOf(u), u) && Lasts(inv, StepOf(u)) && inv(View())
      modifies this`connections, this`clients, this`next, this`rest, connections.Values, requestQueue
      ensures Valid() && inv(View())
      ensures !running ==> count == 0 && View() == old(View())
      ensures running ==>
                && View() == RunSys(u, old(View()), Connects(taken, now) + PollSteps(served, traffic, next))
                && old(next) <= next && Accepting(waiting, raises, |old(clients)|, taken, next - old(next), accepted)
                && served == RunBy(StepOf(u), old(View()), Connects(taken, now)).clients
                && count == accepted + Activity(CounterOf(u), StepOf(u), RunBy(StepOf(u), old(View()), Connects(taken, now)),
                                                served, traffic, next)
    {
      count, taken, accepted, served := 0, 0, 0, {};
      if !running { return; }
      ghost var s0 := View();
      SteppingLaws(StepOf(u), u);
      count, taken, accepted, served := PollWith(waiting, raises, traffic, now, inv, StepOf(u), CounterOf(u));
      RunByIsRun(StepOf(u), u, s0, Connects(taken, now) + PollSteps(served, traffic, next));
    }

    /**
     poll_once: nothing while the server is stopped; otherwise a run of the system from the
     state before it, whatever the network does: waiting sockets are accepted, then every client,
     old or new, gets its share. It returns the accepted clients and the activity of every share.
     */
    method PollOnce(waiting: nat, raises: bool, traffic: ConnId -> Traffic, now: Millis, ghost ok: Ok, ghost hands: Hands)
      returns (count: nat, taken: nat, ghost accepted: nat, ghost served: set<ConnId>)
      requires Valid() && Adequate(u.codec) && Means(ok, hands, u) && Inv(ok, hands, View())
      modifies this`connections, this`clients, this`next, this`rest, connections.Values, requestQueue
      ensures Valid() && Inv(ok, hands, View())
      ensures !running ==> count == 0 && View() == old(View())
      ensures running ==>
                && View() == RunSys(u, old(View()), Connects(taken, now) + PollSteps(served, traffic, next))
                && old(next) <= next && Accepting(waiting, raises, |old(clients)|, taken, next - old(next), accepted)
                && served == RunBy(StepOf(u), old(View()), Connects(taken, now)).clients
                && count == accepted + Activity(CounterOf(u), StepOf(u), RunBy(StepOf(u), old(View()), Connects(taken, now)),
                                                served, traffic, next)
    {
      ghost var inv := InvOf(u, ok, hands);
      count, taken, accepted, served := PollBy(waiting, raises, traffic, now, inv);
    }

    /**
     start: a running server answers with its port. Otherwise the listener is bound, the port
     published and the timer installed; where one of these fails, everything is taken back and
     start raises. `bound` is the port of a new listener and `ticks` the new timer, if any.
     */
    method Start(bound: Option<nat>, publishes: bool, ticks: Option<nat>) returns (port: Option<nat>)
      requires Consistent()
      modifies this`running, this`listener, this`published, this`timer
      ensures Consistent()
      ensures port == if old(running) then old(listener) else if publishes && ticks.Some? then bound else None
      ensures running <==> port.Some?
      ensures port == listener == published
      ensures timer == if old(running) then old(timer) else if port.Some? then ticks else None
    {
      if running { return listener; }
      if bound.Some? {
        listener, running := bound, true;
        if publishes {
          published := bound;
          if ticks.Some? {
            timer := ticks;
            return bound;
          }
        }
      }
      listener, running, published := None, false, None;
      return None;
    }

    method DropTurn(ghost s0: Sys, served: set<ConnId>, id: ConnId, ghost step: Stepper)
      requires Valid() && Dropping(step) && (id in served <==> id in clients)
      requires View() == RunBy(step, s0, Drops(served, id))
      modifies this`clients, connections.Values
      ensures Valid() && View() == RunBy(step, s0, Drops(served, id + 1))
      ensures clients == old(clients) - {id}
    {
      NextShare(step, s0, served, DropShare(), id);
      RunByOne(step, View(), Drop(id));
      if id in served { DropClient(id, step); }
    }

    method DropAll(ghost step: Stepper)
      requires Valid() && Dropping(step)
      modifies this`clients, connections.Values
      ensures Valid() && clients == {}
      ensures View() == RunBy(step, old(View()), Drops(old(clients), next))
    {
      ghost var s0 := View();
      var served := clients;
      for id := 0 to next
        invariant Valid() && View() == RunBy(step, s0, Drops(served, id))
        invariant clients <= served && forall j :: j in served ==> (j in clients <==> j >= id)
      {
        DropTurn(s0, served, id, step);
      }
    }

    method Retire()
      modifies this`running, this`listener, this`published, this`timer
      ensures Consistent() && !running
    {
      running, timer, listener, published := false, None, None, None;
    }

    /** stop: timer, clients, listener and discovery file all go; a stopped server is left alone. */
    method Stop(ghost step: Stepper)
      requires Valid() && Consistent() && Dropping(step)
      modifies this`running, this`listener, this`published, this`timer, this`clients, connections.Values
      ensures Valid() && Consistent() && !running
      ensures View() == if old(running) then RunBy(step, old(View()), Drops(old(clients), next)) else old(View())
      ensures clients == if old(running) then {} else old(clients)
    {
      if !running && listener.None? && timer.None? { return; }
      DropAll(step);
      Retire();
    }
  }

  lemma {:induction false} NextShare(step: Stepper, s: Sys, served: set<ConnId>, share: ConnId -> seq<Step>, id: ConnId)
    ensures RunBy(step, s, Shares(served, share, id + 1)) ==
            if id in served then RunBy(step, RunBy(step, s, Shares(served, share, id)), share(id))
            else RunBy(step, s, Shares(served, share, id))
  {
    if id in served {
      RunByAppend(step, s, Shares(served, share, id), share(id));
    } else {
      assert Shares(served, share, id + 1) == Shares(served, share, id) + [] == Shares(served, share, id);
    }
  }

  /** The system's invariant as a value, kept by the system's steps. */
  lemma {:induction false} InvOf(u: Setup, ok: Ok, hands: Hands) returns (inv: Sys -> bool)
    requires Adequate(u.codec) && Means(ok, hands, u)
    ensures forall s {:trigger inv(s)} :: inv(s) == Inv(ok, hands, s)
    ensures Stepping(StepOf(u), u) && Counting(CounterOf(u), u) && Lasts(inv, StepOf(u))
  {
    inv := s => Inv(ok, hands, s);
    InvLasts(u, ok, hands, inv, StepOf(u));
  }

  lemma {:induction false} InvLasts(u: Setup, ok: Ok, hands: Hands, inv: Sys -> bool, step: Stepper)
    requires Adequate(u.codec) && Means(ok, hands, u)
    requires forall s {:trigger inv(s)} :: inv(s) == Inv(ok, hands, s)
    requires Stepping(step, u)
    ensures Lasts(inv, step)
  {
    forall s, st | inv(s) ensures inv(step(s, st)) {
      StepInv(ok, hands, u, s, st);
      assert step(s, st) == StepSys(u, s, st);
    }
    forall s, id: ConnId | inv(s) && id in s.conns ensures Writable(s.conns[id].writeQueue) {
      FlushOk(ok, hands, u, id, s.conns[id], s.queue, [], 0);
    }
  }
}
