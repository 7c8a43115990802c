/** The dispatcher object: it drains the shared queue into the engine and answers through the connections. */
module MainThread {
  import opened Basics
  import opened Json
  import opened Protocol
  import opened Bridge
  import opened Mutations
  import opened Dispatcher
  import opened Server
  import opened Engine

  /** Commands::Registry, as far as it reaches the mutation engine. */
  class CommandRegistry {
    const engine: MutationEngine
    const routes: Routes

    constructor (engine: MutationEngine, routes: Routes)
      ensures this.engine == engine && this.routes == routes
    {
      this.engine, this.routes := engine, routes;
    }

    method CallRouted(route: Option<Operation>, payload: Json, play: Play) returns (reply: Option<Reply>)
      modifies engine, engine.modelState, engine.modelState.app
      ensures Ran(engine.View(), reply) == RunRouted(old(engine.View()), route, payload, play)
    {
      match route {
        case Some(op) =>
          var answer := engine.Call(op, payload, play.attempt);
          return Some(answer);
        case None =>
          if play.captures { var _, _ := engine.modelState.Capture(); }
          return play.answer;
      }
    }

    method Call(operation: string, payload: Json, play: Play) returns (reply: Option<Reply>)
      modifies engine, engine.modelState, engine.modelState.app
      ensures Ran(engine.View(), reply) == RunCommand(routes, old(engine.View()), operation, payload, play)
    {
      reply := CallRouted(routes(operation), payload, play);
    }
  }

  /** `run` is the registry as a value. */
  ghost predicate Runs(run: Registry, routes: Routes) {
    forall w, operation, payload, play {:trigger RunCommand(routes, w, operation, payload, play)} ::
      run(w, operation, payload, play) == RunCommand(routes, w, operation, payload, play)
  }

  ghost function Views(sinks: map<ConnId, Connection>): map<ConnId, Conn>
    reads sinks.Values
  {
    map id | id in sinks :: sinks[id].View()
  }

  /** Every connection is registered under its own id. */
  ghost predicate Registered(sinks: map<ConnId, Connection>, codec: Codec) {
    forall id | id in sinks :: sinks[id].cfg.id == id && sinks[id].cfg.codec == codec
  }

  lemma {:induction false} OneChanged(before: map<ConnId, Conn>, after: map<ConnId, Conn>, id: ConnId)
    requires before.Keys == after.Keys && id in before
    requires forall j :: j in before && j != id ==> after[j] == before[j]
    ensures after == before[id := after[id]]
  {
  }

  class MainThreadDispatcher {
    const requestQueue: RequestQueue
    const registry: CommandRegistry

    constructor (requestQueue: RequestQueue, registry: CommandRegistry)
      ensures this.requestQueue == requestQueue && this.registry == registry
    {
      this.requestQueue, this.registry := requestQueue, registry;
    }

    method Rescue(sink: Connection, id: string, clock: Millis) returns (escaped: bool)
      modifies sink
      ensures (sink.View(), escaped) == Dispatcher.Rescue(sink.cfg.codec, old(sink.View()), id, clock)
    {
      if sink.closed { return false; }
      escaped := sink.EnqueueResponse(InternalError(id), true, clock);
    }

    method Answer(sink: Connection, id: string, response: Option<Json>, clock: Millis) returns (escaped: bool)
      modifies sink
      ensures (sink.View(), escaped) == Dispatcher.Answer(sink.cfg.codec, old(sink.View()), id, response, clock)
    {
      var raised := true;
      if response.Some? { raised := sink.EnqueueResponse(response.value, true, clock); }
      if !raised { return false; }
      escaped := Rescue(sink, id, clock);
    }

    method RunCommand(work: Work, play: Play, ghost run: Registry) returns (reply: Option<Reply>)
      requires Runs(run, registry.routes)
      modifies registry.engine, registry.engine.modelState, registry.engine.modelState.app
      ensures Ran(registry.engine.View(), reply) == run(old(registry.engine.View()), work.operation, work.payload, play)
    {
      reply := registry.Call(work.operation, work.payload, play);
    }

    method Process(sink: Connection, work: Work, clock: Millis, play: Play, ghost run: Registry) returns (escaped: bool)
      requires Runs(run, registry.routes)
      modifies sink, registry.engine, registry.engine.modelState, registry.engine.modelState.app
      ensures var w := old(registry.engine.View());
              (sink.View(), registry.engine.View(), escaped) ==
              Dispatcher.Process(sink.cfg.codec, old(sink.View()), w, work, clock,
                                 run(w, work.operation, work.payload, play))
    {
      if sink.closed { return false; }
      if clock >= work.deadline {
        escaped := Answer(sink, work.id, Some(TimeoutResponse(work.id)), clock);
        return;
      }
      var reply := RunCommand(work, play, run);
      escaped := Answer(sink, work.id, CommandResponse(work.id, reply), clock);
    }

    ghost function View(sinks: map<ConnId, Connection>): Desk
      reads sinks.Values, requestQueue, registry.engine, registry.engine.modelState, registry.engine.modelState.app
    {
      Desk(Views(sinks), requestQueue.items, registry.engine.View())
    }

    /** The connections behind the queued requests are known. */
    ghost predicate Reachable(sinks: map<ConnId, Connection>)
      reads requestQueue
    {
      forall i :: 0 <= i < |requestQueue.items| ==> requestQueue.items[i].conn in sinks
    }

    /** One turn of drain_once: pop without blocking, then process. */
    method ProcessNext(sinks: map<ConnId, Connection>, ghost codec: Codec, turn: Turn, ghost run: Registry)
      returns (popped: bool, escaped: bool)
      requires Runs(run, registry.routes) && Registered(sinks, codec) && Reachable(sinks)
      modifies requestQueue, sinks.Values
      modifies registry.engine, registry.engine.modelState, registry.engine.modelState.app
      ensures popped <==> old(requestQueue.items) != []
      ensures (View(sinks), escaped) == PopOne(codec, old(View(sinks)), turn.clock, turn.play, run)
      ensures requestQueue.items == if popped then old(requestQueue.items)[1..] else []
    {
      var next := requestQueue.Pop();
      if next.None? { return false, false; }
      var work := next.value;
      var sink := sinks[work.conn];
      ghost var before := Views(sinks);
      popped := true;
      escaped := Process(sink, work, turn.clock, turn.play, run);
      OneChanged(before, Views(sinks), work.conn);
    }

    method TakeTurn(sinks: map<ConnId, Connection>, ghost codec: Codec, turns: seq<Turn>, ghost run: Registry, ghost tick: Ticker)
      returns (popped: bool, escaped: bool)
      requires turns != [] && Ticks(tick, codec, run)
      requires Runs(run, registry.routes) && Registered(sinks, codec) && Reachable(sinks)
      modifies requestQueue, sinks.Values
      modifies registry.engine, registry.engine.modelState, registry.engine.modelState.app
      ensures Reachable(sinks)
      ensures var whole := tick(old(View(sinks)), turns);
              if !popped then !escaped && whole == (View(sinks), 0, false)
              else if escaped then whole == (View(sinks), 1, true)
              else Counted(whole, tick(View(sinks), turns[1..]), 1)
    {
      popped, escaped := ProcessNext(sinks, codec, turns[0], run);
      PopTurn(codec, old(View(sinks)), turns, run);
    }

    method DrainWith(sinks: map<ConnId, Connection>, ghost codec: Codec, turns: seq<Turn>, ghost run: Registry, ghost tick: Ticker)
      returns (processed: nat, escaped: bool)
      requires |turns| == MAX_PER_TICK && Ticks(tick, codec, run)
      requires Runs(run, registry.routes) && Registered(sinks, codec) && Reachable(sinks)
      modifies requestQueue, sinks.Values
      modifies registry.engine, registry.engine.modelState, registry.engine.modelState.app
      ensures (View(sinks), processed, escaped) == tick(old(View(sinks)), turns)
    {
      ghost var whole := tick(View(sinks), turns);
      var left := turns;
      processed, escaped := 0, false;
      while processed < MAX_PER_TICK
        invariant processed + |left| == MAX_PER_TICK && !escaped && Reachable(sinks)
        invariant Counted(whole, tick(View(sinks), left), processed)
      {
        var popped;
        popped, escaped := TakeTurn(sinks, codec, left, run, tick);
        if !popped { return; }
        processed, left := processed + 1, left[1..];
        if escaped { return; }
      }
      LastTick(tick, codec, run, View(sinks));
    }

    /** drain_once: at most eight pops. */
    method DrainOnce(sinks: map<ConnId, Connection>, ghost codec: Codec, turns: seq<Turn>)
      returns (processed: nat, escaped: bool)
      requires |turns| == MAX_PER_TICK && Registered(sinks, codec) && Reachable(sinks)
      modifies requestQueue, sinks.Values
      modifies registry.engine, registry.engine.modelState, registry.engine.modelState.app
      ensures (View(sinks), processed, escaped) ==
              Dispatcher.DrainOnce(codec, old(View(sinks)), turns, RegistryOf(registry.routes))
    {
      ghost var run := RegistryOf(registry.routes);
      processed, escaped := DrainWith(sinks, codec, turns, run, (d, left) => Dispatcher.DrainOnce(codec, d, left, run));
    }
  }

  /** drain_once as a value. */
  type Ticker = (Desk, seq<Turn>) -> (Desk, nat, bool)

  ghost predicate Ticks(tick: Ticker, codec: Codec, run: Registry) {
    forall d, turns {:trigger Dispatcher.DrainOnce(codec, d, turns, run)} ::
      tick(d, turns) == Dispatcher.DrainOnce(codec, d, turns, run)
  }

  lemma {:induction false} LastTick(tick: Ticker, codec: Codec, run: Registry, d: Desk)
    requires Ticks(tick, codec, run)
    ensures tick(d, []) == (d, 0, false)
  {
    assert Dispatcher.DrainOnce(codec, d, [], run) == (d, 0, false);
  }

  /** What the remaining turns do, counted from the pops already made, is what the whole tick does. */
  ghost predicate Counted(whole: (Desk, nat, bool), rest: (Desk, nat, bool), processed: nat) {
    whole.0 == rest.0 && whole.1 == rest.1 + processed && whole.2 == rest.2
  }

  lemma {:induction false} PopTurn(codec: Codec, d: Desk, turns: seq<Turn>, run: Registry)
    requires turns != []
    ensures var (d', escaped) := PopOne(codec, d, turns[0].clock, turns[0].play, run);
            if d.queue == [] then Dispatcher.DrainOnce(codec, d, turns, run) == (d, 0, false)
            else if escaped then Dispatcher.DrainOnce(codec, d, turns, run) == (d', 1, true)
            else Counted(Dispatcher.DrainOnce(codec, d, turns, run), Dispatcher.DrainOnce(codec, d', turns[1..], run), 1)
  {
  }
}
