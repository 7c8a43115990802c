/** The session registry object and who owns which client. */
module Registry {
  import opened Basics
  import opened Protocol
  import opened BridgeClient
  import opened Sessions

  datatype Entry = Entry(descriptor: Descriptor, client: Client, info: Info)

  /** What happens while one descriptor is probed: the context, the old client's answer, dialing, the new client's answer. */
  datatype Probing = Probing(cancelled: bool, oldId: string, oldExchange: Exchange,
                             dialing: Dialing, newId: string, newExchange: Exchange)

  datatype Refreshed = Done | LoadFailed | Cancelled

  // ---------- what probing will do, told from the state before ----------

  datatype ClientState = ClientState(open: bool, owed: seq<string>)

  function Holders(entries: map<string, Entry>): set<Client> {
    set id | id in entries :: entries[id].client
  }

  function StatesOf(entries: map<string, Entry>): (states: map<string, ClientState>)
    reads Holders(entries)
    ensures states.Keys == entries.Keys
  {
    map id | id in entries :: ClientState(entries[id].client.open, entries[id].client.owed)
  }

  /** The session has a client for this very endpoint. */
  predicate SameEndpoint(entries: map<string, Entry>, d: Descriptor) {
    d.sessionId in entries && SameConnection(entries[d.sessionId].descriptor, d)
  }

  /** That client answers for its session. */
  predicate Keeps(entries: map<string, Entry>, states: map<string, ClientState>, d: Descriptor, p: Probing)
    requires states.Keys == entries.Keys
  {
    && SameEndpoint(entries, d)
    && var st := states[d.sessionId];
    Probed(entries[d.sessionId].client.descriptor, st.open, st.owed, p.oldId, p.oldExchange).1.Answer?
  }

  /** A new client connects and answers for its session. */
  predicate Redials(d: Descriptor, p: Probing) {
    Dialed(d, p.dialing) && Probed(d, true, [], p.newId, p.newExchange).1.Answer?
  }

  /** How probing one descriptor will end: with the old client, with a new one, or with neither. */
  datatype Verdict = Verdict(keep: bool, redial: bool)

  function VerdictOf(entries: map<string, Entry>, states: map<string, ClientState>, d: Descriptor, p: Probing): Verdict
    requires states.Keys == entries.Keys
  {
    Verdict(Keeps(entries, states, d, p), Redials(d, p))
  }

  /** The verdicts as a value, so that the loops are proved apart from the protocol behind them. */
  type Judge = (Descriptor, Probing) -> Verdict

  ghost predicate Judges(judge: Judge, entries: map<string, Entry>, states: map<string, ClientState>)
    requires states.Keys == entries.Keys
  {
    forall d, p {:trigger VerdictOf(entries, states, d, p)} :: judge(d, p) == VerdictOf(entries, states, d, p)
  }

  ghost predicate KeyedBy(entries: map<string, Entry>) {
    forall id :: id in entries ==>
      && entries[id].descriptor.sessionId == id
      && SameConnection(entries[id].client.descriptor, entries[id].descriptor)
  }

  /** The entry holds an open client for d that has just answered for its session and is owed nothing. */
  ghost predicate Serves(e: Entry, d: Descriptor)
    reads e.client
  {
    && e.descriptor == d && SameConnection(e.client.descriptor, d) && e.info.sessionId == d.sessionId
    && e.client.open && e.client.owed == []
  }

  // ---------- one descriptor ----------

  function Find(entries: map<string, Entry>, id: string): Option<Entry> {
    if id in entries then Some(entries[id]) else None
  }

  /** The clients probing a session may touch. */
  function Probeable(entries: map<string, Entry>, id: string): set<Client> {
    if id in entries then {entries[id].client} else {}
  }

  /** The second half of probe: a new client that connects and answers, or none that is open. */
  method Redial(d: Descriptor, p: Probing, network: Network) returns (entry: Option<Entry>, ghost dialed: set<Client>)
    modifies network
    ensures network.clients == old(network.clients) + dialed
    ensures entry.Some? <==> Redials(d, p)
    ensures entry.Some? ==> Serves(entry.value, d) && entry.value.client in dialed
    ensures forall c :: c in dialed ==> fresh(c) && (c.open <==> entry.Some? && c == entry.value.client)
  {
    var client := Dial(d, p.dialing, network);
    if client == null { return None, {}; }
    dialed := {client};
    LockStep(d, true, [], p.newId, p.newExchange);
    var result := client.SessionInfo(p.newId, p.newExchange);
    if !result.Answer? {
      client.Close();
      return None, dialed;
    }
    entry := Some(Entry(d, client, result.info));
  }

  /** probe: `dialed` are all the clients made meanwhile. */
  method Probe(d: Descriptor, entries: map<string, Entry>, ghost states: map<string, ClientState>, p: Probing,
               ghost judge: Judge, network: Network)
    returns (entry: Option<Entry>, ghost dialed: set<Client>)
    requires KeyedBy(entries) && states.Keys == entries.Keys && Judges(judge, entries, states)
    requires d.sessionId in entries ==>
               var c := entries[d.sessionId].client;
               states[d.sessionId] == ClientState(c.open, c.owed) && p.oldId !in c.owed
    modifies Probeable(entries, d.sessionId), network
    ensures network.clients == old(network.clients) + dialed
    ensures entry.Some? <==> judge(d, p).keep || judge(d, p).redial
    ensures entry.Some? ==> Serves(entry.value, d)
    ensures judge(d, p).keep ==> d.sessionId in entries && entry.value.client == entries[d.sessionId].client && dialed == {}
    ensures entry.Some? && !judge(d, p).keep ==> entry.value.client in dialed
    ensures forall c :: c in dialed ==> fresh(c) && (c.open <==> entry.Some? && c == entry.value.client)
    ensures d.sessionId in entries && !judge(d, p).keep ==>
              entries[d.sessionId].client.open == (states[d.sessionId].open && !SameEndpoint(entries, d))
  {
    assert judge(d, p) == VerdictOf(entries, states, d, p);
    dialed := {};
    var old_ := Find(entries, d.sessionId);
    if old_.Some? && SameConnection(old_.value.descriptor, d) {
      var client := old_.value.client;
      LockStep(client.descriptor, client.open, client.owed, p.oldId, p.oldExchange);
      var result := client.SessionInfo(p.oldId, p.oldExchange);
      if result.Answer? { return Some(Entry(d, client, result.info)), {}; }
      client.Close();
    }
    entry, dialed := Redial(d, p, network);
  }

  // ---------- all descriptors ----------

  function Seen(ds: seq<Descriptor>): set<string> {
    set d | d in ds :: d.sessionId
  }

  lemma {:induction false} SeenMore(ds: seq<Descriptor>, i: nat)
    requires i < |ds| && DistinctSessions(ds)
    ensures Seen(ds[..i + 1]) == Seen(ds[..i]) + {ds[i].sessionId}
    ensures ds[i].sessionId !in Seen(ds[..i])
    ensures forall k :: 0 <= k < i ==> ds[k].sessionId in Seen(ds[..i]) && ds[k].sessionId != ds[i].sessionId
  {
    assert ds[..i + 1] == ds[..i] + [ds[i]];
    forall k | 0 <= k < i ensures ds[k].sessionId in Seen(ds[..i]) {
      assert ds[..i][k] == ds[k];
    }
  }

  /** What probing a descriptor left behind. */
  ghost predicate Outcome(entries: map<string, Entry>, states: map<string, ClientState>, d: Descriptor, v: Verdict,
                          next: map<string, Entry>, dialed: set<Client>)
    requires states.Keys == entries.Keys
    reads Probeable(entries, d.sessionId), Probeable(next, d.sessionId)
  {
    var id := d.sessionId;
    && (id in next <==> v.keep || v.redial)
    && (id in next ==> Serves(next[id], d))
    && (id in next && v.keep ==> id in entries && next[id].client == entries[id].client)
    && (id in next && !v.keep ==> next[id].client in dialed)
    && (id in entries && !v.keep ==> entries[id].client.open == (states[id].open && !SameEndpoint(entries, d)))
  }

  /** The same for the first n descriptors. */
  ghost predicate Outcomes(entries: map<string, Entry>, states: map<string, ClientState>, ds: seq<Descriptor>,
                           script: seq<Probing>, judge: Judge, n: nat, next: map<string, Entry>, dialed: set<Client>)
    requires states.Keys == entries.Keys && n <= |ds| == |script|
    reads Holders(entries), Holders(next)
  {
    forall k :: 0 <= k < n ==> Outcome(entries, states, ds[k], judge(ds[k], script[k]), next, dialed)
  }

  /** Probing the clients of `probed` cannot change what was found for d. */
  ghost predicate Apart(entries: map<string, Entry>, d: Descriptor, probed: set<Client>, next: map<string, Entry>) {
    && (d.sessionId in entries ==> entries[d.sessionId].client !in probed)
    && (d.sessionId in next ==> next[d.sessionId].client !in probed)
  }

  lemma {:induction false} AllApart(entries: map<string, Entry>, states: map<string, ClientState>, ds: seq<Descriptor>,
                                    script: seq<Probing>, judge: Judge, i: nat, next: map<string, Entry>, dialed: set<Client>)
    requires states.Keys == entries.Keys && KeyedBy(entries) && i < |ds| == |script| && DistinctSessions(ds)
    requires Outcomes(entries, states, ds, script, judge, i, next, dialed)
    requires Probeable(entries, ds[i].sessionId) !! dialed
    ensures forall k :: 0 <= k < i ==> Apart(entries, ds[k], Probeable(entries, ds[i].sessionId), next)
  {
    forall k | 0 <= k < i ensures Apart(entries, ds[k], Probeable(entries, ds[i].sessionId), next) {
      assert Outcome(entries, states, ds[k], judge(ds[k], script[k]), next, dialed);
    }
  }

  /** Of the clients dialed so far, the open ones are those an entry holds. */
  ghost predicate OpenIffHeld(next: map<string, Entry>, dialed: set<Client>)
    reads dialed
  {
    forall c :: c in dialed ==> (c.open <==> c in Holders(next))
  }

  lemma {:induction false} DialedHeld(next: map<string, Entry>, dialed: set<Client>, id: string, entry: Option<Entry>, more: set<Client>)
    requires OpenIffHeld(next, dialed) && id !in next
    requires forall c :: c in more ==> (c.open <==> entry.Some? && c == entry.value.client) && c !in Holders(next)
    requires entry.Some? ==> entry.value.client !in dialed
    ensures entry.Some? ==> OpenIffHeld(next[id := entry.value], dialed + more)
    ensures entry.None? ==> OpenIffHeld(next, dialed + more)
  {
    if entry.Some? {
      var next' := next[id := entry.value];
      assert next'[id].client == entry.value.client;
      forall j | j in next ensures next[j].client in Holders(next') { assert next'[j] == next[j]; }
      assert Holders(next') == Holders(next) + {entry.value.client};
    }
  }

  function With(next: map<string, Entry>, id: string, entry: Option<Entry>): map<string, Entry> {
    if entry.Some? then next[id := entry.value] else next
  }

  lemma {:induction false} OutcomesNext(entries: map<string, Entry>, states: map<string, ClientState>, ds: seq<Descriptor>,
                                        script: seq<Probing>, judge: Judge, i: nat, next: map<string, Entry>,
                                        dialed: set<Client>, entry: Option<Entry>, more: set<Client>)
    requires states.Keys == entries.Keys && i < |ds| == |script|
    requires forall k :: 0 <= k < i ==> ds[k].sessionId != ds[i].sessionId
    requires Outcomes(entries, states, ds, script, judge, i, next, dialed)
    requires ds[i].sessionId !in next
    requires Outcome(entries, states, ds[i], judge(ds[i], script[i]), With(next, ds[i].sessionId, entry), dialed + more)
    ensures Outcomes(entries, states, ds, script, judge, i + 1, With(next, ds[i].sessionId, entry), dialed + more)
  {
    forall k | 0 <= k < i + 1
      ensures Outcome(entries, states, ds[k], judge(ds[k], script[k]), With(next, ds[i].sessionId, entry), dialed + more)
    {
      if k < i { assert Outcome(entries, states, ds[k], judge(ds[k], script[k]), next, dialed); }
    }
  }

  /** One turn of the loop over the descriptors. */
  method ProbeNext(ds: seq<Descriptor>, script: seq<Probing>, i: nat, entries: map<string, Entry>,
                   ghost states: map<string, ClientState>, ghost judge: Judge,
                   next: map<string, Entry>, ghost dialed: set<Client>, network: Network)
    returns (next': map<string, Entry>, ghost dialed': set<Client>)
    requires KeyedBy(entries) && states.Keys == entries.Keys && Judges(judge, entries, states)
    requires i < |ds| == |script| && DistinctSessions(ds) && next.Keys <= Seen(ds[..i]) && Holders(entries) !! dialed
    requires ds[i].sessionId in entries ==>
               var c := entries[ds[i].sessionId].client;
               states[ds[i].sessionId] == ClientState(c.open, c.owed) && script[i].oldId !in c.owed
    requires Outcomes(entries, states, ds, script, judge, i, next, dialed)
    requires OpenIffHeld(next, dialed)
    modifies Probeable(entries, ds[i].sessionId), network
    ensures Outcomes(entries, states, ds, script, judge, i + 1, next', dialed')
    ensures OpenIffHeld(next', dialed') && dialed <= dialed' && fresh(dialed' - dialed)
    ensures network.clients == old(network.clients) + (dialed' - dialed)
    ensures next'.Keys <= Seen(ds[..i + 1])
  {
    ghost var id := ds[i].sessionId;
    SeenMore(ds, i);
    AllApart(entries, states, ds, script, judge, i, next, dialed);
    var entry, more := Probe(ds[i], entries, states, script[i], judge, network);
    DialedHeld(next, dialed, id, entry, more);
    dialed' := dialed + more;
    next' := With(next, ds[i].sessionId, entry);
    forall k | 0 <= k < i ensures Outcome(entries, states, ds[k], judge(ds[k], script[k]), next, dialed) {
      assert Apart(entries, ds[k], Probeable(entries, id), next);
    }
    OutcomesNext(entries, states, ds, script, judge, i, next, dialed, entry, more);
  }

  /** Clients of sessions not among the first n descriptors are as open as they were. */
  ghost predicate Unprobed(entries: map<string, Entry>, states: map<string, ClientState>, ds: seq<Descriptor>, n: nat)
    requires states.Keys == entries.Keys && n <= |ds|
    reads Holders(entries)
  {
    forall id :: id in entries && id !in Seen(ds[..n]) ==> entries[id].client.open == states[id].open
  }

  /** Request ids are fresh. */
  ghost predicate FreshIds(entries: map<string, Entry>, states: map<string, ClientState>, ds: seq<Descriptor>, script: seq<Probing>)
    requires |ds| == |script| && states.Keys == entries.Keys
  {
    forall k :: 0 <= k < |ds| && ds[k].sessionId in entries ==> script[k].oldId !in states[ds[k].sessionId].owed
  }

  /** The context was still live before each of the first n probes. */
  ghost predicate Uncancelled(script: seq<Probing>, n: nat)
    requires n <= |script|
  {
    forall k :: 0 <= k < n ==> !script[k].cancelled
  }

  /** The loop over the descriptors; `stop` is where a cancelled context ended it. */
  method ProbeAll(ds: seq<Descriptor>, script: seq<Probing>, entries: map<string, Entry>,
                  ghost states: map<string, ClientState>, ghost judge: Judge, network: Network)
    returns (next: map<string, Entry>, cancelled: bool, ghost dialed: set<Client>, ghost stop: nat)
    requires KeyedBy(entries) && states == StatesOf(entries) && Judges(judge, entries, states)
    requires DistinctSessions(ds) && |ds| == |script| && FreshIds(entries, states, ds, script)
    modifies Holders(entries), network
    ensures network.clients == old(network.clients) + dialed
    ensures stop <= |ds| && (cancelled <==> stop < |ds|) && (cancelled ==> script[stop].cancelled)
    ensures Uncancelled(script, stop)
    ensures next.Keys <= Seen(ds[..stop])
    ensures Outcomes(entries, states, ds, script, judge, stop, next, dialed)
    ensures fresh(dialed) && OpenIffHeld(next, dialed)
    ensures Unprobed(entries, states, ds, stop)
  {
    next, cancelled, dialed, stop := map[], false, {}, 0;
    for i := 0 to |ds|
      invariant stop == i && !cancelled && next.Keys <= Seen(ds[..i])
      invariant Uncancelled(script, i)
      invariant Outcomes(entries, states, ds, script, judge, i, next, dialed)
      invariant fresh(dialed) && OpenIffHeld(next, dialed) && network.clients == old(network.clients) + dialed
      invariant forall id :: id in entries && id !in Seen(ds[..i]) ==>
                  states[id] == ClientState(entries[id].client.open, entries[id].client.owed)
    {
      if script[i].cancelled { return next, true, dialed, i; }
      SeenMore(ds, i);
      next, dialed := ProbeNext(ds, script, i, entries, states, judge, next, dialed, network);
      stop := i + 1;
    }
  }

  predicate Replaced(before: map<string, Entry>, next: map<string, Entry>, id: string) {
    id in before && !(id in next && next[id].client == before[id].client)
  }

  /** The loop that closes the clients of entries that were dropped or replaced. */
  method CloseReplaced(before: map<string, Entry>, next: map<string, Entry>)
    modifies (set id | id in before && Replaced(before, next, id) :: before[id].client)`open
    ensures forall id :: Replaced(before, next, id) ==> !before[id].client.open
  {
    var ids := before.Keys;
    while ids != {}
      invariant ids <= before.Keys
      invariant forall id :: Replaced(before, next, id) && id !in ids ==> !before[id].client.open
    {
      var id :| id in ids;
      ids := ids - {id};
      if Replaced(before, next, id) { before[id].client.Close(); }
    }
  }

  // ---------- ownership ----------

  ghost predicate AllOpen(entries: map<string, Entry>)
    reads Holders(entries)
  {
    forall id :: id in entries ==> entries[id].client.open
  }

  ghost predicate AllClosed(clients: set<Client>)
    reads clients
  {
    forall c :: c in clients ==> !c.open
  }

  /** Clients nobody will ever close: open, and held by no entry. */
  ghost function Stray(entries: map<string, Entry>, clients: set<Client>): set<Client>
    reads clients
  {
    set c | c in clients && c.open && c !in Holders(entries)
  }

  ghost predicate StraysAre(entries: map<string, Entry>, clients: set<Client>, strays: set<Client>)
    reads clients
  {
    && strays <= clients && strays !! Holders(entries)
    && forall c :: c in clients && c !in Holders(entries) ==> (c.open <==> c in strays)
  }

  /** Probing a descriptor closed its old client or left a new one open. */
  predicate Disturbs(entries: map<string, Entry>, d: Descriptor, v: Verdict) {
    !v.keep && (v.redial || SameEndpoint(entries, d))
  }

  ghost predicate Undisturbed(entries: map<string, Entry>, ds: seq<Descriptor>, script: seq<Probing>, judge: Judge, n: nat)
    requires n <= |ds| == |script|
  {
    forall k :: 0 <= k < n ==> !Disturbs(entries, ds[k], judge(ds[k], script[k]))
  }

  lemma {:induction false} SeenAt(ds: seq<Descriptor>, n: nat, id: string) returns (k: nat)
    requires n <= |ds| && id in Seen(ds[..n])
    ensures k < n && ds[k].sessionId == id
  {
    var d :| d in ds[..n] && d.sessionId == id;
    k :| 0 <= k < n && ds[..n][k] == d;
  }

  predicate WereOpen(states: map<string, ClientState>) {
    forall id :: id in states ==> states[id].open
  }

  /** The registry's own clients are all open after the probes only if nothing was disturbed. */
  lemma {:induction false} QuietKeepsOpen(entries: map<string, Entry>, states: map<string, ClientState>, ds: seq<Descriptor>,
                                          script: seq<Probing>, judge: Judge, n: nat,
                                          next: map<string, Entry>, dialed: set<Client>)
    requires states.Keys == entries.Keys && n <= |ds| == |script|
    requires WereOpen(states)
    requires Outcomes(entries, states, ds, script, judge, n, next, dialed)
    requires Unprobed(entries, states, ds, n)
    requires Undisturbed(entries, ds, script, judge, n)
    ensures AllOpen(entries)
  {
    forall id | id in entries ensures entries[id].client.open {
      if id in Seen(ds[..n]) {
        var k := SeenAt(ds, n, id);
        assert Outcome(entries, states, ds[k], judge(ds[k], script[k]), next, dialed);
      }
    }
  }

  /** Every new entry holds a client it already had or one that was just dialed. */
  ghost predicate Sourced(before: map<string, Entry>, next: map<string, Entry>, dialed: set<Client>) {
    forall id :: id in next ==> next[id].client in dialed || (id in before && next[id].client == before[id].client)
  }

  lemma {:induction false} OutcomesSourced(entries: map<string, Entry>, states: map<string, ClientState>, ds: seq<Descriptor>,
                                           script: seq<Probing>, judge: Judge, n: nat,
                                           next: map<string, Entry>, dialed: set<Client>)
    requires states.Keys == entries.Keys && n <= |ds| == |script|
    requires Outcomes(entries, states, ds, script, judge, n, next, dialed) && next.Keys <= Seen(ds[..n])
    ensures Sourced(entries, next, dialed)
    ensures Undisturbed(entries, ds, script, judge, n) ==> Holders(next) <= Holders(entries)
  {
    forall id | id in next
      ensures next[id].client in dialed || (id in entries && next[id].client == entries[id].client)
      ensures Undisturbed(entries, ds, script, judge, n) ==> next[id].client in Holders(entries)
    {
      var k := SeenAt(ds, n, id);
      assert Outcome(entries, states, ds[k], judge(ds[k], script[k]), next, dialed);
    }
  }

  /** Closing what was replaced closes nothing the new entries hold. */
  lemma {:induction false} ReplacedApart(before: map<string, Entry>, next: map<string, Entry>, dialed: set<Client>)
    requires KeyedBy(before) && Sourced(before, next, dialed) && Holders(before) !! dialed
    ensures forall id :: Replaced(before, next, id) ==> before[id].client !in Holders(next)
  {
  }

  /** What a disturbed descriptor leaves behind: a closed client in the registry, or an open one outside it. */
  lemma {:induction false} DisturbedShows(entries: map<string, Entry>, states: map<string, ClientState>, d: Descriptor, v: Verdict,
                                          next: map<string, Entry>, dialed: set<Client>)
    requires states.Keys == entries.Keys && Holders(entries) !! dialed
    requires Outcome(entries, states, d, v, next, dialed) && Disturbs(entries, d, v)
    ensures AllOpen(entries) ==> exists c :: c in dialed && c.open && c !in Holders(entries)
  {
    var id := d.sessionId;
    if SameEndpoint(entries, d) {
      assert !entries[id].client.open;
    } else {
      assert next[id].client in dialed && next[id].client.open;
    }
  }

  /** After a full refresh the strays are the old strays. */
  lemma {:induction false} StraysStay(before: map<string, Entry>, next: map<string, Entry>, clients: set<Client>, dialed: set<Client>,
                                      strays: set<Client>)
    requires Sourced(before, next, dialed) && clients !! dialed && Holders(before) <= clients
    requires OpenIffHeld(next, dialed)
    requires forall id :: Replaced(before, next, id) ==> !before[id].client.open
    requires StraysAre(before, clients, strays)
    ensures Stray(next, clients + dialed) == strays
    ensures AllClosed(Holders(before) - Holders(next))
  {
    forall c | c in Holders(before) && c !in Holders(next) ensures !c.open {
      var id :| id in before && before[id].client == c;
      assert Replaced(before, next, id);
    }
    forall c | c in clients + dialed ensures c in Stray(next, clients + dialed) <==> c in strays {
    }
  }

  /** The entries are exactly the sessions that answered, each through a serving client. */
  ghost predicate Rebuilt(before: map<string, Entry>, next: map<string, Entry>, ds: seq<Descriptor>, script: seq<Probing>,
                          judge: Judge)
    requires |ds| == |script|
    reads Holders(next)
  {
    && next.Keys <= Seen(ds)
    && forall k :: 0 <= k < |ds| ==>
         var id, v := ds[k].sessionId, judge(ds[k], script[k]);
         && (id in next <==> v.keep || v.redial)
         && (id in next ==> Serves(next[id], ds[k]))
         && (v.keep ==> id in before && id in next && next[id].client == before[id].client)
  }

  lemma {:induction false} OutcomesRebuilt(before: map<string, Entry>, states: map<string, ClientState>, ds: seq<Descriptor>,
                                           script: seq<Probing>, judge: Judge,
                                           next: map<string, Entry>, dialed: set<Client>)
    requires states.Keys == before.Keys && |ds| == |script|
    requires Outcomes(before, states, ds, script, judge, |ds|, next, dialed) && next.Keys <= Seen(ds)
    ensures Rebuilt(before, next, ds, script, judge) && KeyedBy(next)
  {
    forall k | 0 <= k < |ds| ensures Outcome(before, states, ds[k], judge(ds[k], script[k]), next, dialed) {
    }
    assert ds[..|ds|] == ds;
    forall id | id in next
      ensures next[id].descriptor.sessionId == id && SameConnection(next[id].client.descriptor, next[id].descriptor)
    {
      var k := SeenAt(ds, |ds|, id);
      assert Outcome(before, states, ds[k], judge(ds[k], script[k]), next, dialed);
    }
  }

  /** Ownership after a cancelled refresh. */
  lemma {:induction false} CancelledIff(entries: map<string, Entry>, states: map<string, ClientState>, ds: seq<Descriptor>,
                                        script: seq<Probing>, judge: Judge, n: nat, next: map<string, Entry>,
                                        dialed: set<Client>, clients: set<Client>)
    requires states.Keys == entries.Keys && n <= |ds| == |script|
    requires Outcomes(entries, states, ds, script, judge, n, next, dialed) && next.Keys <= Seen(ds[..n])
    requires clients !! dialed && Holders(entries) <= clients
    requires OpenIffHeld(next, dialed)
    requires Unprobed(entries, states, ds, n)
    requires StraysAre(entries, clients, {})
    requires WereOpen(states)
    ensures AllOpen(entries) && Stray(entries, clients + dialed) == {} <==> Undisturbed(entries, ds, script, judge, n)
  {
    if Undisturbed(entries, ds, script, judge, n) {
      QuietKeepsOpen(entries, states, ds, script, judge, n, next, dialed);
      OutcomesSourced(entries, states, ds, script, judge, n, next, dialed);
      assert forall c :: c in clients + dialed && c.open ==> c in Holders(entries);
    } else {
      var k :| 0 <= k < n && Disturbs(entries, ds[k], judge(ds[k], script[k]));
      var v := judge(ds[k], script[k]);
      assert Outcome(entries, states, ds[k], v, next, dialed);
      DisturbedShows(entries, states, ds[k], v, next, dialed);
      if AllOpen(entries) {
        var c :| c in dialed && c.open && c !in Holders(entries);
        assert c in Stray(entries, clients + dialed);
      }
    }
  }

  class SessionRegistry {
    var entries: map<string, Entry>
    /** Everything this registry dials. */
    const network: Network

    /** Entries are keyed by their session, and so are the clients they hold: no client has two owners. */
    ghost predicate Keyed()
      reads this, network
    {
      KeyedBy(entries) && Holders(entries) <= network.clients
    }

    /** Of all clients ever made, the open ones are exactly those the registry holds. */
    ghost predicate Owned()
      reads this, network, network.clients, Holders(entries)
    {
      AllOpen(entries) && Stray(entries, network.clients) == {}
    }

    constructor (network: Network)
      ensures this.network == network && entries == map[] && Keyed()
      ensures Owned() <==> AllClosed(network.clients)
    {
      this.network, entries := network, map[];
      new;
      assert AllClosed(network.clients) <==> Stray(entries, network.clients) == {} by {
        if !AllClosed(network.clients) {
          var c :| c in network.clients && c.open;
          assert c in Stray(entries, network.clients);
        }
      }
    }

    /** The new entries replace the old ones, whose other clients are closed. `clients` were there before `dialed`. */
    method Install(next: map<string, Entry>, ghost clients: set<Client>, ghost dialed: set<Client>, ghost strays: set<Client>)
      requires KeyedBy(entries) && KeyedBy(next) && Sourced(entries, next, dialed)
      requires clients !! dialed && network.clients == clients + dialed && Holders(entries) <= clients
      requires OpenIffHeld(next, dialed)
      requires StraysAre(entries, clients, strays)
      modifies this, Holders(entries)
      ensures entries == next && Keyed()
      ensures unchanged(Holders(next))
      ensures Stray(entries, network.clients) == strays
      ensures AllClosed(old(Holders(entries)) - Holders(next))
    {
      ReplacedApart(entries, next, dialed);
      var before := entries;
      CloseReplaced(before, next);
      StraysStay(before, next, clients, dialed, strays);
      entries := next;
    }

    /** The probes of a refresh, before anything is replaced. */
    method ProbeEvery(ds: seq<Descriptor>, script: seq<Probing>, ghost judge: Judge)
      returns (next: map<string, Entry>, cancelled: bool, ghost dialed: set<Client>, ghost stop: nat)
      requires Keyed() && Judges(judge, entries, StatesOf(entries))
      requires DistinctSessions(ds) && |ds| == |script| && FreshIds(entries, StatesOf(entries), ds, script)
      modifies Holders(entries), network
      ensures network.clients == old(network.clients) + dialed
      ensures stop <= |ds| && (cancelled <==> stop < |ds|) && (cancelled ==> script[stop].cancelled)
      ensures Uncancelled(script, stop)
      ensures fresh(dialed) && OpenIffHeld(next, dialed) && Sourced(entries, next, dialed)
      ensures StraysAre(entries, old(network.clients), old(Stray(entries, network.clients)))
      ensures !cancelled ==> Rebuilt(entries, next, ds, script, judge) && KeyedBy(next)
      ensures old(Owned()) ==>
                (AllOpen(entries) && Stray(entries, network.clients) == {} <==> Undisturbed(entries, ds, script, judge, stop))
    {
      ghost var clients := network.clients;
      ghost var states, strays, owned := StatesOf(entries), Stray(entries, clients), Owned();
      next, cancelled, dialed, stop := ProbeAll(ds, script, entries, states, judge, network);
      assert StraysAre(entries, clients, strays);
      OutcomesSourced(entries, states, ds, script, judge, stop, next, dialed);
      if owned { CancelledIff(entries, states, ds, script, judge, stop, next, dialed, clients); }
      if !cancelled {
        assert ds[..stop] == ds;
        OutcomesRebuilt(entries, states, ds, script, judge, next, dialed);
      }
    }

    /**
     Refresh after the descriptors were read. On a normal return the registry holds exactly
     the sessions that answered, each through an open client that owes no reply; every client
     it let go of is closed, and no client went astray. A cancelled refresh leaves the entries
     alone, and ownership survives it exactly when no descriptor was disturbed before.
     */
    method Rebuild(ds: seq<Descriptor>, script: seq<Probing>, ghost judge: Judge) returns (cancelled: bool, ghost stop: nat)
      requires Keyed() && Judges(judge, entries, StatesOf(entries))
      requires DistinctSessions(ds) && |ds| == |script| && FreshIds(entries, StatesOf(entries), ds, script)
      modifies this, network, Holders(entries)
      ensures Keyed() && old(network.clients) <= network.clients && fresh(network.clients - old(network.clients))
      ensures stop <= |ds| && (cancelled <==> stop < |ds|) && (cancelled ==> script[stop].cancelled)
      ensures Uncancelled(script, stop)
      ensures !cancelled ==>
                && Rebuilt(old(entries), entries, ds, script, judge) && AllOpen(entries) && NothingOwed(entries)
                && fresh(Holders(entries) - old(Holders(entries)))
                && AllClosed(old(Holders(entries)) - Holders(entries))
                && Stray(entries, network.clients) == old(Stray(entries, network.clients))
      ensures !cancelled && old(Owned()) ==> Owned()
      ensures cancelled ==>
                && entries == old(entries)
                && (old(Owned()) ==> (Owned() <==> Undisturbed(entries, ds, script, judge, stop)))
    {
      ghost var clients, strays := network.clients, Stray(entries, network.clients);
      var next, stopped, dialed, at := ProbeEvery(ds, script, judge);
      cancelled, stop := stopped, at;
      if !cancelled {
        RebuiltServes(entries, next, ds, script, judge);
        Install(next, clients, dialed, strays);
      }
    }

    /** Refresh: none of its errors is recovered from; probing goes by what the old state and the script decide. */
    method Refresh(listing: Listing, script: seq<Probing>) returns (result: Refreshed, ghost stop: nat)
      requires Keyed()
      requires listing.Entries? ==> DistinctNames(listing.entries)
      requires |script| == |Listed(listing)| && FreshIds(entries, StatesOf(entries), Listed(listing), script)
      modifies this, network, Holders(entries)
      ensures Keyed() && stop <= |script|
      ensures old(network.clients) <= network.clients && fresh(network.clients - old(network.clients))
      ensures result.LoadFailed? <==> listing.Unreadable?
      ensures result.LoadFailed? ==> entries == old(entries) && unchanged(old(Holders(entries)))
      ensures result.Cancelled? <==> !listing.Unreadable? && stop < |script|
      ensures (result.Cancelled? ==> script[stop].cancelled) && Uncancelled(script, stop)
      ensures result.Done? ==>
                && Rebuilt(old(entries), entries, Listed(listing), script, JudgeOf(old(entries), old(StatesOf(entries))))
                && AllOpen(entries) && NothingOwed(entries)
                && fresh(Holders(entries) - old(Holders(entries)))
                && AllClosed(old(Holders(entries)) - Holders(entries))
                && Stray(entries, network.clients) == old(Stray(entries, network.clients))
      ensures result.Cancelled? ==>
                && entries == old(entries)
                && (old(Owned()) ==>
                      (Owned() <==> Undisturbed(entries, Listed(listing), script,
                                                JudgeOf(old(entries), old(StatesOf(entries))), stop)))
      ensures !result.Cancelled? && old(Owned()) ==> Owned()
    {
      stop := 0;
      var descriptors := LoadDescriptors(listing);
      if descriptors.None? { return LoadFailed, 0; }
      var ds := descriptors.value;
      if listing.Entries? { LoadedDistinct(listing.entries); }
      ghost var judge := JudgeOf(entries, StatesOf(entries));
      var cancelled, at := Rebuild(ds, script, judge);
      stop := at;
      if cancelled { return Cancelled, at; }
      return Done, at;
    }

    method Close()
      requires Keyed()
      modifies this, Holders(entries)
      ensures entries == map[] && Keyed()
      ensures AllClosed(old(Holders(entries)))
      ensures Stray(entries, network.clients) == old(Stray(entries, network.clients))
    {
      var before := entries;
      entries := map[];
      CloseReplaced(before, map[]);
      forall c | c in Holders(before) ensures !c.open {
        var id :| id in before && before[id].client == c;
        assert Replaced(before, map[], id);
      }
    }

    /** One request through a registered client: an answer leaves nothing owed, and nobody is opened or closed. */
    method Ask(sessionId: string, id: string, x: Exchange) returns (answer: CallResult)
      requires Keyed() && sessionId in entries && entries[sessionId].client.owed == []
      modifies entries[sessionId].client`owed
      ensures AllOpen(entries) == old(AllOpen(entries)) && Owned() == old(Owned())
      ensures Stray(entries, network.clients) == old(Stray(entries, network.clients))
      ensures (entries[sessionId].client.owed, answer) == Exchanged(entries[sessionId].client.open, [], id, x)
    {
      ghost var strays := Stray(entries, network.clients);
      var client := entries[sessionId].client;
      LockStepExchange(client.open, client.owed, id, x);
      answer := client.Request(id, x);
      assert Stray(entries, network.clients) == strays;
    }

    /**
     Call: refresh, look the session up, send one request through its client. There is a result
     exactly if the descriptors could be read, no probe was cancelled, and the session answered
     its probe; it is what one exchange on a connection that owes nothing makes of the peer's reply.
     */
    method Call(listing: Listing, script: seq<Probing>, sessionId: string, requestId: string, x: Exchange)
      returns (result: Option<CallResult>)
      requires Keyed()
      requires listing.Entries? ==> DistinctNames(listing.entries)
      requires |script| == |Listed(listing)| && FreshIds(entries, StatesOf(entries), Listed(listing), script)
      modifies this, network, Holders(entries)
      ensures Keyed()
      ensures result.Some? <==>
                && !listing.Unreadable? && Uncancelled(script, |script|)
                && SessionAnswers(old(entries), old(StatesOf(entries)), Listed(listing), script, sessionId)
      ensures result.Some? ==>
                && sessionId in entries && AllOpen(entries)
                && (entries[sessionId].client.owed, result.value) == Exchanged(true, [], requestId, x)
                && Stray(entries, network.clients) == old(Stray(entries, network.clients))
      ensures result.Some? && old(Owned()) ==> Owned()
    {
      ghost var ds, before, states := Listed(listing), entries, StatesOf(entries);
      var refreshed, _ := Refresh(listing, script);
      if refreshed.Done? { AnswersListed(before, states, entries, ds, script, sessionId); }
      if !refreshed.Done? || sessionId !in entries { return None; }
      var answer := Ask(sessionId, requestId, x);
      return Some(answer);
    }
  }

  /** The session is described, and its client or a new one answers the probe. */
  ghost predicate SessionAnswers(entries: map<string, Entry>, states: map<string, ClientState>, ds: seq<Descriptor>,
                                 script: seq<Probing>, sessionId: string)
    requires states.Keys == entries.Keys && |ds| == |script|
  {
    exists k :: 0 <= k < |ds| && ds[k].sessionId == sessionId &&
                (VerdictOf(entries, states, ds[k], script[k]).keep || VerdictOf(entries, states, ds[k], script[k]).redial)
  }

  lemma {:induction false} AnswersListed(before: map<string, Entry>, states: map<string, ClientState>, next: map<string, Entry>,
                                         ds: seq<Descriptor>, script: seq<Probing>, sessionId: string)
    requires states.Keys == before.Keys && |ds| == |script|
    requires Rebuilt(before, next, ds, script, JudgeOf(before, states))
    ensures sessionId in next <==> SessionAnswers(before, states, ds, script, sessionId)
  {
    var judge := JudgeOf(before, states);
    assert ds[..|ds|] == ds;
    if sessionId in next {
      var k := SeenAt(ds, |ds|, sessionId);
      assert judge(ds[k], script[k]) == VerdictOf(before, states, ds[k], script[k]);
    }
    if SessionAnswers(before, states, ds, script, sessionId) {
      var k :| 0 <= k < |ds| && ds[k].sessionId == sessionId &&
               (VerdictOf(before, states, ds[k], script[k]).keep || VerdictOf(before, states, ds[k], script[k]).redial);
      assert judge(ds[k], script[k]) == VerdictOf(before, states, ds[k], script[k]);
    }
  }

  ghost predicate NothingOwed(entries: map<string, Entry>)
    reads Holders(entries)
  {
    forall id :: id in entries ==> entries[id].client.owed == []
  }

  /** The descriptors a refresh goes through. */
  function Listed(listing: Listing): seq<Descriptor> {
    if listing.Entries? then Loaded(listing.entries) else []
  }

  function JudgeOf(entries: map<string, Entry>, states: map<string, ClientState>): Judge
    requires states.Keys == entries.Keys
  {
    (d, p) => VerdictOf(entries, states, d, p)
  }

  lemma {:induction false} RebuiltServes(before: map<string, Entry>, next: map<string, Entry>, ds: seq<Descriptor>,
                                         script: seq<Probing>, judge: Judge)
    requires |ds| == |script| && Rebuilt(before, next, ds, script, judge)
    ensures AllOpen(next) && NothingOwed(next)
  {
    assert ds[..|ds|] == ds;
    forall id | id in next ensures next[id].client.open && next[id].client.owed == [] {
      var k := SeenAt(ds, |ds|, id);
      assert Serves(next[id], ds[k]);
    }
  }

  /** A client whose last reply was abandoned is never kept, whatever it says when probed. */
  lemma {:induction false} AbandonedNotKept(entries: map<string, Entry>, states: map<string, ClientState>, d: Descriptor, p: Probing)
    requires states.Keys == entries.Keys && d.sessionId in entries
    requires states[d.sessionId].owed != [] && p.oldId !in states[d.sessionId].owed
    ensures !VerdictOf(entries, states, d, p).keep
  {
    var st := states[d.sessionId];
    LockStep(entries[d.sessionId].client.descriptor, st.open, st.owed, p.oldId, p.oldExchange);
  }

  /** A probe in which everything goes well, for a session the registry does not know yet. */
  function HealthyProbe(d: Descriptor): Probing {
    var info := Info(d.sessionId, d.pid, "2026", "guid", "title", 0);
    var answered := Exchange(false, false, Sent, Decoded(0, Response("response", VERSION, true, false, true, Some(info))));
    Probing(false, "", answered,
            Dialing(true, Some(Hello("hello", VERSION, d.sessionId, d.sessionId, 1_048_576)),
                    Some(Authentication("authenticate", VERSION, true))),
            d.sessionId, answered)
  }

  /** A first descriptor that is dialed successfully is a disturbance. */
  lemma {:induction false} DialedDisturbs(d: Descriptor, later: Descriptor, cancelled: Probing)
    requires ValidDescriptor(d)
    ensures !Undisturbed(map[], [d, later], [HealthyProbe(d), cancelled], JudgeOf(map[], map[]), 1)
  {
    var p := HealthyProbe(d);
    assert Probed(d, true, [], p.newId, p.newExchange).1 == Answer(p.newExchange.reading.response.decoded.value);
    assert JudgeOf(map[], map[])(d, p) == VerdictOf(map[], map[], d, p);
    assert Disturbs(map[], [d, later][0], JudgeOf(map[], map[])([d, later][0], [p, cancelled][0]));
  }

  function FileOf(d: Descriptor): DirEntry {
    DirEntry(d.sessionId + ".json", false, Some(d))
  }

  lemma {:induction false} TwoFiles(d: Descriptor, later: Descriptor)
    requires ValidDescriptor(d) && ValidDescriptor(later) && d.sessionId != later.sessionId
    ensures DistinctNames([FileOf(d), FileOf(later)]) && Loaded([FileOf(d), FileOf(later)]) == [d, later]
  {
    var es := [FileOf(d), FileOf(later)];
    assert |d.sessionId| == 36 && |later.sessionId| == 36;
    assert FileOf(d).name[..36] == d.sessionId && FileOf(later).name[..36] == later.sessionId;
    assert FileOf(d).name[36..] == ".json" && FileOf(later).name[36..] == ".json";
    assert es[1..] == [FileOf(later)] && es[1..][1..] == [];
    assert Loaded(es[1..]) == [later];
  }

  lemma {:induction false} StraySomeone(registry: SessionRegistry)
    requires registry.entries == map[] && !registry.Owned()
    ensures exists c :: c in registry.network.clients && c.open
  {
    var c :| c in Stray(registry.entries, registry.network.clients);
    assert c in registry.network.clients && c.open;
  }

  /** An empty registry refreshes two files; the context is cancelled after the first one disturbed it. */
  method CancelledBetween(listing: Listing, script: seq<Probing>) returns (registry: SessionRegistry, result: Refreshed)
    requires listing.Entries? && DistinctNames(listing.entries) && |Listed(listing)| == 2 == |script|
    requires !script[0].cancelled && script[1].cancelled
    requires !Undisturbed(map[], Listed(listing), script, JudgeOf(map[], map[]), 1)
    ensures fresh(registry) && registry.Keyed() && registry.entries == map[] && fresh(registry.network.clients)
    ensures result.Cancelled? && !registry.Owned()
  {
    var network := new Network();
    registry := new SessionRegistry(network);
    assert StatesOf(registry.entries) == map[];
    ghost var stop;
    result, stop := registry.Refresh(listing, script);
    assert stop == 1;
  }

  /**
   Cancelling between two descriptors loses a client: an empty registry that owns its clients
   refreshes two valid descriptor files, the first session is dialed and answers, the context
   is cancelled before the second; the refresh ends as cancelled and an open client has no owner.
   */
  method LostClient(d: Descriptor, later: Descriptor, cancelled: Probing) returns (registry: SessionRegistry, result: Refreshed)
    requires ValidDescriptor(d) && ValidDescriptor(later) && d.sessionId != later.sessionId && cancelled.cancelled
    ensures fresh(registry) && registry.Keyed() && registry.entries == map[]
    ensures result.Cancelled? && !registry.Owned()
    ensures fresh(registry.network.clients) && exists c :: c in registry.network.clients && c.open
  {
    TwoFiles(d, later);
    DialedDisturbs(d, later, cancelled);
    registry, result := CancelledBetween(Entries([FileOf(d), FileOf(later)]), [HealthyProbe(d), cancelled]);
    StraySomeone(registry);
  }
}
