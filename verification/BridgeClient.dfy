/**
 The Go bridge client: one request, one reply, over a connection whose successes come back in
 the order of the requests while errors may overtake. What is on its way back is part of the
 state, so that giving up on a reply is not the same as never having asked.
 */
module BridgeClient {
  import opened Basics
  import opened Protocol
  import Bridge
  import Json
  import Mutations
  import Replies

  datatype Descriptor = Descriptor(bridge: string, protocolVersion: int, sessionId: string, pid: int,
                                   host: string, port: int, token: string, startedAt: string)

  predicate SameConnection(a: Descriptor, b: Descriptor) {
    && a.protocolVersion == b.protocolVersion && a.sessionId == b.sessionId
    && a.host == b.host && a.port == b.port && a.token == b.token
  }

  predicate ValidDescriptor(d: Descriptor) {
    && d.bridge == "sketchup-mcp" && d.protocolVersion == VERSION && IsUuid(d.sessionId) && d.pid > 0
    && d.host == "127.0.0.1" && 1 <= d.port <= 65_535 && 16 <= Mutations.ByteSize(d.token) <= 512 && d.startedAt != ""
  }

  /** Two valid descriptors reach the same connection exactly if they differ at most in process id and start time. */
  lemma {:induction false} SameConnectionIff(a: Descriptor, b: Descriptor)
    requires ValidDescriptor(a) && ValidDescriptor(b)
    ensures SameConnection(a, b) <==> a.(pid := b.pid, startedAt := b.startedAt) == b
  {
  }

  datatype Info = Info(sessionId: string, pid: int, sketchupVersion: string, modelGuid: string, title: string, revision: nat)

  // ---------- what the environment does to one exchange ----------

  /** A failing write may still have delivered the whole frame. */
  datatype Sending = Sent | NotSent(delivered: bool)

  /** A decoded response frame. */
  datatype Response = Response(kind: string, version: int, ok: bool, hasError: bool, hasPayload: bool, decoded: Option<Info>)

  /**
   How reading the reply ends. Unread: it gives up on a timeout or a closed socket, and the
   reply is still to come. Otherwise one frame was consumed, whether it decodes or not; which
   of the replies on their way it was is the peer's choice, within what Overtaking allows.
   */
  datatype Reading = Unread | Undecodable(position: nat) | Decoded(position: nat, response: Response)

  datatype Exchange = Exchange(cancelled: bool, deadlineFails: bool, sending: Sending, reading: Reading)

  datatype Hello = Hello(kind: string, version: int, sessionId: string, serverNonce: string, maxMessageBytes: int)

  datatype Authentication = Authentication(kind: string, version: int, ok: bool)

  /** Connecting and the two handshake replies; None where the step fails before one is read. */
  datatype Dialing = Dialing(connected: bool, hello: Option<Hello>, authentication: Option<Authentication>)

  datatype CallResult =
    | Answer(info: Info)
    | Refusal              // the peer answered with an error
    | Fault                // anything else

  // ---------- one request ----------

  /** The checks on a response, in order. */
  function Interpret(r: Response, correlated: bool): CallResult {
    if r.kind != "response" then Fault
    else if r.version != VERSION then Fault
    else if !correlated then Fault
    else if !r.ok then (if r.hasError then Refusal else Fault)
    else if !r.hasPayload || r.decoded.None? then Fault
    else Answer(r.decoded.value)
  }

  /** The reply that is read: a success is the oldest of those on their way, another may overtake. */
  function Overtaking(owed: seq<string>, position: nat, ok: bool): (k: nat)
    requires owed != []
    ensures k < |owed|
  {
    if ok || position >= |owed| then 0 else position
  }

  function Dropped(owed: seq<string>, k: nat): seq<string>
    requires k < |owed|
  {
    owed[..k] + owed[k + 1..]
  }

  /** request: `owed` lists the requests that reached the peer and whose replies are unread, oldest first. */
  function Exchanged(open: bool, owed: seq<string>, id: string, x: Exchange): (seq<string>, CallResult) {
    if !open || x.cancelled || x.deadlineFails then (owed, Fault)
    else
      match x.sending
      case NotSent(delivered) => (if delivered then owed + [id] else owed, Fault)
      case Sent =>
        var replies := owed + [id];
        match x.reading
        case Unread => (replies, Fault)
        case Undecodable(position) => (Dropped(replies, Overtaking(replies, position, false)), Fault)
        case Decoded(position, r) =>
          var k := Overtaking(replies, position, r.ok);
          (Dropped(replies, k), Interpret(r, replies[k] == id))
  }

  /** session.info, checked against the descriptor. */
  function Probed(d: Descriptor, open: bool, owed: seq<string>, id: string, x: Exchange): (seq<string>, CallResult) {
    var (owed', result) := Exchanged(open, owed, id, x);
    (owed', if result.Answer? && result.info.sessionId != d.sessionId then Fault else result)
  }

  predicate HelloAccepted(d: Descriptor, h: Hello) {
    && h.kind == "hello" && h.version == VERSION && h.sessionId == d.sessionId
    && IsUuid(h.serverNonce) && 0 < h.maxMessageBytes <= 1_048_576
  }

  /** Dial succeeds: connected, greeted by the session it looked for, and authenticated. */
  predicate Dialed(d: Descriptor, script: Dialing) {
    && ValidDescriptor(d) && script.connected
    && script.hello.Some? && HelloAccepted(d, script.hello.value)
    && script.authentication.Some?
    && script.authentication.value.kind == "authenticate" && script.authentication.value.version == VERSION
    && script.authentication.value.ok
  }

  /** A client is only ever connected to the local host, at the port, session and token of a valid descriptor. */
  lemma {:induction false} DialedMeans(d: Descriptor, script: Dialing)
    requires Dialed(d, script)
    ensures d.host == "127.0.0.1" && 1 <= d.port <= 65_535 && 16 <= Mutations.ByteSize(d.token) <= 512 && d.pid > 0
    ensures d.bridge == "sketchup-mcp" && d.protocolVersion == 1 && d.startedAt != "" && IsUuid(d.sessionId)
    ensures script.hello.Some? && script.hello.value.sessionId == d.sessionId && script.hello.value.maxMessageBytes <= 1_048_576
    ensures script.authentication.Some? && script.authentication.value.ok
  {
  }

  // ---------- lock step ----------

  /** The exchange goes through and brings a complete success response. */
  predicate Succeeds(x: Exchange) {
    && !x.cancelled && !x.deadlineFails && x.sending.Sent? && x.reading.Decoded?
    && var r := x.reading.response;
    r.kind == "response" && r.version == VERSION && r.ok && r.hasPayload && r.decoded.Some?
  }

  lemma {:induction false} LockStepExchange(open: bool, owed: seq<string>, id: string, x: Exchange)
    requires id !in owed
    ensures var (owed', result) := Exchanged(open, owed, id, x);
            && (result.Answer? <==> open && owed == [] && Succeeds(x))
            && (result.Answer? ==> owed' == [])
            && (result.Refusal? ==> open && owed' == owed)
            && (owed != [] ==> owed' != [])
            && (forall i :: i in owed' ==> i in owed || i == id)
  {
    if open && !x.cancelled && !x.deadlineFails && x.sending.Sent? && !x.reading.Unread? {
      var replies := owed + [id];
      var k := Overtaking(replies, x.reading.position, x.reading.Decoded? && x.reading.response.ok);
      if k < |owed| { assert replies[k] == owed[k] && owed[k] in owed; }
      if k == |owed| { assert Dropped(replies, k) == owed; }
      if owed != [] { assert |Dropped(replies, k)| == |owed|; }
      forall i | i in Dropped(replies, k) ensures i in owed || i == id {
        assert i in replies;
      }
    }
  }

  /**
   With a fresh request id, a success is taken for this request exactly if it comes whole and
   nothing was owed before; then nothing is owed after. An error response leaves what was
   owed as it was. A client that owes a reply never gets a success and always owes another.
   */
  lemma {:induction false} LockStep(d: Descriptor, open: bool, owed: seq<string>, id: string, x: Exchange)
    requires id !in owed
    ensures var (owed', result) := Probed(d, open, owed, id, x);
            && (result.Answer? <==>
                  open && owed == [] && Succeeds(x) && x.reading.response.decoded.value.sessionId == d.sessionId)
            && (result.Answer? ==> owed' == [] && result.info.sessionId == d.sessionId)
            && (result.Refusal? ==> open && owed' == owed)
            && (owed != [] ==> owed' != [])
            && (forall i :: i in owed' ==> i in owed || i == id)
  {
    LockStepExchange(open, owed, id, x);
  }

  /** A reply that was read, decodable or not, is not owed: the next exchange starts afresh. */
  lemma {:induction false} OnlyUnreadIsOwed(open: bool, id: string, x: Exchange)
    ensures Exchanged(open, [], id, x).0 != [] <==>
            && open && !x.cancelled && !x.deadlineFails
            && (if x.sending.Sent? then x.reading.Unread? else x.sending.delivered)
  {
  }

  /** Where the id comes first. */
  function Place(ids: seq<string>, id: string): nat {
    if ids == [] || ids[0] == id then 0 else 1 + Place(ids[1..], id)
  }

  lemma {:induction false} PlaceIs(ids: seq<string>, id: string)
    requires id in ids
    ensures var k := Place(ids, id);
            k < |ids| && ids[k] == id && Dropped(ids, k) == Replies.Without(ids, id)
  {
    if ids[0] != id {
      var i := Place(ids[1..], id);
      PlaceIs(ids[1..], id);
      assert Dropped(ids, i + 1) == [ids[0]] + Dropped(ids[1..], i);
    }
  }

  /**
   The server's side of the bargain: of the replies it owes, a fair server sends one this
   client's rule allows, and what it owes then is what the client expects.
   */
  lemma {:induction false} FairServer(owed: seq<string>, reply: Json.Json)
    requires Replies.Fair(owed, reply) && Bridge.ResponseId(reply).Some?
    ensures var position := Place(owed, Bridge.ResponseId(reply).value);
            && position < |owed| && owed[position] == Bridge.ResponseId(reply).value
            && Overtaking(owed, position, Replies.IsSuccess(reply)) == position
            && Dropped(owed, position) == Replies.Struck(owed, reply)
  {
    PlaceIs(owed, Bridge.ResponseId(reply).value);
  }

  /** Any number of further exchanges on a connection that owes an abandoned reply. */
  function Exchanges(d: Descriptor, open: bool, owed: seq<string>, tries: seq<(string, Exchange)>): (seq<string>, seq<CallResult>)
    decreases |tries|
  {
    if tries == [] then (owed, [])
    else
      var (owed', result) := Probed(d, open, owed, tries[0].0, tries[0].1);
      var (last, results) := Exchanges(d, open, owed', tries[1..]);
      (last, [result] + results)
  }

  /** After a reply was abandoned no later exchange on that connection succeeds, whatever the peer sends. */
  lemma {:induction false} AbandonedForGood(d: Descriptor, open: bool, owed: seq<string>, tries: seq<(string, Exchange)>)
    requires owed != []
    requires forall i :: 0 <= i < |tries| ==> tries[i].0 !in owed
    requires forall i, j :: 0 <= i < j < |tries| ==> tries[i].0 != tries[j].0
    ensures |Exchanges(d, open, owed, tries).1| == |tries|
    ensures forall i :: 0 <= i < |tries| ==> !Exchanges(d, open, owed, tries).1[i].Answer?
    decreases |tries|
  {
    if tries != [] {
      LockStep(d, open, owed, tries[0].0, tries[0].1);
      var owed' := Probed(d, open, owed, tries[0].0, tries[0].1).0;
      forall i | 0 <= i < |tries[1..]| ensures tries[1..][i].0 !in owed' {
        assert tries[1..][i] == tries[i + 1];
      }
      AbandonedForGood(d, open, owed', tries[1..]);
      var rest := Exchanges(d, open, owed', tries[1..]).1;
      assert Exchanges(d, open, owed, tries).1 == [Probed(d, open, owed, tries[0].0, tries[0].1).1] + rest;
    }
  }

  // ---------- the object ----------

  /** Where clients come into being: it records every one that is made, whoever makes it. */
  class Network {
    ghost var clients: set<Client>

    constructor ()
      ensures clients == {}
    {
      clients := {};
    }
  }

  class Client {
    const descriptor: Descriptor
    var open: bool
    var owed: seq<string>

    /** Dial after a successful handshake. */
    constructor (d: Descriptor, network: Network)
      modifies network
      ensures descriptor == d && open && owed == []
      ensures network.clients == old(network.clients) + {this}
    {
      descriptor, open, owed := d, true, [];
      new;
      network.clients := network.clients + {this};
    }

    method Close()
      modifies this`open
      ensures !open
    {
      if !open { return; }
      open := false;
    }

    method Request(id: string, x: Exchange) returns (result: CallResult)
      modifies this`owed
      ensures (owed, result) == Exchanged(open, old(owed), id, x)
    {
      if !open || x.cancelled || x.deadlineFails { return Fault; }
      match x.sending {
        case NotSent(delivered) =>
          if delivered { owed := owed + [id]; }
          return Fault;
        case Sent => owed := owed + [id];
      }
      if x.reading.Unread? { return Fault; }
      var k := Overtaking(owed, x.reading.position, x.reading.Decoded? && x.reading.response.ok);
      var answered := owed[k];
      owed := owed[..k] + owed[k + 1..];
      if x.reading.Undecodable? { return Fault; }
      return Interpret(x.reading.response, answered == id);
    }

    method SessionInfo(id: string, x: Exchange) returns (result: CallResult)
      modifies this`owed
      ensures (owed, result) == Probed(descriptor, open, old(owed), id, x)
    {
      result := Request(id, x);
      if result.Answer? && result.info.sessionId != descriptor.sessionId { return Fault; }
    }
  }

  /** Dial: None when connecting or the handshake fails; the socket is closed then. */
  method Dial(d: Descriptor, script: Dialing, network: Network) returns (client: Client?)
    modifies network
    ensures client != null <==> Dialed(d, script)
    ensures client != null ==> fresh(client) && client.descriptor == d && client.open && client.owed == []
    ensures network.clients == old(network.clients) + if client != null then {client} else {}
  {
    if !ValidDescriptor(d) || !script.connected { return null; }
    if script.hello.None? || !HelloAccepted(d, script.hello.value) { return null; }
    if script.authentication.None? { return null; }
    var a := script.authentication.value;
    if a.kind != "authenticate" || a.version != VERSION || !a.ok { return null; }
    client := new Client(d, network);
  }
}
