/**
 The blocking ends of the protocol: writeAll/writeFrame/readFrame of the Go client and the
 offset loop of the Ruby writer. The environment decides how many bytes each call moves
 and when it fails; the frames that come out do not depend on it.
 */
module StreamIO {
  import opened Basics
  import opened Framing

  /** How far one read or write gets: at least one byte, at most what was asked for. */
  function Moved(choice: nat, limit: nat): (n: nat)
    requires limit > 0
    ensures 1 <= n <= limit
  {
    if choice == 0 then 1 else if choice < limit then choice else limit
  }

  datatype Transfer = Moves(count: nat) | Nothing | Fault

  datatype IoResult = Done | ShortWrite | Failed

  /** How many bytes a script of writes can take: each of its transfers before the first other move, at least one byte each. */
  function Capacity(script: seq<Transfer>): nat {
    if script == [] || !script[0].Moves? then 0
    else (if script[0].count == 0 then 1 else script[0].count) + Capacity(script[1..])
  }

  /** How a write ends that the script has no capacity for. */
  function Shortfall(script: seq<Transfer>): (r: IoResult)
    ensures !r.Done?
  {
    if script == [] || script[0].Fault? then Failed
    else if script[0].Nothing? then ShortWrite
    else Shortfall(script[1..])
  }

  /** How much of n bytes is written, and how the write ends. */
  function Sent(script: seq<Transfer>, n: nat): (k: nat)
    ensures k <= n
  {
    if Capacity(script) < n then Capacity(script) else n
  }

  function Ending(script: seq<Transfer>, n: nat): IoResult {
    if Capacity(script) < n then Shortfall(script) else Done
  }

  /** One transfer, and the rest of the script for the rest of the bytes. */
  lemma {:induction false} TransferOne(script: seq<Transfer>, i: nat, n: nat)
    requires 0 < n && i < |script| && script[i].Moves?
    ensures var m := Moved(script[i].count, n);
            && Sent(script[i..], n) == m + Sent(script[i + 1..], n - m)
            && Ending(script[i..], n) == Ending(script[i + 1..], n - m)
  {
    assert script[i..][1..] == script[i + 1..];
  }

  /** What one read does: some bytes, or an error such as an expired deadline. */
  datatype Take = Takes(count: nat) | Interrupted

  datatype ReadEnd = Full | Ended | Broken

  ghost predicate Uninterrupted(script: seq<Take>) {
    forall i :: 0 <= i < |script| ==> script[i].Takes?
  }

  /** `Undecodable` is a whole frame whose payload is not the JSON message asked for. */
  datatype ReadResult = Message(payload: Bytes) | Undecodable | EndOfStream | BadLength | ReadFailed

  /** The same for a frame, written as header and payload. */
  function FrameSent(payload: Bytes, header: seq<Transfer>, body: seq<Transfer>): (k: nat)
    ensures k <= |payload| + 4
    ensures k == |payload| + 4 <==> Capacity(header) >= 4 && Capacity(body) >= |payload|
  {
    Sent(header, 4) + if Capacity(header) < 4 then 0 else Sent(body, |payload|)
  }

  function FrameEnding(payload: Bytes, header: seq<Transfer>, body: seq<Transfer>): (r: IoResult)
    ensures r.Done? <==> FrameSent(payload, header, body) == |payload| + 4
  {
    if Capacity(header) < 4 then Shortfall(header) else Ending(body, |payload|)
  }

  /** One direction of a connection: bytes written and not yet read. */
  class Pipe {
    var data: Bytes

    constructor ()
      ensures data == []
    {
      data := [];
    }

    /** writeAll: the slice shrinks by what each write accepted. */
    method WriteAll(payload: Bytes, script: seq<Transfer>) returns (r: IoResult)
      modifies this
      ensures data == old(data) + payload[..Sent(script, |payload|)]
      ensures r == Ending(script, |payload|)
    {
      var left := payload;
      var i := 0;
      ghost var sent := 0;
      while |left| > 0
        invariant i <= |script| && sent <= |payload|
        invariant left == payload[sent..] && data == old(data) + payload[..sent]
        invariant sent + Sent(script[i..], |left|) == Sent(script, |payload|)
        invariant Ending(script[i..], |left|) == Ending(script, |payload|)
        decreases |left|
      {
        if i == |script| || script[i].Fault? { return Failed; }
        if script[i].Nothing? { return ShortWrite; }
        var n := Moved(script[i].count, |left|);
        TransferOne(script, i, |left|);
        assert payload[..sent + n] == payload[..sent] + left[..n];
        data := data + left[..n];
        left := left[n..];
        i, sent := i + 1, sent + n;
      }
      return Done;
    }

    /** write_nonblocking: the same transfer with a moving offset into an unchanged frame. */
    method WriteFromOffset(frame: Bytes, script: seq<Transfer>) returns (r: IoResult)
      modifies this
      ensures data == old(data) + frame[..Sent(script, |frame|)]
      ensures r == Ending(script, |frame|)
    {
      var offset := 0;
      var i := 0;
      while offset < |frame|
        invariant 0 <= offset <= |frame| && i <= |script|
        invariant data == old(data) + frame[..offset]
        invariant offset + Sent(script[i..], |frame| - offset) == Sent(script, |frame|)
        invariant Ending(script[i..], |frame| - offset) == Ending(script, |frame|)
      {
        if i == |script| || script[i].Fault? { return Failed; }
        if script[i].Nothing? { return ShortWrite; }
        var n := Moved(script[i].count, |frame| - offset);
        TransferOne(script, i, |frame| - offset);
        assert frame[..offset + n] == frame[..offset] + frame[offset..offset + n];
        data := data + frame[offset..offset + n];
        offset := offset + n;
        i := i + 1;
      }
      return Done;
    }

    /**
     writeFrame: header first, payload second; nothing at all for a payload that does not fit.
     The payload is started only when the whole header is out.
     */
    method WriteFrame(payload: Bytes, header: seq<Transfer>, body: seq<Transfer>) returns (r: IoResult)
      modifies this
      ensures !Fits(payload) ==> r == Failed && data == old(data)
      ensures Fits(payload) ==> r == FrameEnding(payload, header, body)
      ensures Fits(payload) ==> data == old(data) + Frame(payload)[..FrameSent(payload, header, body)]
    {
      if |payload| == 0 || |payload| > MAX_MESSAGE_BYTES { return Failed; }
      ghost var start := data;
      var head := Be32(|payload|);
      assert Frame(payload) == head + payload;
      r := WriteAll(head, header);
      if !r.Done? { return; }
      assert head[..4] == head;
      r := WriteAll(payload, body);
    }

    /** io.ReadFull: keeps reading until `length` bytes are there, the stream ends, or a read fails. */
    method ReadFull(length: nat, script: seq<Take>) returns (buffer: Bytes, end: ReadEnd)
      modifies this
      ensures old(data) == buffer + data
      ensures end.Full? ==> |buffer| == length
      ensures end.Ended? ==> data == [] && |buffer| < length
      ensures end.Broken? ==> |buffer| < length && !Uninterrupted(script)
    {
      buffer := [];
      var i := 0;
      while |buffer| < length
        invariant |buffer| <= length && |buffer| <= |old(data)|
        invariant buffer == old(data)[..|buffer|] && data == old(data)[|buffer|..]
        decreases length - |buffer|
      {
        if i < |script| && script[i].Interrupted? { return buffer, Broken; }
        if data == [] { return buffer, Ended; }
        var limit := if length - |buffer| < |data| then length - |buffer| else |data|;
        var n := Moved(if i < |script| then script[i].count else 0, limit);
        ghost var k := |buffer|;
        assert old(data)[..k + n] == old(data)[..k] + data[..n];
        buffer := buffer + data[..n];
        data := data[n..];
        i := i + 1;
      }
      return buffer, Full;
    }

    /**
     readFrame agrees with the one-shot parse of the whole stream, for every way of reading it,
     unless a read fails; a frame that does not decode is consumed like any other.
     */
    method ReadFrame(decodes: Bytes -> bool, header: seq<Take>, body: seq<Take>) returns (r: ReadResult)
      modifies this
      ensures r.ReadFailed? ==> !(Uninterrupted(header) && Uninterrupted(body))
      ensures exists taken :: old(data) == taken + data
      ensures !r.ReadFailed? ==>
                match Peel(old(data))
                case Complete(payload, rest) => r == (if decodes(payload) then Message(payload) else Undecodable) && data == rest
                case Malformed => r == BadLength
                case Incomplete => r == EndOfStream
    {
      ghost var all := data;
      var head, headEnd := ReadFull(4, header);
      assert all == head + data;
      if headEnd.Broken? { return ReadFailed; }
      if headEnd.Ended? { return EndOfStream; }
      assert all[..4] == head && all[4..] == data;
      var length := FromBe32(head);
      if length == 0 || length > MAX_MESSAGE_BYTES { return BadLength; }
      var payload, bodyEnd := ReadFull(length, body);
      assert all == (head + payload) + data;
      if bodyEnd.Broken? { return ReadFailed; }
      if bodyEnd.Ended? { return EndOfStream; }
      assert all[4..] == payload + data;
      assert all[4..4 + length] == payload && all[4 + length..] == data;
      return if decodes(payload) then Message(payload) else Undecodable;
    }
  }

  /** A frame written by one end is the message read by the other, whatever the partial transfers. */
  method Exchange(payload: Bytes, decodes: Bytes -> bool, h: seq<Transfer>, b: seq<Transfer>, rh: seq<Take>, rb: seq<Take>)
    returns (sent: IoResult, received: ReadResult)
    ensures sent.Done? <==> Fits(payload) && Capacity(h) >= 4 && Capacity(b) >= |payload|
    ensures received.ReadFailed? ==> !(Uninterrupted(rh) && Uninterrupted(rb))
    ensures !received.ReadFailed? ==>
              received == if !sent.Done? then EndOfStream else if decodes(payload) then Message(payload) else Undecodable
  {
    var pipe := new Pipe();
    sent := pipe.WriteFrame(payload, h, b);
    if Fits(payload) {
      assert [] + Frame(payload) == Frame(payload);
      PartialFrame(payload, pipe.data);
      PeelFrame(payload, []);
      assert Frame(payload) + [] == Frame(payload);
    }
    received := pipe.ReadFrame(decodes, rh, rb);
  }

  /** A frame cut short is never mistaken for a message. */
  lemma {:induction false} PartialFrame(payload: Bytes, arrived: Bytes)
    requires Fits(payload) && arrived <= Frame(payload)
    ensures arrived != Frame(payload) ==> Peel(arrived) == Incomplete
  {
    Be32RoundTrip(|payload|);
    if 4 <= |arrived| {
      assert arrived[..4] == Be32(|payload|);
      assert FromBe32(arrived) == FromBe32(Be32(|payload|));
      assert |arrived| == |payload| + 4 ==> arrived == Frame(payload);
    }
  }
}
