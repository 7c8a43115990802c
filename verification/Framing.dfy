/**
 Length-prefixed frames: a 4-byte big-endian length, then that many payload bytes. The
 stream is self-delimiting, so how it is cut into chunks cannot matter.
 */
module Framing {
  import opened Basics

  const MAX_MESSAGE_BYTES := 1_048_576

  predicate Fits(payload: Bytes) {
    0 < |payload| <= MAX_MESSAGE_BYTES
  }

  /** Array#pack('N') */
  function Be32(n: nat): (b: Bytes)
    requires n < 0x1_0000_0000
    ensures |b| == 4
  {
    [(n / 0x100_0000) as byte, (n / 0x1_0000 % 0x100) as byte, (n / 0x100 % 0x100) as byte, (n % 0x100) as byte]
  }

  /** String#unpack1('N') */
  function FromBe32(b: Bytes): nat
    requires |b| >= 4
  {
    b[0] as nat * 0x100_0000 + b[1] as nat * 0x1_0000 + b[2] as nat * 0x100 + b[3] as nat
  }

  function Frame(payload: Bytes): (f: Bytes)
    requires Fits(payload)
    ensures |f| == |payload| + 4
  {
    Be32(|payload|) + payload
  }

  /** What the front of a byte stream holds. */
  datatype Front = Incomplete | Malformed | Complete(payload: Bytes, rest: Bytes)

  /** One frame of read_frame, readFrame and drain_frames: the same tests in the same order. */
  function Peel(buffer: Bytes): Front {
    if |buffer| < 4 then Incomplete
    else
      var length := FromBe32(buffer);
      if length == 0 || length > MAX_MESSAGE_BYTES then Malformed
      else if |buffer| < 4 + length then Incomplete
      else Complete(buffer[4..4 + length], buffer[4 + length..])
  }

  predicate AllFit(payloads: seq<Bytes>) {
    forall i :: 0 <= i < |payloads| ==> Fits(payloads[i])
  }

  /** The bytes of a list of frames sent one after the other. */
  function Stream(payloads: seq<Bytes>): Bytes
    requires AllFit(payloads)
  {
    if payloads == [] then [] else Frame(payloads[0]) + Stream(payloads[1..])
  }

  // ---------- one frame ----------

  lemma {:induction false} Be32RoundTrip(n: nat)
    requires n < 0x1_0000_0000
    ensures FromBe32(Be32(n)) == n
  {
    var a, b, c, d := n / 0x100_0000, n / 0x1_0000 % 0x100, n / 0x100 % 0x100, n % 0x100;
    assert n / 0x100 == n / 0x1_0000 * 0x100 + c;
    assert n / 0x1_0000 == a * 0x100 + b;
  }

  lemma {:induction false} Be32Unique(b: Bytes)
    requires |b| >= 4
    ensures FromBe32(b) < 0x1_0000_0000
    ensures Be32(FromBe32(b)) == b[..4]
  {
    var n := FromBe32(b);
    assert n % 0x100 == b[3] as nat;
    assert n / 0x100 == b[0] as nat * 0x1_0000 + b[1] as nat * 0x100 + b[2] as nat;
    assert n / 0x100 % 0x100 == b[2] as nat;
    assert n / 0x1_0000 == b[0] as nat * 0x100 + b[1] as nat;
    assert n / 0x1_0000 % 0x100 == b[1] as nat;
    assert n / 0x100_0000 == b[0] as nat;
  }

  /** The length goes before the payload, its most significant byte first. */
  lemma {:induction false} FrameBytes(payload: Bytes)
    requires Fits(payload)
    ensures |payload| == Frame(payload)[0] as nat * 16_777_216 + Frame(payload)[1] as nat * 65_536
                         + Frame(payload)[2] as nat * 256 + Frame(payload)[3] as nat
    ensures Frame(payload)[4..] == payload
  {
    Be32RoundTrip(|payload|);
  }

  /** Writing then reading gives the payload back and leaves the rest of the stream alone. */
  lemma {:induction false} PeelFrame(payload: Bytes, rest: Bytes)
    requires Fits(payload)
    ensures Peel(Frame(payload) + rest) == Complete(payload, rest)
  {
    Be32RoundTrip(|payload|);
    var all := Frame(payload) + rest;
    assert all[0] == Be32(|payload|)[0] && all[1] == Be32(|payload|)[1];
    assert all[2] == Be32(|payload|)[2] && all[3] == Be32(|payload|)[3];
    assert all[4..4 + |payload|] == payload;
    assert all[4 + |payload|..] == rest;
  }

  /** Only frames peel: a complete front is the frame of its payload. */
  lemma {:induction false} PeelInverse(buffer: Bytes)
    requires Peel(buffer).Complete?
    ensures Fits(Peel(buffer).payload)
    ensures buffer == Frame(Peel(buffer).payload) + Peel(buffer).rest
    ensures |Peel(buffer).rest| < |buffer|
  {
    Be32Unique(buffer);
    var length := FromBe32(buffer);
    assert buffer == buffer[..4] + buffer[4..4 + length] + buffer[4 + length..];
  }

  /** More bytes never change what is already decided. */
  lemma {:induction false} PeelExtends(buffer: Bytes, more: Bytes)
    requires !Peel(buffer).Incomplete?
    ensures Peel(buffer).Malformed? ==> Peel(buffer + more).Malformed?
    ensures Peel(buffer).Complete? ==>
              Peel(buffer + more) == Complete(Peel(buffer).payload, Peel(buffer).rest + more)
  {
    if Peel(buffer).Complete? {
      PeelInverse(buffer);
      var p, r := Peel(buffer).payload, Peel(buffer).rest;
      assert buffer + more == Frame(p) + (r + more);
      PeelFrame(p, r + more);
    }
  }

  // ---------- whole streams ----------

  lemma {:induction false} StreamAppend(a: seq<Bytes>, b: seq<Bytes>)
    requires AllFit(a) && AllFit(b)
    ensures AllFit(a + b) && Stream(a + b) == Stream(a) + Stream(b)
  {
    if a == [] {
      assert a + b == b;
      assert Stream(a) + Stream(b) == Stream(b);
    } else {
      assert (a + b)[1..] == a[1..] + b;
      StreamAppend(a[1..], b);
      var head, mid, last := Frame(a[0]), Stream(a[1..]), Stream(b);
      assert Stream(a + b) == head + (mid + last);
      assert head + (mid + last) == (head + mid) + last;
    }
  }

  lemma {:induction false} StreamSnoc(a: seq<Bytes>, p: Bytes)
    requires AllFit(a) && Fits(p)
    ensures AllFit(a + [p]) && Stream(a + [p]) == Stream(a) + Frame(p)
  {
    StreamAppend(a, [p]);
    assert Stream([p]) == Frame(p) + Stream([p][1..]);
  }

  /** A sender's stream never looks malformed, however little of it has arrived. */
  lemma {:induction false} PrefixNotMalformed(arrived: Bytes, more: Bytes, sent: seq<Bytes>)
    requires AllFit(sent) && arrived + more == Stream(sent)
    ensures !Peel(arrived).Malformed?
  {
    if Peel(arrived).Malformed? {
      PeelExtends(arrived, more);
      if sent != [] { PeelFrame(sent[0], Stream(sent[1..])); }
    }
  }

  /**
   Chunking refinement. If a receiver has split what arrived of a sender's stream into
   `taken` frames and a remaining buffer, then the frames are a prefix of the sender's
   messages, in order, and the buffer is a prefix of what follows them.
   */
  lemma {:induction false} TakenIsPrefix(taken: seq<Bytes>, buffer: Bytes, more: Bytes, sent: seq<Bytes>)
    requires AllFit(taken) && AllFit(sent)
    requires Stream(taken) + buffer + more == Stream(sent)
    ensures taken <= sent
    ensures buffer + more == Stream(sent[|taken|..])
  {
    if taken == [] {
      assert Stream(taken) + buffer + more == buffer + more;
      assert sent[|taken|..] == sent;
    } else {
      var tail := Stream(taken[1..]) + buffer + more;
      assert Stream(taken) + buffer + more == Frame(taken[0]) + tail;
      PeelFrame(taken[0], tail);
      assert sent != [];
      PeelFrame(sent[0], Stream(sent[1..]));
      assert taken[0] == sent[0] && tail == Stream(sent[1..]);
      TakenIsPrefix(taken[1..], buffer, more, sent[1..]);
      assert taken == [taken[0]] + taken[1..] && sent == [sent[0]] + sent[1..];
      assert sent[|taken|..] == sent[1..][|taken[1..]|..];
    }
  }

  /** Once everything has arrived and no complete frame is left, every message was taken. */
  lemma {:induction false} DrainedTakesAll(taken: seq<Bytes>, buffer: Bytes, sent: seq<Bytes>)
    requires AllFit(taken) && AllFit(sent)
    requires Stream(taken) + buffer == Stream(sent)
    requires !Peel(buffer).Complete?
    ensures taken == sent && buffer == []
  {
    assert Stream(taken) + buffer + [] == Stream(sent);
    TakenIsPrefix(taken, buffer, [], sent);
    assert buffer + [] == buffer;
    if |taken| < |sent| {
      var left := sent[|taken|..];
      PeelFrame(left[0], Stream(left[1..]));
    }
  }
}
