/** The wire format of message.py: one header byte, the payload's length in four bytes, the payload. */
module Framing {
  newtype byte = x: int | 0 <= x < 256

  /** A message as the wire carries it.  The payload is the encoded data; no data means no payload. */
  datatype Frame = Frame(header: int, payload: seq<byte>)

  datatype Received = Got(frame: Frame) | Closed | Malformed

  const LENGTH_LIMIT := 0x1_0000_0000

  /** `struct.pack(">I", n)`. */
  function Pack(n: int): seq<byte>
    requires 0 <= n < LENGTH_LIMIT
  {
    [(n / 0x100_0000) as byte, (n / 0x1_0000 % 0x100) as byte, (n / 0x100 % 0x100) as byte, (n % 0x100) as byte]
  }

  function Unpack(b: seq<byte>): (n: int)
    requires |b| == 4
    ensures 0 <= n < LENGTH_LIMIT
  {
    ((b[0] as int * 0x100 + b[1] as int) * 0x100 + b[2] as int) * 0x100 + b[3] as int
  }

  /** What `send` accepts: a header of one byte and a length that fits. */
  predicate Sendable(f: Frame) {
    0 <= f.header < 256 && |f.payload| < LENGTH_LIMIT
  }

  /** What arrives: the receiver takes header 0 for an error. */
  predicate Deliverable(f: Frame) {
    Sendable(f) && f.header != 0
  }

  function Encode(f: Frame): seq<byte>
    requires Sendable(f)
  {
    [f.header as byte] + Pack(|f.payload|) + f.payload
  }

  /** One `recv` on the bytes that have arrived: what it yields and the bytes it leaves. */
  function Decode(s: seq<byte>): (Received, seq<byte>) {
    if s == [] then (Closed, [])
    else if |s| < 5 then (Malformed, [])
    else
      var n := Unpack(s[1..5]);
      if s[0] == 0 then (Malformed, s[5..])
      else if |s| < 5 + n then (Malformed, [])
      else (Got(Frame(s[0] as int, s[5..5 + n])), s[5 + n..])
  }

  /** How many bytes the two reads of one `recv` find ready.  A blocking read finds one at least, unless the stream has
      ended. */
  datatype Ready = Ready(head: nat, body: nat)

  const ALL := Ready(5, LENGTH_LIMIT)

  function Least(a: nat, b: nat): nat {
    if a < b then a else b
  }

  /** One `recv` whose reads may fall short. */
  function DecodeReady(s: seq<byte>, a: Ready): (Received, seq<byte>)
    requires a.head > 0 && a.body > 0
  {
    var k := Least(Least(5, a.head), |s|);
    if k == 0 then (Closed, [])
    else if k < 5 then (Malformed, s[k..])
    else
      var n := Unpack(s[1..5]);
      var m := Least(Least(n, a.body), |s| - 5);
      if s[0] == 0 then (Malformed, s[5..])
      else if m < n then (Malformed, s[5 + m..])
      else (Got(Frame(s[0] as int, s[5..5 + n])), s[5 + n..])
  }

  // ---- the two ends ----------------------------------------------------------------------

  /** One direction of a connection. */
  class Stream {
    var buffer: seq<byte>

    method SendAll(b: seq<byte>)
      modifies this
      ensures buffer == old(buffer) + b
    {
      buffer := buffer + b;
    }

    /** Up to `n` bytes of those that are ready. */
    method Recv(n: nat, ready: nat) returns (b: seq<byte>)
      modifies this
      ensures b + buffer == old(buffer) && |b| == Least(Least(n, ready), |old(buffer)|)
    {
      var k := Least(Least(n, ready), |buffer|);
      b := buffer[..k];
      buffer := buffer[k..];
    }
  }

  class Message {
    var header: int
    var payload: seq<byte>

    constructor (header: int, payload: seq<byte>)
      ensures this.header == header && this.payload == payload
    {
      this.header, this.payload := header, payload;
    }

    /** `send`: nothing is written when header or length do not fit. */
    method Send(stream: Stream) returns (ok: bool)
      modifies stream
      ensures ok <==> Sendable(Frame(header, payload))
      ensures stream.buffer == old(stream.buffer) + if ok then Encode(Frame(header, payload)) else []
    {
      if !(0 <= header < 256) || |payload| >= LENGTH_LIMIT {
        return false;
      }
      if payload == [] {
        stream.SendAll([header as byte] + Pack(0));
      } else {
        stream.SendAll([header as byte] + Pack(|payload|));
        stream.SendAll(payload);
      }
      assert old(stream.buffer) + ([header as byte] + Pack(|payload|)) + payload
        == old(stream.buffer) + ([header as byte] + Pack(|payload|) + payload);
      return true;
    }

    /** `recv`. */
    method Recv(stream: Stream, a: Ready) returns (r: Received)
      requires a.head > 0 && a.body > 0
      modifies this, stream
      ensures (r, stream.buffer) == DecodeReady(old(stream.buffer), a)
      ensures r.Got? ==> r.frame == Frame(header, payload)
    {
      ghost var s := stream.buffer;
      var b := stream.Recv(5, a.head);
      assert b == s[..|b|] && stream.buffer == s[|b|..];
      if |b| == 0 {
        return Closed;
      }
      if |b| != 5 {
        return Malformed;
      }
      assert b[1..] == s[1..5];
      header := b[0] as int;
      var n := Unpack(b[1..]);
      if header <= 0 {
        return Malformed;
      }
      payload := [];
      assert s[5..5] == [];
      if n > 0 {
        var p := stream.Recv(n, a.body);
        assert p == s[5..][..|p|] == s[5..5 + |p|] && stream.buffer == s[5..][|p|..] == s[5 + |p|..];
        if |p| != n {
          return Malformed;
        }
        payload := p;
      }
      return Got(Frame(header, payload));
    }
  }

  /** Receives until the stream closes or a message is malformed. */
  method ReceiveAll(stream: Stream) returns (fs: seq<Frame>, last: Received)
    modifies stream
    ensures (fs, last) == DecodeAll(old(stream.buffer))
    ensures last.Closed? ==> stream.buffer == []
  {
    var m := new Message(0, []);
    fs := [];
    assert [] + DecodeAll(stream.buffer).0 == DecodeAll(stream.buffer).0;
    while true
      invariant fs + DecodeAll(stream.buffer).0 == DecodeAll(old(stream.buffer)).0
      invariant DecodeAll(stream.buffer).1 == DecodeAll(old(stream.buffer)).1
      decreases |stream.buffer|
    {
      ghost var s := stream.buffer;
      last := m.Recv(stream, ALL);
      WholeReads(s);
      if !last.Got? {
        assert DecodeAll(s) == ([], last);
        assert fs + [] == fs;
        return;
      }
      ghost var tail := DecodeAll(stream.buffer).0;
      assert fs + ([last.frame] + tail) == fs + [last.frame] + tail;
      fs := fs + [last.frame];
    }
  }

  // ---- laws ------------------------------------------------------------------------------

  predicate AllSendable(fs: seq<Frame>) {
    forall k :: 0 <= k < |fs| ==> Sendable(fs[k])
  }

  predicate AllDeliverable(fs: seq<Frame>) {
    forall k :: 0 <= k < |fs| ==> Deliverable(fs[k])
  }

  function EncodeAll(fs: seq<Frame>): seq<byte>
    requires AllSendable(fs)
  {
    if fs == [] then [] else Encode(fs[0]) + EncodeAll(fs[1..])
  }

  /** All the messages of a stream, and how it ended. */
  function DecodeAll(s: seq<byte>): (seq<Frame>, Received)
    decreases |s|
  {
    var (r, rest) := Decode(s);
    if r.Got? then
      var (fs, last) := DecodeAll(rest);
      ([r.frame] + fs, last)
    else ([], r)
  }

  lemma UnpackPack(n: int)
    requires 0 <= n < LENGTH_LIMIT
    ensures Unpack(Pack(n)) == n
  {
    assert n / 0x1_0000 == n / 0x100_0000 * 0x100 + n / 0x1_0000 % 0x100;
    assert n / 0x100 == n / 0x1_0000 * 0x100 + n / 0x100 % 0x100;
  }

  /** The wire format: the header, the length with its highest byte first, the payload. */
  lemma WireFormat(f: Frame)
    requires Sendable(f)
    ensures var s := Encode(f);
      && |s| == 5 + |f.payload| && s[0] as int == f.header && s[5..] == f.payload
      && s[1] as int * 0x100_0000 + s[2] as int * 0x1_0000 + s[3] as int * 0x100 + s[4] as int == |f.payload|
  {
    UnpackPack(|f.payload|);
    var s := Encode(f);
    assert s[1] == Pack(|f.payload|)[0] && s[2] == Pack(|f.payload|)[1] && s[3] == Pack(|f.payload|)[2]
      && s[4] == Pack(|f.payload|)[3];
  }

  /** A message followed by anything is received as sent, exactly when its header is not 0; what follows stays. */
  lemma ReceivedAsSent(f: Frame, rest: seq<byte>)
    requires Sendable(f)
    ensures Decode(Encode(f) + rest) == (Got(f), rest) <==> Deliverable(f)
    ensures !Deliverable(f) ==> Decode(Encode(f) + rest).0 == Malformed
  {
    var s := Encode(f) + rest;
    UnpackPack(|f.payload|);
    assert s[..5] == [f.header as byte] + Pack(|f.payload|);
    assert s[1..5] == s[..5][1..] == Pack(|f.payload|);
    assert s[5..5 + |f.payload|] == f.payload && s[5 + |f.payload|..] == rest;
  }

  /** Reads that find all their bytes ready are whole. */
  lemma WholeReads(s: seq<byte>)
    ensures DecodeReady(s, ALL).0 == Decode(s).0
    ensures Decode(s).0.Got? || s == [] ==> DecodeReady(s, ALL).1 == Decode(s).1
  {
  }

  /** A message that has been sent is received as sent if and only if its header is not 0 and neither read falls
      short; otherwise it is refused, never taken for another. */
  lemma ReceivedWhenReady(f: Frame, rest: seq<byte>, a: Ready)
    requires Sendable(f) && a.head > 0 && a.body > 0
    ensures var r := DecodeReady(Encode(f) + rest, a);
            if Deliverable(f) && a.head >= 5 && a.body >= |f.payload| then r == (Got(f), rest) else r.0 == Malformed
  {
    var s := Encode(f) + rest;
    UnpackPack(|f.payload|);
    assert s[..5] == [f.header as byte] + Pack(|f.payload|);
    assert s[1..5] == s[..5][1..] == Pack(|f.payload|);
    assert s[5..5 + |f.payload|] == f.payload && s[5 + |f.payload|..] == rest;
  }

  /** A message cut short is never taken for a message. */
  lemma CutMessageIsRefused(f: Frame, k: nat)
    requires Sendable(f) && k < |Encode(f)|
    ensures Decode(Encode(f)[..k]).0 == if k == 0 then Closed else Malformed
  {
    var s := Encode(f)[..k];
    if 5 <= k {
      UnpackPack(|f.payload|);
      assert Encode(f)[..5] == [f.header as byte] + Pack(|f.payload|);
      assert s[1..5] == Encode(f)[..5][1..] == Pack(|f.payload|);
    }
  }

  /** How many whole messages the first `k` bytes of `fs` hold. */
  function WholeIn(fs: seq<Frame>, k: nat): (n: nat)
    requires AllSendable(fs)
    ensures n <= |fs|
  {
    if fs == [] || k < |Encode(fs[0])| then 0 else 1 + WholeIn(fs[1..], k - |Encode(fs[0])|)
  }

  lemma EncodeFirst(fs: seq<Frame>, n: nat)
    requires AllSendable(fs) && n < |fs|
    ensures EncodeAll(fs[..n + 1]) == Encode(fs[0]) + EncodeAll(fs[1..][..n])
  {
    assert fs[..n + 1][1..] == fs[1..][..n];
  }

  lemma CutLater(a: seq<byte>, b: seq<byte>, k: nat)
    requires |a| <= k <= |a + b|
    ensures (a + b)[..k] == a + b[..k - |a|]
  {
  }

  lemma CutFirst(a: seq<byte>, b: seq<byte>, k: nat)
    requires k <= |a|
    ensures (a + b)[..k] == a[..k]
  {
  }

  /** However a stream of messages is cut, the receiver gets the whole messages before the cut, in order and
      nothing else, and sees a clean end exactly when the cut falls between two messages. */
  lemma {:induction false} CutStream(fs: seq<Frame>, k: nat)
    requires AllSendable(fs) && AllDeliverable(fs) && k <= |EncodeAll(fs)|
    ensures DecodeAll(EncodeAll(fs)[..k]).0 == fs[..WholeIn(fs, k)]
    ensures DecodeAll(EncodeAll(fs)[..k]).1 == Closed <==> k == |EncodeAll(fs[..WholeIn(fs, k)])|
  {
    hide Encode;
    if fs == [] {
    } else if k < |Encode(fs[0])| {
      CutMessageIsRefused(fs[0], k);
      CutFirst(Encode(fs[0]), EncodeAll(fs[1..]), k);
    } else {
      CutStream(fs[1..], k - |Encode(fs[0])|);
      CutInTheRest(fs, k);
    }
  }

  /** The cut falls behind the first message: this one is received, and the rest as if it were sent alone. */
  lemma CutInTheRest(fs: seq<Frame>, k: nat)
    requires AllSendable(fs) && fs != [] && Deliverable(fs[0]) && |Encode(fs[0])| <= k <= |EncodeAll(fs)|
    ensures var later := k - |Encode(fs[0])|;
      var was, n := DecodeAll(EncodeAll(fs[1..])[..later]), WholeIn(fs[1..], later);
      && DecodeAll(EncodeAll(fs)[..k]) == ([fs[0]] + was.0, was.1)
      && fs[..WholeIn(fs, k)] == [fs[0]] + fs[1..][..n]
      && EncodeAll(fs[..WholeIn(fs, k)]) == Encode(fs[0]) + EncodeAll(fs[1..][..n])
  {
    hide Encode;
    var first, more := Encode(fs[0]), EncodeAll(fs[1..]);
    var n := WholeIn(fs[1..], k - |first|);
    CutLater(first, more, k);
    ReceivedAsSent(fs[0], more[..k - |first|]);
    EncodeFirst(fs, n);
    assert fs[..n + 1] == [fs[0]] + fs[1..][..n];
  }

  /** A stream of messages is received as it was sent, exactly when no header is 0. */
  lemma {:induction false} StreamRoundTrip(fs: seq<Frame>)
    requires AllSendable(fs)
    ensures DecodeAll(EncodeAll(fs)) == (fs, Closed) <==> AllDeliverable(fs)
  {
    if fs != [] {
      ReceivedAsSent(fs[0], EncodeAll(fs[1..]));
      StreamRoundTrip(fs[1..]);
      assert [fs[0]] + fs[1..] == fs;
    }
  }
}
