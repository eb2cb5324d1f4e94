/** Wire framing: each message is serialised and sent after its length as four big-endian
    bytes; a received buffer is split back into messages frame by frame. The serialiser is a
    parameter: `dumps` turns a message into bytes, `loads` turns bytes back into a message or
    fails. */
module Encoders {
  import opened Wrappers

  newtype byte = b: int | 0 <= b < 256

  /** `struct.pack("!I", n)` accepts lengths below 2^32 only. */
  const LENGTH_LIMIT: nat := 0x1_0000_0000

  /** `struct.pack("!I", n)`: four bytes, most significant first. */
  function PackLength(n: nat): (b: seq<byte>)
    requires n < LENGTH_LIMIT
    ensures |b| == 4
  {
    var q1 := n / 0x100;
    var q2 := q1 / 0x100;
    var q3 := q2 / 0x100;
    [q3 as byte, (q2 % 0x100) as byte, (q1 % 0x100) as byte, (n % 0x100) as byte]
  }

  /** `struct.unpack("!I", b)[0]`. */
  function UnpackLength(b: seq<byte>): (n: nat)
    requires |b| == 4
    ensures n < LENGTH_LIMIT
  {
    (b[0] as nat) * 0x100_0000 + (b[1] as nat) * 0x1_0000 + (b[2] as nat) * 0x100 + b[3] as nat
  }

  /** Unpacking a packed length gives the length back. */
  lemma UnpackPack(n: nat)
    requires n < LENGTH_LIMIT
    ensures UnpackLength(PackLength(n)) == n
  {
    var q1 := n / 0x100;
    var q2 := q1 / 0x100;
    var q3 := q2 / 0x100;
    assert n == q1 * 0x100 + n % 0x100;
    assert q1 == q2 * 0x100 + q1 % 0x100;
    assert q2 == q3 * 0x100 + q2 % 0x100;
  }

  /** `PickleEncoder.encode`: the payload's length, then the payload; a payload of 2^32 bytes
      or more makes `struct.pack` raise, shown here as None. */
  function Encode<T>(dumps: T -> seq<byte>, message: T): (r: Option<seq<byte>>)
    ensures r.Some? <==> |dumps(message)| < LENGTH_LIMIT
    ensures r.Some? ==> |r.value| == 4 + |dumps(message)| && r.value[4..] == dumps(message)
    ensures r.Some? ==> UnpackLength(r.value[..4]) == |dumps(message)|
  {
    var payload := dumps(message);
    if |payload| < LENGTH_LIMIT then
      UnpackPack(|payload|);
      assert (PackLength(|payload|) + payload)[..4] == PackLength(|payload|);
      Some(PackLength(|payload|) + payload)
    else None
  }

  /** `PickleEncoder.decode`: a buffer shorter than four bytes, or whose first payload does not
      deserialise, gives no messages; otherwise the first message, followed by whatever the
      rest of the buffer decodes to (a failure there drops that frame and all after it). */
  function Decode<T>(loads: seq<byte> -> Option<T>, data: seq<byte>): (r: seq<T>)
    ensures |data| < 4 ==> r == []
    decreases |data|
  {
    if |data| < 4 then []
    else
      var size := UnpackLength(data[..4]);
      var payload := data[4..if 4 + size <= |data| then 4 + size else |data|];
      match loads(payload)
      case None => []
      case Some(m) => if |data| <= 4 + size then [m] else [m] + Decode(loads, data[4 + size..])
  }

  /** The serialiser reads back what it writes. */
  ghost predicate RoundTrips<T>(dumps: T -> seq<byte>, loads: seq<byte> -> Option<T>, m: T) {
    loads(dumps(m)) == Some(m) && |dumps(m)| < LENGTH_LIMIT
  }

  /** Every message of `ms` round-trips. */
  ghost predicate AllRoundTrip<T>(dumps: T -> seq<byte>, loads: seq<byte> -> Option<T>, ms: seq<T>) {
    forall i :: 0 <= i < |ms| ==> RoundTrips(dumps, loads, ms[i])
  }

  /** Every message of `ms` is short enough to frame. */
  predicate AllFit<T>(dumps: T -> seq<byte>, ms: seq<T>) {
    forall i :: 0 <= i < |ms| ==> |dumps(ms[i])| < LENGTH_LIMIT
  }

  lemma RoundTripsFit<T>(dumps: T -> seq<byte>, loads: seq<byte> -> Option<T>, ms: seq<T>)
    requires AllRoundTrip(dumps, loads, ms)
    ensures AllFit(dumps, ms)
  {
    forall i | 0 <= i < |ms| ensures |dumps(ms[i])| < LENGTH_LIMIT {
      assert RoundTrips(dumps, loads, ms[i]);
    }
  }

  /** One frame followed by any bytes decodes to its message, then what those bytes decode to. */
  lemma DecodeFrameThen<T>(dumps: T -> seq<byte>, loads: seq<byte> -> Option<T>, m: T, rest: seq<byte>)
    requires RoundTrips(dumps, loads, m)
    ensures Decode(loads, Encode(dumps, m).value + rest) == [m] + Decode(loads, rest)
  {
    var frame := Encode(dumps, m).value;
    var data := frame + rest;
    var size := |dumps(m)|;
    assert data[..4] == frame[..4];
    assert data[4..4 + size] == dumps(m);
    if rest != [] {
      assert data[4 + size..] == rest;
    }
  }

  /** decode(encode(m)) == [m]. */
  lemma DecodeEncode<T>(dumps: T -> seq<byte>, loads: seq<byte> -> Option<T>, m: T)
    requires RoundTrips(dumps, loads, m)
    ensures Decode(loads, Encode(dumps, m).value) == [m]
  {
    DecodeFrameThen(dumps, loads, m, []);
    assert Encode(dumps, m).value + [] == Encode(dumps, m).value;
  }

  /** The frames of several messages, one after the other. */
  function Frames<T>(dumps: T -> seq<byte>, ms: seq<T>): seq<byte>
    requires AllFit(dumps, ms)
  {
    if ms == [] then []
    else
      assert AllFit(dumps, ms[1..]) by {
        forall i | 0 <= i < |ms[1..]| ensures |dumps(ms[1..][i])| < LENGTH_LIMIT {
          assert ms[1..][i] == ms[i + 1];
        }
      }
      Encode(dumps, ms[0]).value + Frames(dumps, ms[1..])
  }

  lemma SeqAssoc(a: seq<byte>, b: seq<byte>, c: seq<byte>)
    ensures (a + b) + c == a + (b + c)
  {
  }

  lemma FramesConsThen<T>(dumps: T -> seq<byte>, ms: seq<T>, rest: seq<byte>)
    requires AllFit(dumps, ms) && ms != [] && AllFit(dumps, ms[1..])
    ensures Frames(dumps, ms) + rest == Encode(dumps, ms[0]).value + (Frames(dumps, ms[1..]) + rest)
  {
    var frame := Encode(dumps, ms[0]).value;
    var later := Frames(dumps, ms[1..]);
    assert Frames(dumps, ms) == frame + later;
    SeqAssoc(frame, later, rest);
  }

  /** Decoding frames followed by any bytes gives their messages in order, then what those
      bytes decode to: a failure in a later frame keeps every earlier message. */
  lemma {:induction false} DecodeFramesThen<T>(dumps: T -> seq<byte>, loads: seq<byte> -> Option<T>, ms: seq<T>, rest: seq<byte>)
    requires AllRoundTrip(dumps, loads, ms)
    ensures AllFit(dumps, ms) && Decode(loads, Frames(dumps, ms) + rest) == ms + Decode(loads, rest)
  {
    RoundTripsFit(dumps, loads, ms);
    if ms == [] {
      assert Frames(dumps, ms) + rest == rest;
    } else {
      var tail := ms[1..];
      assert AllRoundTrip(dumps, loads, tail) by {
        forall i | 0 <= i < |tail| ensures RoundTrips(dumps, loads, tail[i]) {
          assert tail[i] == ms[i + 1];
          assert RoundTrips(dumps, loads, ms[i + 1]);
        }
      }
      RoundTripsFit(dumps, loads, tail);
      assert RoundTrips(dumps, loads, ms[0]);
      var frame := Encode(dumps, ms[0]).value;
      var mid := Frames(dumps, tail) + rest;
      calc {
        Decode(loads, Frames(dumps, ms) + rest);
        { FramesConsThen(dumps, ms, rest); }
        Decode(loads, frame + mid);
        { DecodeFrameThen(dumps, loads, ms[0], mid); }
        [ms[0]] + Decode(loads, mid);
        { DecodeFramesThen(dumps, loads, tail, rest); }
        [ms[0]] + (tail + Decode(loads, rest));
        { assert ms == [ms[0]] + tail; }
        ms + Decode(loads, rest);
      }
    }
  }

  /** Decoding a concatenation of frames gives their messages in order. */
  lemma DecodeFrames<T>(dumps: T -> seq<byte>, loads: seq<byte> -> Option<T>, ms: seq<T>)
    requires AllRoundTrip(dumps, loads, ms)
    ensures AllFit(dumps, ms) && Decode(loads, Frames(dumps, ms)) == ms
  {
    DecodeFramesThen(dumps, loads, ms, []);
    assert Frames(dumps, ms) + [] == Frames(dumps, ms);
  }

  /** A first frame whose payload does not deserialise gives no messages at all. */
  lemma FirstFrameFails<T>(loads: seq<byte> -> Option<T>, data: seq<byte>)
    requires |data| >= 4
    requires var size := UnpackLength(data[..4]);
             loads(data[4..if 4 + size <= |data| then 4 + size else |data|]).None?
    ensures Decode(loads, data) == []
  {
  }
}
