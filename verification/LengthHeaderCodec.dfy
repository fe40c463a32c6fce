/** The length-header codec: every message goes out behind its length, four bytes in network
    order, and comes back however the stream was cut on the way. */
module LengthHeaderCodec {

  newtype byte = x: int | 0 <= x < 256

  const N_HEADER: nat := 4
  const MAX_LENGTH: int := 65536
  const TWO_31: int := 0x8000_0000
  const TWO_32: int := 0x1_0000_0000

  // ---------------------------------------------------------------- 32-bit integers

  /** `static_cast<int32_t>` of a size. */
  function ToInt32(size: nat): int {
    (size + TWO_31) % TWO_32 - TWO_31
  }

  /** The four bytes `prependInt32` writes. */
  function Bytes4(v: int): (r: seq<byte>)
    ensures |r| == N_HEADER
  {
    var u := v % TWO_32;
    [(u / 0x100_0000) as byte, (u / 0x1_0000 % 256) as byte, (u / 256 % 256) as byte, (u % 256) as byte]
  }

  /** What `peekInt32` reads. */
  function PeekInt32(buf: seq<byte>): int
    requires |buf| >= N_HEADER
  {
    var u := buf[0] as int * 0x100_0000 + buf[1] as int * 0x1_0000 + buf[2] as int * 256 + buf[3] as int;
    if u < TWO_31 then u else u - TWO_32
  }

  lemma PeekOfBytes4(v: int, rest: seq<byte>)
    requires -TWO_31 <= v < TWO_31
    ensures PeekInt32(Bytes4(v) + rest) == v
  {
    var u := v % TWO_32;
    assert u == u / 256 * 256 + u % 256;
    assert u / 256 == u / 256 / 256 * 256 + u / 256 % 256 && u / 256 / 256 == u / 0x1_0000;
    assert u / 0x1_0000 == u / 0x1_0000 / 256 * 256 + u / 0x1_0000 % 256 && u / 0x1_0000 / 256 == u / 0x100_0000;
  }

  /** The number that bytes stand for in network order: every byte counts 256 times as much as
      the next. */
  function BigEndian(s: seq<byte>): nat {
    if s == [] then 0 else BigEndian(s[..|s| - 1]) * 256 + s[|s| - 1] as nat
  }

  lemma BigEndianOfFour(s: seq<byte>)
    requires |s| == N_HEADER
    ensures BigEndian(s) == s[0] as int * 0x100_0000 + s[1] as int * 0x1_0000 + s[2] as int * 256 + s[3] as int
  {
    assert s[..3][..2] == s[..2] && s[..2][..1] == s[..1] && s[..1][..0] == [];
    assert BigEndian(s[..1]) == s[0] as int;
    assert BigEndian(s[..2]) == BigEndian(s[..1]) * 256 + s[1] as int;
    assert BigEndian(s[..3]) == BigEndian(s[..2]) * 256 + s[2] as int;
  }

  /** The header is in network order: written, it stands for the length modulo 2^32, and read, for
      the one signed 32-bit number with that remainder. */
  lemma HeaderIsNetworkOrder(v: int, buf: seq<byte>)
    requires |buf| >= N_HEADER
    ensures BigEndian(Bytes4(v)) == v % TWO_32
    ensures -TWO_31 <= PeekInt32(buf) < TWO_31 && PeekInt32(buf) % TWO_32 == BigEndian(buf[..N_HEADER])
  {
    BigEndianOfFour(Bytes4(v));
    BigEndianOfFour(buf[..N_HEADER]);
    BytesOf(v % TWO_32);
  }

  lemma BytesOf(u: nat)
    requires u < TWO_32
    ensures u == u / 0x100_0000 * 0x100_0000 + u / 0x1_0000 % 256 * 0x1_0000 + u / 256 % 256 * 256 + u % 256
  {
    assert u == u / 256 * 256 + u % 256;
    assert u / 256 == u / 256 / 256 * 256 + u / 256 % 256 && u / 256 / 256 == u / 0x1_0000;
    assert u / 0x1_0000 == u / 0x1_0000 / 256 * 256 + u / 0x1_0000 % 256 && u / 0x1_0000 / 256 == u / 0x100_0000;
  }

  // ---------------------------------------------------------------- encoding and decoding

  function Encode(msg: seq<byte>): seq<byte> {
    Bytes4(ToInt32(|msg|)) + msg
  }

  function EncodeAll(msgs: seq<seq<byte>>): seq<byte> {
    if msgs == [] then [] else Encode(msgs[0]) + EncodeAll(msgs[1..])
  }

  /** What one `onMessage` delivers, what it leaves in the buffer, and whether it stopped at an
      invalid length. */
  datatype Decoded = Decoded(msgs: seq<seq<byte>>, rest: seq<byte>, invalid: bool)

  predicate LengthOk(len: int) {
    0 <= len <= MAX_LENGTH
  }

  predicate Invalid(buf: seq<byte>) {
    |buf| >= N_HEADER && !LengthOk(PeekInt32(buf))
  }

  /** The buffer begins with a whole frame. */
  predicate HasFrame(buf: seq<byte>) {
    |buf| >= N_HEADER && LengthOk(PeekInt32(buf)) && |buf| >= N_HEADER + PeekInt32(buf)
  }

  function Message(buf: seq<byte>): seq<byte>
    requires HasFrame(buf)
  {
    buf[N_HEADER..N_HEADER + PeekInt32(buf)]
  }

  function BehindFrame(buf: seq<byte>): (r: seq<byte>)
    requires HasFrame(buf)
    ensures |r| < |buf|
  {
    buf[N_HEADER + PeekInt32(buf)..]
  }

  function Decode(buf: seq<byte>): Decoded
    decreases |buf|
  {
    if !HasFrame(buf) then Decoded([], buf, Invalid(buf))
    else
      var d := Decode(BehindFrame(buf));
      d.(msgs := [Message(buf)] + d.msgs)
  }

  lemma DecodeStep(buf: seq<byte>)
    ensures if HasFrame(buf) then
              var d := Decode(BehindFrame(buf)); Decode(buf) == d.(msgs := [Message(buf)] + d.msgs)
            else Decode(buf) == Decoded([], buf, Invalid(buf))
  {
  }

  lemma EncodedHead(msg: seq<byte>, rest: seq<byte>)
    requires |msg| <= MAX_LENGTH
    ensures var buf := Encode(msg) + rest;
            HasFrame(buf) && Message(buf) == msg && BehindFrame(buf) == rest
  {
    assert ToInt32(|msg|) == |msg|;
    PeekOfBytes4(|msg|, msg + rest);
    assert Encode(msg) + rest == Bytes4(|msg|) + (msg + rest);
  }

  lemma {:induction false} DecodeInvertsEncode(msgs: seq<seq<byte>>)
    requires forall i :: 0 <= i < |msgs| ==> |msgs[i]| <= MAX_LENGTH
    ensures Decode(EncodeAll(msgs)) == Decoded(msgs, [], false)
  {
    if msgs != [] {
      EncodedHead(msgs[0], EncodeAll(msgs[1..]));
      DecodeInvertsEncode(msgs[1..]);
      assert msgs == [msgs[0]] + msgs[1..];
    }
  }

  /** What follows valid frames is decoded as if it stood alone. */
  lemma DecodeBehind(msgs: seq<seq<byte>>, rest: seq<byte>)
    requires forall i :: 0 <= i < |msgs| ==> |msgs[i]| <= MAX_LENGTH
    ensures Decode(EncodeAll(msgs) + rest) == Decode(rest).(msgs := msgs + Decode(rest).msgs)
  {
    DecodeInvertsEncode(msgs);
    DecodeInTwo(EncodeAll(msgs), rest);
    hide Decode, EncodeAll;
    assert [] + rest == rest;
  }

  /** Behind any valid frames, a header whose length is negative or above 65536 stops the
      decoding: the connection is shut down, and the header and all behind it stay where they
      are. An incomplete frame stops it without a shutdown. */
  lemma DecodingStopsIff(msgs: seq<seq<byte>>, rest: seq<byte>)
    requires forall i :: 0 <= i < |msgs| ==> |msgs[i]| <= MAX_LENGTH
    ensures var bad := |rest| >= N_HEADER && (PeekInt32(rest) < 0 || PeekInt32(rest) > 65536);
            var short := |rest| < N_HEADER || |rest| < N_HEADER + PeekInt32(rest);
            && (bad ==> Decode(EncodeAll(msgs) + rest) == Decoded(msgs, rest, true))
            && (!bad && short ==> Decode(EncodeAll(msgs) + rest) == Decoded(msgs, rest, false))
            && (!bad && !short ==> |Decode(EncodeAll(msgs) + rest).msgs| > |msgs|)
  {
    DecodeBehind(msgs, rest);
    DecodeStep(rest);
    hide Encode, EncodeAll;
    assert msgs + [] == msgs;
  }

  /** `send` checks no length: a message survives the way exactly if it is short enough. */
  lemma MessageSurvivesIff(msg: seq<byte>)
    ensures Decode(Encode(msg)) == Decoded([msg], [], false) <==> |msg| <= MAX_LENGTH
  {
    if |msg| <= MAX_LENGTH {
      DecodeInvertsEncode([msg]);
      assert EncodeAll([msg]) == Encode(msg) by {
        assert [msg][1..] == [];
      }
    } else {
      var buf := Encode(msg);
      PeekOfBytes4(ToInt32(|msg|), msg);
      if HasFrame(buf) {
        assert |Message(buf)| <= MAX_LENGTH < |msg|;
        assert Decode(buf).msgs[0] == Message(buf) != [msg][0];
      }
    }
  }

  // ---------------------------------------------------------------- fragmentation

  lemma FrameOfPrefix(a: seq<byte>, b: seq<byte>)
    requires HasFrame(a) || Invalid(a)
    ensures HasFrame(a) ==> HasFrame(a + b) && Message(a + b) == Message(a) && BehindFrame(a + b) == BehindFrame(a) + b
    ensures Invalid(a) ==> Invalid(a + b)
  {
  }

  lemma Prefixed(m: seq<byte>, x: seq<seq<byte>>, y: seq<seq<byte>>)
    ensures [m] + (x + y) == [m] + x + y
  {
  }

  /** Decoding does not depend on where the stream is cut, be it valid or not. */
  lemma {:induction false} DecodeInTwo(a: seq<byte>, b: seq<byte>)
    ensures var d := Decode(a);
            var e := Decode(d.rest + b);
            Decode(a + b) == Decoded(d.msgs + e.msgs, e.rest, e.invalid)
    decreases |a|
  {
    if HasFrame(a) {
      FrameOfPrefix(a, b);
      DecodeInTwo(BehindFrame(a), b);
      var d := Decode(BehindFrame(a));
      Prefixed(Message(a), d.msgs, Decode(d.rest + b).msgs);
      hide HasFrame, Invalid, Message, BehindFrame;
    } else {
      assert [] + Decode(a + b).msgs == Decode(a + b).msgs;
    }
  }

  /** What a call of `onMessage` leaves, another call leaves too. */
  lemma {:induction false} RestIsSettled(buf: seq<byte>)
    ensures var d := Decode(buf); Decode(d.rest) == Decoded([], d.rest, d.invalid)
    decreases |buf|
  {
    if HasFrame(buf) {
      RestIsSettled(BehindFrame(buf));
    }
  }

  function Flatten(chunks: seq<seq<byte>>): seq<byte> {
    if chunks == [] then [] else chunks[0] + Flatten(chunks[1..])
  }

  /** The chunks arrive one by one, and `onMessage` is called after each. */
  function Feed(buf: seq<byte>, chunks: seq<seq<byte>>): Decoded
    decreases |chunks|
  {
    if chunks == [] then Decoded([], buf, Decode(buf).invalid)
    else
      var d := Decode(buf + chunks[0]);
      var e := Feed(d.rest, chunks[1..]);
      e.(msgs := d.msgs + e.msgs)
  }

  /** However a stream is cut into chunks, the same messages come out of it, and the same bytes
      are left over. */
  lemma {:induction false} FeedIsDecode(buf: seq<byte>, chunks: seq<seq<byte>>)
    requires Decode(buf).msgs == [] && Decode(buf).rest == buf
    ensures Feed(buf, chunks) == Decode(buf + Flatten(chunks))
    decreases |chunks|
  {
    if chunks == [] {
      assert buf + [] == buf;
    } else {
      var d, more := Decode(buf + chunks[0]), Flatten(chunks[1..]);
      RestIsSettled(buf + chunks[0]);
      Concatenate(buf, chunks[0], more);
      DecodeInTwo(buf + chunks[0], more);
      FeedIsDecode(d.rest, chunks[1..]);
      hide Decode, Flatten;
    }
  }

  lemma Concatenate(a: seq<byte>, b: seq<byte>, c: seq<byte>)
    ensures a + (b + c) == a + b + c
  {
  }

  /** The round trip: for every list of messages short enough, and every way to cut their
      encodings, exactly the list is delivered, in order, and nothing is left over. */
  lemma RoundTrip(msgs: seq<seq<byte>>, chunks: seq<seq<byte>>)
    requires forall i :: 0 <= i < |msgs| ==> |msgs[i]| <= MAX_LENGTH
    requires Flatten(chunks) == EncodeAll(msgs)
    ensures Feed([], chunks) == Decoded(msgs, [], false)
  {
    FeedIsDecode([], chunks);
    DecodeInvertsEncode(msgs);
    assert [] + Flatten(chunks) == EncodeAll(msgs);
  }

  /** At every cut of a valid stream, the messages before it have been delivered and what is left
      over is a proper prefix of the next frame. */
  lemma {:induction false} LeftoverIsPartOfOneFrame(msgs: seq<seq<byte>>, n: nat)
    requires forall i :: 0 <= i < |msgs| ==> |msgs[i]| <= MAX_LENGTH
    requires n <= |EncodeAll(msgs)|
    ensures var d := Decode(EncodeAll(msgs)[..n]);
            && !d.invalid && |d.msgs| <= |msgs| && d.msgs == msgs[..|d.msgs|]
            && (if |d.msgs| == |msgs| then d.rest == []
                else |d.rest| < |Encode(msgs[|d.msgs|])| && d.rest == Encode(msgs[|d.msgs|])[..|d.rest|])
    decreases |msgs|
  {
    if msgs != [] {
      var head, tail := Encode(msgs[0]), EncodeAll(msgs[1..]);
      var buf := EncodeAll(msgs)[..n];
      if n < |head| {
        assert buf == head[..n];
        PartOfFrame(msgs[0], n);
      } else {
        var rest := tail[..n - |head|];
        assert buf == head + rest;
        EncodedHead(msgs[0], rest);
        DecodeStep(buf);
        hide Decode, HasFrame, Message, BehindFrame, EncodeAll;
        LeftoverIsPartOfOneFrame(msgs[1..], n - |head|);
        var d := Decode(rest);
        assert Decode(buf) == d.(msgs := [msgs[0]] + d.msgs);
        Shifted(msgs, d.msgs);
      }
    }
  }

  lemma Shifted(msgs: seq<seq<byte>>, got: seq<seq<byte>>)
    requires msgs != [] && |got| < |msgs| && got == msgs[1..][..|got|]
    ensures [msgs[0]] + got == msgs[..|got| + 1]
    ensures |got| + 1 < |msgs| ==> msgs[|got| + 1] == msgs[1..][|got|]
  {
  }

  lemma PartOfFrame(msg: seq<byte>, n: nat)
    requires |msg| <= MAX_LENGTH && n < |Encode(msg)|
    ensures Decode(Encode(msg)[..n]) == Decoded([], Encode(msg)[..n], false)
  {
    if n >= N_HEADER {
      EncodedHead(msg, []);
      assert Encode(msg) + [] == Encode(msg);
      assert PeekInt32(Encode(msg)[..n]) == PeekInt32(Encode(msg)) == |msg| by {
        assert ToInt32(|msg|) == |msg|;
        PeekOfBytes4(|msg|, msg);
      }
    }
  }

  // ---------------------------------------------------------------- the classes

  class Buffer {
    var data: seq<byte>

    constructor ()
      ensures data == []
    {
      data := [];
    }

    method Append(bytes: seq<byte>)
      modifies this
      ensures data == old(data) + bytes
    {
      data := data + bytes;
    }

    method PrependInt32(v: int)
      modifies this
      ensures data == Bytes4(v) + old(data)
    {
      data := Bytes4(v) + data;
    }

    method Retrieve(n: nat)
      requires n <= |data|
      modifies this
      ensures data == old(data)[n..]
    {
      data := data[n..];
    }
  }

  /** The messages are returned where the source hands them to its callback; `shutdown` says
      whether the connection is shut down for an invalid length. */
  method OnMessage(buf: Buffer) returns (msgs: seq<seq<byte>>, shutdown: bool)
    modifies buf
    ensures Decoded(msgs, buf.data, shutdown) == Decode(old(buf.data))
  {
    msgs, shutdown := [], false;
    ghost var all := Decode(buf.data);
    while |buf.data| >= N_HEADER
      invariant !shutdown
      invariant var d := Decode(buf.data); all == Decoded(msgs + d.msgs, d.rest, d.invalid)
      decreases |buf.data|
    {
      var len := PeekInt32(buf.data);
      DecodeStep(buf.data);
      hide Decode;
      if len < 0 || len > MAX_LENGTH {
        shutdown := true;
        break;
      } else if |buf.data| < N_HEADER + len {
        break;
      } else {
        ghost var before := buf.data;
        buf.Retrieve(N_HEADER);
        var message := buf.data[..len];
        assert message == Message(before);
        AppendOne(msgs, message, Decode(BehindFrame(before)).msgs);
        msgs := msgs + [message];
        buf.Retrieve(len);
        assert buf.data == BehindFrame(before);
      }
    }
    DecodeStep(buf.data);
  }

  lemma AppendOne(msgs: seq<seq<byte>>, m: seq<byte>, rest: seq<seq<byte>>)
    ensures msgs + ([m] + rest) == msgs + [m] + rest
  {
  }

  method Send(data: seq<byte>) returns (buf: Buffer)
    ensures fresh(buf) && buf.data == Encode(data)
  {
    buf := new Buffer();
    buf.Append(data);
    buf.PrependInt32(ToInt32(|data|));
  }
}
