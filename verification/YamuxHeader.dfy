/** The 12-byte frame header of yamux: version, type, flags, stream id and length, in network order. */
module YamuxHeader {
  import opened Bytes

  const PROTO_VERSION: nat := 0

  const TYPE_DATA: nat := 0
  const TYPE_WINDOW_UPDATE: nat := 1
  const TYPE_PING: nat := 2
  const TYPE_GO_AWAY: nat := 3

  const HEADER_SIZE: nat := 12

  datatype Header = Header(version: nat, msgType: nat, flags: nat, streamId: nat, length: nat)

  predicate InRange(h: Header) {
    && h.version < 0x100
    && h.msgType < 0x100
    && h.flags < 0x1_0000
    && h.streamId < 0x1_0000_0000
    && h.length < 0x1_0000_0000
  }

  function Encode(h: Header): (s: seq<byte>)
    requires InRange(h)
    ensures |s| == HEADER_SIZE
  {
    [h.version, h.msgType] + PutUint(h.flags, 2) + PutUint(h.streamId, 4) + PutUint(h.length, 4)
  }

  /** The five getters of the header, applied to the same twelve bytes. */
  function Decode(s: seq<byte>): (h: Header)
    requires |s| == HEADER_SIZE
    ensures InRange(h)
  {
    UintBound(s[2..4]);
    UintBound(s[4..8]);
    UintBound(s[8..12]);
    Pow256Values();
    Header(s[0], s[1], Uint(s[2..4]), Uint(s[4..8]), Uint(s[8..12]))
  }

  lemma DecodeFields(version: byte, msgType: byte, flags: seq<byte>, id: seq<byte>, length: seq<byte>)
    requires |flags| == 2 && |id| == 4 && |length| == 4
    ensures Decode([version, msgType] + flags + id + length) ==
      Header(version, msgType, Uint(flags), Uint(id), Uint(length))
  {
    var s := [version, msgType] + flags + id + length;
    assert s[2..4] == flags;
    assert s[4..8] == id;
    assert s[8..12] == length;
  }

  /** The twelve bytes one by one: every field in network order. */
  lemma HeaderLayout(h: Header)
    requires InRange(h)
    ensures var s := Encode(h);
            && s[0] == h.version && s[1] == h.msgType
            && Join2(s[2], s[3]) == h.flags
            && Join4(s[4], s[5], s[6], s[7]) == h.streamId
            && Join4(s[8], s[9], s[10], s[11]) == h.length
  {
    TwoBytes(h.flags);
    FourBytes(h.streamId);
    FourBytes(h.length);
  }

  lemma DecodeEncode(h: Header)
    requires InRange(h)
    ensures Decode(Encode(h)) == h
  {
    Pow256Values();
    UintPutUint(h.flags, 2);
    UintPutUint(h.streamId, 4);
    UintPutUint(h.length, 4);
    DecodeFields(h.version, h.msgType, PutUint(h.flags, 2), PutUint(h.streamId, 4), PutUint(h.length, 4));
  }

  lemma EncodeFields(version: byte, msgType: byte, flags: seq<byte>, id: seq<byte>, length: seq<byte>, h: Header)
    requires |flags| == 2 && |id| == 4 && |length| == 4 && InRange(h)
    requires h == Header(version, msgType, Uint(flags), Uint(id), Uint(length))
    ensures Encode(h) == [version, msgType] + flags + id + length
  {
    PutUintUint(flags);
    PutUintUint(id);
    PutUintUint(length);
  }

  lemma EncodeDecode(s: seq<byte>)
    requires |s| == HEADER_SIZE
    ensures Encode(Decode(s)) == s
  {
    EncodeFields(s[0], s[1], s[2..4], s[4..8], s[8..12], Decode(s));
  }

  /** Writes `value` into `buf[at..at + size]`, most significant byte first. */
  method PutInPlace(buf: array<byte>, at: nat, size: nat, value: nat)
    requires at + size <= buf.Length
    modifies buf
    ensures buf[at..at + size] == PutUint(value, size)
    ensures buf[..at] == old(buf[..at]) && buf[at + size..] == old(buf[at + size..])
  {
    var rest, k := value, size;
    while k > 0
      invariant 0 <= k <= size
      invariant PutUint(value, size) == PutUint(rest, k) + buf[at + k..at + size]
      invariant buf[..at] == old(buf[..at]) && buf[at + size..] == old(buf[at + size..])
    {
      ghost var tail := buf[at + k..at + size];
      buf[at + k - 1] := rest % 256;
      assert buf[at + k - 1..at + size] == [rest % 256] + tail;
      rest, k := rest / 256, k - 1;
    }
  }

  /** Fills a reused header buffer, as every sender of a stream does. */
  method EncodeInPlace(buf: array<byte>, msgType: nat, flags: nat, streamId: nat, length: nat)
    requires buf.Length == HEADER_SIZE
    requires InRange(Header(PROTO_VERSION, msgType, flags, streamId, length))
    modifies buf
    ensures Decode(buf[..]) == Header(PROTO_VERSION, msgType, flags, streamId, length)
    ensures buf[..] == Encode(Header(PROTO_VERSION, msgType, flags, streamId, length))
  {
    ghost var h := Header(PROTO_VERSION, msgType, flags, streamId, length);
    buf[0] := PROTO_VERSION;
    buf[1] := msgType;
    ghost var first := buf[..2];
    PutInPlace(buf, 2, 2, flags);
    assert buf[..4] == first + PutUint(flags, 2);
    PutInPlace(buf, 4, 4, streamId);
    assert buf[..8] == first + PutUint(flags, 2) + PutUint(streamId, 4);
    PutInPlace(buf, 8, 4, length);
    assert buf[..12] == first + PutUint(flags, 2) + PutUint(streamId, 4) + PutUint(length, 4);
    assert buf[..] == Encode(h);
    DecodeEncode(h);
  }
}
