/** WebSocket frames: the header, its three length forms, and masking (sections 5.2 and 5.3 of RFC 6455). */
module HybiFrame {
  import opened Options
  import opened Bytes

  // ---- bits ----

  function Pow2(k: nat): (p: nat)
    ensures p >= 1
  {
    if k == 0 then 1 else 2 * Pow2(k - 1)
  }

  /** Exclusive or, bit by bit. */
  function XorBits(a: nat, b: nat): nat
    decreases a + b
  {
    if a == 0 && b == 0 then 0 else (a % 2 + b % 2) % 2 + 2 * XorBits(a / 2, b / 2)
  }

  /** Inclusive or, bit by bit. */
  function OrBits(a: nat, b: nat): nat
    decreases a + b
  {
    if a == 0 && b == 0 then 0 else (if a % 2 == 1 || b % 2 == 1 then 1 else 0) + 2 * OrBits(a / 2, b / 2)
  }

  lemma {:induction false} BitsBound(a: nat, b: nat, k: nat)
    requires a < Pow2(k) && b < Pow2(k)
    ensures XorBits(a, b) < Pow2(k) && OrBits(a, b) < Pow2(k)
  {
    if k > 0 {
      BitsBound(a / 2, b / 2, k - 1);
    }
  }

  lemma Pow2Of8()
    ensures Pow2(8) == 256 && Pow2(7) == 128 && Pow2(6) == 64 && Pow2(5) == 32 && Pow2(4) == 16
  {
    assert Pow2(2) == 4;
    assert Pow2(3) == 8;
  }

  function Xor(a: byte, b: byte): byte {
    Pow2Of8();
    BitsBound(a, b, 8);
    XorBits(a, b)
  }

  function Or(a: byte, b: byte): byte {
    Pow2Of8();
    BitsBound(a, b, 8);
    OrBits(a, b)
  }

  lemma Halve(p: nat, r: nat)
    requires p < 2
    ensures (p + 2 * r) % 2 == p && (p + 2 * r) / 2 == r
  {
  }

  /** The last digit, and the digits before it. */
  lemma XorDigits(a: nat, b: nat)
    ensures XorBits(a, b) % 2 == (a % 2 + b % 2) % 2 && XorBits(a, b) / 2 == XorBits(a / 2, b / 2)
  {
    if a != 0 || b != 0 {
      Halve((a % 2 + b % 2) % 2, XorBits(a / 2, b / 2));
    }
  }

  lemma SameDigits(a: nat, c: nat, d: nat, y: nat)
    requires y < 2 && c % 2 == (a % 2 + y) % 2 && d % 2 == (c % 2 + y) % 2 && d / 2 == a / 2
    ensures d == a
  {
  }

  lemma {:induction false} XorBitsTwice(a: nat, b: nat)
    ensures XorBits(XorBits(a, b), b) == a
    decreases a + b
  {
    if a != 0 || b != 0 {
      var c := XorBits(a, b);
      XorDigits(a, b);
      XorDigits(c, b);
      XorBitsTwice(a / 2, b / 2);
      SameDigits(a, c, XorBits(c, b), b % 2);
    }
  }

  lemma XorTwice(a: byte, b: byte)
    ensures Xor(Xor(a, b), b) == a
  {
    XorBitsTwice(a, b);
  }

  lemma {:induction false} OrWithZero(a: nat)
    ensures OrBits(a, 0) == a
  {
    if a > 0 {
      OrWithZero(a / 2);
    }
  }

  /** Or of numbers without a common bit is their sum. */
  lemma {:induction false} OrIsSum(high: nat, low: nat, j: nat)
    requires low < Pow2(j)
    ensures OrBits(high * Pow2(j), low) == high * Pow2(j) + low
  {
    if j == 0 {
      OrWithZero(high);
    } else {
      var h := high * Pow2(j - 1);
      assert high * Pow2(j) == 2 * h;
      OrIsSum(high, low / 2, j - 1);
    }
  }

  lemma OrAdds(high: byte, low: byte, q: nat, w: nat, j: nat)
    requires w == Pow2(j) && high == q * w && low < w
    ensures Or(high, low) == high + low
  {
    OrIsSum(q, low, j);
  }

  // ---- headers ----

  const CONTINUATION: byte := 0
  const TEXT: byte := 1
  const BINARY: byte := 2
  const CLOSE: byte := 8
  const PING: byte := 9
  const PONG: byte := 10

  const MAX_CONTROL_PAYLOAD: nat := 125

  type Key = k: seq<byte> | |k| == 4 witness [0, 0, 0, 0]

  datatype FrameHeader = FrameHeader(
    fin: bool,
    rsv: (bool, bool, bool),
    opCode: byte,
    length: int,
    key: Option<Key>
  )

  function Bit(set_: bool, weight: byte): byte {
    if set_ then weight else 0
  }

  /** FIN, the three reserved bits, and the opcode or-ed in. */
  function FirstByte(h: FrameHeader): byte {
    Or(Or(Or(Or(Bit(h.fin, 128), Bit(h.rsv.0, 64)), Bit(h.rsv.1, 32)), Bit(h.rsv.2, 16)), h.opCode)
  }

  lemma FirstByteIsSum(h: FrameHeader)
    requires h.opCode < 16
    ensures FirstByte(h) == Bit(h.fin, 128) + Bit(h.rsv.0, 64) + Bit(h.rsv.1, 32) + Bit(h.rsv.2, 16) + h.opCode
  {
    Pow2Of8();
    var a, b, c, d := Bit(h.fin, 128), Bit(h.rsv.0, 64), Bit(h.rsv.1, 32), Bit(h.rsv.2, 16);
    var q := Bit(h.fin, 1);
    OrAdds(a, b, q, 128, 7);
    q := 2 * q + Bit(h.rsv.0, 1);
    OrAdds(a + b, c, q, 64, 6);
    q := 2 * q + Bit(h.rsv.1, 1);
    OrAdds(a + b + c, d, q, 32, 5);
    q := 2 * q + Bit(h.rsv.2, 1);
    OrAdds(a + b + c + d, h.opCode, q, 16, 4);
  }

  function LengthFields(length: nat): nat {
    if length <= 125 then 0 else if length < 65536 then 2 else 8
  }

  function LengthCode(length: nat): byte {
    if length <= 125 then length else if length < 65536 then 126 else 127
  }

  /** The mask bit, with the length code or-ed in. */
  function SecondByte(h: FrameHeader, length: nat): byte {
    Or(Bit(h.key.Some?, 128), LengthCode(length))
  }

  lemma SecondByteIsSum(h: FrameHeader, length: nat)
    ensures SecondByte(h, length) == Bit(h.key.Some?, 128) + LengthCode(length)
  {
    Pow2Of8();
    OrAdds(Bit(h.key.Some?, 128), LengthCode(length), Bit(h.key.Some?, 1), 128, 7);
  }

  function KeyBytes(key: Option<Key>): seq<byte> {
    if key.Some? then key.value else []
  }

  /** What hybiFrameWriter.Write puts before the payload. */
  function HeaderBytes(h: FrameHeader, length: nat): seq<byte> {
    [FirstByte(h), SecondByte(h, length)] + PutUint(length, LengthFields(length)) + KeyBytes(h.key)
  }

  const I63: nat := 0x8000_0000_0000_0000

  /** An int64 that was accumulated byte by byte. */
  function ToInt64(n: nat): int
    requires n < 2 * I63
  {
    if n < I63 then n else n - 2 * I63
  }

  function FieldsOf(code: byte): nat {
    if code == 126 then 2 else if code == 127 then 8 else 0
  }

  function RsvOf(first: byte): (bool, bool, bool) {
    (first / 64 % 2 == 1, first / 32 % 2 == 1, first / 16 % 2 == 1)
  }

  /** The payload length that the second byte and the length field spell. */
  function LengthOf(code: byte, field: seq<byte>): int
    requires |field| <= 8
  {
    UintBound(field);
    Pow256Values();
    Pow256Grows(|field|, 8);
    if field == [] then code else ToInt64(Uint(field))
  }

  /** The header that the two fixed bytes, the length field and the key spell. */
  function HeaderOfParts(first: byte, second: byte, field: seq<byte>, key: seq<byte>): FrameHeader
    requires |field| <= 8 && |key| in {0, 4}
  {
    FrameHeader(first / 128 % 2 == 1, RsvOf(first), first % 16, LengthOf(second % 128, field),
                if key == [] then None else Some(key))
  }

  /** NewFrameReader: the header and the bytes after it, or None if the connection ends first. */
  function ParseHeader(s: seq<byte>): (p: Option<(FrameHeader, seq<byte>)>)
    ensures p.Some? ==> |p.value.1| + 2 <= |s|
  {
    if |s| < 2 then None else
    var n := FieldsOf(s[1] % 128);
    var k := if s[1] >= 128 then 4 else 0;
    if |s| < 2 + n + k then None
    else Some((HeaderOfParts(s[0], s[1], s[2..2 + n], s[2 + n..2 + n + k]), s[2 + n + k..]))
  }

  lemma ParseParts(first: byte, second: byte, field: seq<byte>, key: seq<byte>, rest: seq<byte>)
    requires |field| == FieldsOf(second % 128)
    requires |key| == if second >= 128 then 4 else 0
    ensures ParseHeader([first, second] + field + key + rest) == Some((HeaderOfParts(first, second, field, key), rest))
  {
    var s := [first, second] + field + key + rest;
    assert s[2..2 + |field|] == field;
    assert s[2 + |field|..2 + |field| + |key|] == key;
    assert s[2 + |field| + |key|..] == rest;
  }

  /** Shifting `b` right one place at a time. */
  lemma ShiftsOf(b: nat, low: nat, d: bool, c: bool, e: bool, f: bool)
    requires low < 16
    requires b == Bit(f, 128) + Bit(e, 64) + Bit(c, 32) + Bit(d, 16) + low
    ensures b % 16 == low && (b / 16 % 2 == 1) == d && (b / 32 % 2 == 1) == c
    ensures (b / 64 % 2 == 1) == e && (b / 128 % 2 == 1) == f
  {
    assert b / 16 == Bit(f, 8) + Bit(e, 4) + Bit(c, 2) + Bit(d, 1);
    assert b / 32 == Bit(f, 4) + Bit(e, 2) + Bit(c, 1);
    assert b / 64 == Bit(f, 2) + Bit(e, 1);
    assert b / 128 == Bit(f, 1);
  }

  lemma FirstByteParses(h: FrameHeader)
    requires h.opCode < 16
    ensures var b := FirstByte(h);
            (b / 128 % 2 == 1) == h.fin && RsvOf(b) == h.rsv && b % 16 == h.opCode
  {
    FirstByteIsSum(h);
    ShiftsOf(FirstByte(h), h.opCode, h.rsv.2, h.rsv.1, h.rsv.0, h.fin);
  }

  lemma LengthParses(length: nat)
    requires length < I63
    ensures FieldsOf(LengthCode(length)) == LengthFields(length)
    ensures LengthOf(LengthCode(length), PutUint(length, LengthFields(length))) == length
  {
    Pow256Values();
    if LengthFields(length) > 0 {
      UintPutUint(length, LengthFields(length));
    }
  }

  lemma PartsAreHeader(h: FrameHeader, length: nat)
    requires h.opCode < 16 && length < I63
    ensures FieldsOf(SecondByte(h, length) % 128) == LengthFields(length)
    ensures HeaderOfParts(FirstByte(h), SecondByte(h, length), PutUint(length, LengthFields(length)), KeyBytes(h.key))
            == h.(length := length)
  {
    SecondByteParses(h, length);
    FirstByteParses(h);
    LengthParses(length);
  }

  lemma SecondByteParses(h: FrameHeader, length: nat)
    ensures SecondByte(h, length) % 128 == LengthCode(length)
    ensures SecondByte(h, length) >= 128 <==> h.key.Some?
  {
    SecondByteIsSum(h, length);
  }

  /** Parsing what was written gives back every field, and stops where the payload starts. */
  lemma HeaderRoundTrip(h: FrameHeader, length: nat, rest: seq<byte>)
    requires h.opCode < 16 && length < I63
    ensures ParseHeader(HeaderBytes(h, length) + rest) == Some((h.(length := length), rest))
  {
    var second := SecondByte(h, length);
    SecondByteParses(h, length);
    PartsAreHeader(h, length);
    ParseParts(FirstByte(h), second, PutUint(length, LengthFields(length)), KeyBytes(h.key), rest);
  }

  /** What any bytes parse to, canonical or not: section 5.2 field by field, the 64-bit length read as an int64. */
  lemma ParseLayout(s: seq<byte>)
    ensures |s| < 2 ==> ParseHeader(s).None?
    ensures |s| >= 2 ==>
              var code := s[1] % 128;
              var f := if code <= 125 then 0 else if code == 126 then 2 else 8;
              var n := 2 + f + if s[1] >= 128 then 4 else 0;
              && (ParseHeader(s).Some? <==> n <= |s|)
              && (n <= |s| ==>
                    var (h, rest) := ParseHeader(s).value;
                    && rest == s[n..] && h.fin == (s[0] >= 128) && h.opCode == s[0] % 16
                    && h.rsv == (s[0] / 64 % 2 == 1, s[0] / 32 % 2 == 1, s[0] / 16 % 2 == 1)
                    && h.key == (if s[1] >= 128 then Some(s[2 + f..n]) else None)
                    && h.length == (if f == 0 then code
                                    else if Uint(s[2..2 + f]) < I63 then Uint(s[2..2 + f])
                                    else Uint(s[2..2 + f]) - 2 * I63))
  {
  }

  /** No header that carries the same fields is shorter than the one the writer chooses. */
  lemma WriterIsMinimal(s: seq<byte>)
    requires ParseHeader(s).Some? && ParseHeader(s).value.0.length >= 0
    ensures var (h, rest) := ParseHeader(s).value;
            |HeaderBytes(h, h.length)| + |rest| <= |s|
  {
    var code := s[1] % 128;
    var n := FieldsOf(code);
    UintBound(s[2..2 + n]);
    Pow256Values();
  }

  // ---- masking ----

  function MaskByte(b: byte, key: Option<Key>, i: nat): byte {
    if key.None? then b else Xor(b, key.value[i % 4])
  }

  /** Exclusive or with the key, where the first byte of `data` is byte `pos` of its frame. */
  function Mask(data: seq<byte>, key: Option<Key>, pos: nat): (m: seq<byte>)
    ensures |m| == |data|
    ensures forall i :: 0 <= i < |data| ==> m[i] == MaskByte(data[i], key, pos + i)
  {
    seq(|data|, i requires 0 <= i < |data| => MaskByte(data[i], key, pos + i))
  }

  lemma MaskTwice(data: seq<byte>, key: Option<Key>, pos: nat)
    ensures Mask(Mask(data, key, pos), key, pos) == data
  {
    forall i | 0 <= i < |data| ensures Mask(Mask(data, key, pos), key, pos)[i] == data[i] {
      if key.Some? {
        XorTwice(data[i], key.value[(pos + i) % 4]);
      }
    }
  }

  lemma MaskSplits(a: seq<byte>, b: seq<byte>, key: Option<Key>, pos: nat)
    ensures Mask(a + b, key, pos) == Mask(a, key, pos) + Mask(b, key, pos + |a|)
  {
    var m := Mask(a + b, key, pos);
    forall i | |a| <= i < |a| + |b| ensures m[i] == Mask(b, key, pos + |a|)[i - |a|] {
      assert pos + i == (pos + |a|) + (i - |a|);
    }
  }

  function EncodeFrame(h: FrameHeader, payload: seq<byte>): seq<byte> {
    HeaderBytes(h, |payload|) + Mask(payload, h.key, 0)
  }

  function Flat(pieces: seq<seq<byte>>): seq<byte> {
    if pieces == [] then [] else pieces[0] + Flat(pieces[1..])
  }

  /** The wire taken off in these pieces, each unmasked from the position that the one before it reached. */
  function Unmasked(pieces: seq<seq<byte>>, key: Option<Key>, pos: nat): seq<byte> {
    if pieces == [] then [] else Mask(pieces[0], key, pos) + Unmasked(pieces[1..], key, pos + |pieces[0]|)
  }

  lemma {:induction false} PiecesAreMasked(pieces: seq<seq<byte>>, key: Option<Key>, pos: nat)
    ensures Unmasked(pieces, key, pos) == Mask(Flat(pieces), key, pos)
  {
    if pieces == [] {
      assert |Mask([], key, pos)| == 0;
    } else {
      var head, tail, next := pieces[0], pieces[1..], pos + |pieces[0]|;
      PiecesAreMasked(tail, key, next);
      MaskSplits(head, Flat(tail), key, pos);
      assert Unmasked(pieces, key, pos) == Mask(head, key, pos) + Mask(Flat(tail), key, next);
    }
  }

  lemma MaskOfPrefix(data: seq<byte>, key: Option<Key>, pos: nat, n: nat)
    requires n <= |data|
    ensures Mask(data[..n], key, pos) == Mask(data, key, pos)[..n]
  {
  }

  /** Masking with one index on the way out and unmasking with a running position on the way in gives the
      payload back, in whatever pieces its bytes arrive, and as far as they have arrived. */
  lemma PiecesUnmask(payload: seq<byte>, key: Option<Key>, pieces: seq<seq<byte>>)
    requires Flat(pieces) <= Mask(payload, key, 0)
    ensures Unmasked(pieces, key, 0) == payload[..|Flat(pieces)|]
  {
    var wire, n := Mask(payload, key, 0), |Flat(pieces)|;
    PiecesAreMasked(pieces, key, 0);
    assert Flat(pieces) == wire[..n];
    MaskOfPrefix(wire, key, 0, n);
    MaskTwice(payload, key, 0);
  }

  // ---- writing a frame ----

  /** The bytes of the length field, written most significant byte first. */
  method LengthField(length: nat, fields: nat) returns (field: seq<byte>)
    ensures field == PutUint(length, fields)
  {
    field := [];
    for i := 0 to fields
      invariant field == PutUint(Shifted(length, fields - i), i)
    {
      ShiftStep(length, fields - i - 1);
      field := field + [Shifted(length, fields - i - 1) % 256];
    }
  }

  method FirstByteOf(h: FrameHeader) returns (b: byte)
    ensures b == FirstByte(h)
  {
    b := 0;
    OrBitsZero(Bit(h.fin, 128));
    if h.fin {
      b := Or(b, 128);
    }
    OrWithZero(b);
    if h.rsv.0 { b := Or(b, 64); }
    OrWithZero(b);
    if h.rsv.1 { b := Or(b, 32); }
    OrWithZero(b);
    if h.rsv.2 { b := Or(b, 16); }
    b := Or(b, h.opCode);
  }

  lemma {:induction false} OrBitsZero(a: nat)
    ensures OrBits(0, a) == a
  {
    if a > 0 {
      OrBitsZero(a / 2);
    }
  }

  /** The loop that masks the payload. */
  method MaskData(msg: seq<byte>, key: Key) returns (data: array<byte>)
    ensures fresh(data) && data[..] == Mask(msg, Some(key), 0)
  {
    data := new byte[|msg|];
    for i := 0 to |msg|
      invariant forall j :: 0 <= j < i ==> data[j] == MaskByte(msg[j], Some(key), j)
    {
      data[i] := Xor(msg[i], key[i % 4]);
    }
    assert |Mask(msg, Some(key), 0)| == |msg|;
  }

  /** The header as far as the key. */
  method HeaderStart(h: FrameHeader, masked: bool, length: nat) returns (header: seq<byte>)
    ensures header == [FirstByte(h), Or(Bit(masked, 128), LengthCode(length))] + PutUint(length, LengthFields(length))
  {
    var b := FirstByteOf(h);
    header := [b];
    b := if masked then 128 else 0;
    var lengthFields := 0;
    if length <= 125 {
      b := Or(b, length);
    } else if length < 65536 {
      b := Or(b, 126);
      lengthFields := 2;
    } else {
      b := Or(b, 127);
      lengthFields := 8;
    }
    header := header + [b];
    var field := LengthField(length, lengthFields);
    header := header + field;
  }

  /** Every byte of a frame's header, as section 5.2 lays it out: two bytes, the extended length and the key. */
  predicate HeaderLaidOut(
      s: seq<byte>, fin: bool, rsv: (bool, bool, bool), opCode: byte, key: Option<seq<byte>>, length: nat)
    requires key.Some? ==> |key.value| == 4
  {
    var f := if length <= 125 then 0 else if length < 65536 then 2 else 8;
    && |s| == 2 + f + (if key.Some? then 4 else 0)
    && (opCode < 16 ==>
          s[0] == (if fin then 128 else 0) + (if rsv.0 then 64 else 0) + (if rsv.1 then 32 else 0)
                  + (if rsv.2 then 16 else 0) + opCode)
    && s[1] == (if key.Some? then 128 else 0) + (if f == 0 then length else if f == 2 then 126 else 127)
    && (0 < f && length < I63 ==> Uint(s[2..2 + f]) == length)
    && (key.Some? ==> s[2 + f..] == key.value)
  }

  /** Every byte of a frame: the header, and the payload, each byte of it xor-ed with the byte of the key that its
      index selects (section 5.3). */
  predicate LaidOut(
      out: seq<byte>, fin: bool, rsv: (bool, bool, bool), opCode: byte, key: Option<seq<byte>>, msg: seq<byte>)
    requires key.Some? ==> |key.value| == 4
  {
    var n := |out| - |msg|;
    && n >= 0 && HeaderLaidOut(out[..n], fin, rsv, opCode, key, |msg|)
    && forall i :: 0 <= i < |msg| ==>
         out[n + i] == if key.Some? then XorBits(msg[i], key.value[i % 4]) else msg[i]
  }

  lemma HeaderIsLaidOut(h: FrameHeader, length: nat)
    ensures HeaderLaidOut(HeaderBytes(h, length), h.fin, h.rsv, h.opCode, h.key, length)
  {
    var s, f := HeaderBytes(h, length), LengthFields(length);
    if h.opCode < 16 {
      FirstByteIsSum(h);
    }
    SecondByteIsSum(h, length);
    assert s[2..2 + f] == PutUint(length, f);
    if 0 < f && length < I63 {
      Pow256Values();
      UintPutUint(length, f);
    }
  }

  lemma FrameIsLaidOut(h: FrameHeader, msg: seq<byte>)
    ensures LaidOut(EncodeFrame(h, msg), h.fin, h.rsv, h.opCode, h.key, msg)
  {
    var header, body := HeaderBytes(h, |msg|), Mask(msg, h.key, 0);
    HeaderIsLaidOut(h, |msg|);
    assert (header + body)[..|header|] == header;
    forall i | 0 <= i < |msg| ensures (header + body)[|header| + i] == MaskByte(msg[i], h.key, i) {
      assert (header + body)[|header| + i] == body[i];
    }
  }

  /** hybiFrameWriter.Write: the bytes it hands to the connection, or None for ErrBadMaskingKey. */
  method WriteFrame(fin: bool, rsv: (bool, bool, bool), opCode: byte, key: Option<seq<byte>>, msg: seq<byte>)
    returns (out: Option<seq<byte>>)
    ensures out.None? <==> key.Some? && |key.value| != 4
    ensures out.Some? ==> out.value == EncodeFrame(FrameHeader(fin, rsv, opCode, |msg|, key), msg)
    ensures out.Some? ==> LaidOut(out.value, fin, rsv, opCode, key, msg)
  {
    if key.None? || |key.value| == 4 {
      FrameIsLaidOut(FrameHeader(fin, rsv, opCode, |msg|, key), msg);
    }
    var h := FrameHeader(fin, rsv, opCode, |msg|, None);
    var header := HeaderStart(h, key.Some?, |msg|);
    if key.Some? {
      if |key.value| != 4 {
        return None;
      }
      h := h.(key := Some(key.value));
      header := header + key.value;
      assert header == HeaderBytes(h, |msg|);
      var data := MaskData(msg, key.value);
      return Some(header + data[..]);
    }
    assert header == HeaderBytes(h, |msg|);
    assert Mask(msg, None, 0) == msg;
    return Some(header + msg);
  }
}
