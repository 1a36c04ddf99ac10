/** What a WebSocket byte sequence means to its receiver (sections 5.4, 5.5.2 and 5.5.3 of RFC 6455). */
module HybiFlow {
  import opened Options
  import opened Bytes
  import opened HybiFrame

  // ---- what a byte sequence means to its receiver ----

  /** Why nothing more can be read: the wire ended, the masking rule was broken, a close frame came, a
      ping without payload was met (io.ReadFull reports EOF for it), or a pong came (ErrNotImplemented). */
  datatype Ending = EndOfWire | BadMask | CloseSeen | EmptyPing | PongSeen

  datatype Message = Message(payloadType: byte, payload: seq<byte>)

  datatype Flowed = Flowed(messages: seq<Message>, pongs: seq<seq<byte>>, ending: Ending)

  datatype Cut = Cut(header: FrameHeader, payload: seq<byte>, after: seq<byte>)

  /** How much of the `length` bytes of a body the wire still has; io.LimitReader reads nothing if it is negative. */
  function BodySize(length: int, available: nat): (n: nat)
    ensures n <= available
  {
    if length <= 0 then 0 else if length <= available then length else available
  }

  function CutFrame(s: seq<byte>): (c: Option<Cut>)
    ensures c.Some? ==> |c.value.after| < |s|
  {
    match ParseHeader(s)
    case None => None
    case Some((h, rest)) =>
      var n := BodySize(h.length, |rest|);
      Some(Cut(h, Mask(rest[..n], h.key, 0), rest[n..]))
  }

  /** A ping is answered with its own payload, as far as one control frame can carry it. */
  function PongFor(payload: seq<byte>): seq<byte> {
    if |payload| <= MAX_CONTROL_PAYLOAD then payload else payload[..MAX_CONTROL_PAYLOAD]
  }

  /** Section 5.4: a continuation frame has the type of the frame it continues. */
  function TypeOf(opCode: byte, last: byte): byte {
    if opCode == CONTINUATION then last else opCode
  }

  function LastAfter(opCode: byte, last: byte): byte {
    if opCode == TEXT || opCode == BINARY then opCode else last
  }

  function Flow(s: seq<byte>, server: bool, last: byte): Flowed
    decreases |s|, 0
  {
    match CutFrame(s)
    case None => Flowed([], [], EndOfWire)
    case Some(c) => FlowCut(c, server, last)
  }

  function FlowCut(c: Cut, server: bool, last: byte): Flowed
    decreases |c.after|, 1
  {
    var opCode := c.header.opCode;
    if c.header.key.Some? != server then Flowed([], [], BadMask)
    else if opCode == CLOSE then Flowed([], [], CloseSeen)
    else if opCode == PONG then Flowed([], [], PongSeen)
    else if opCode == PING then
      if c.payload == [] then Flowed([], [], EmptyPing)
      else
        var more := Flow(c.after, server, last);
        more.(pongs := [PongFor(c.payload)] + more.pongs)
    else
      var more := Flow(c.after, server, LastAfter(opCode, last));
      more.(messages := [Message(TypeOf(opCode, last), c.payload)] + more.messages)
  }

  /** What the next frame means, in the numbers of the standard: the masking rule comes first (section 5.1), then
      close (8), pong (10) and ping (9); a ping of up to 125 bytes is echoed (section 5.5.3). Everything else is data,
      of the type of the last text (1) or binary (2) frame if it is a continuation (0). */
  lemma NextFrameMeans(c: Cut, server: bool, last: byte)
    ensures var flow, op := FlowCut(c, server, last), c.header.opCode;
            if c.header.key.None? == server then flow == Flowed([], [], BadMask)
            else if op == 8 then flow == Flowed([], [], CloseSeen)
            else if op == 10 then flow == Flowed([], [], PongSeen)
            else if op == 9 && c.payload == [] then flow == Flowed([], [], EmptyPing)
            else if op == 9 then
              var more := Flow(c.after, server, last);
              var echo := if |c.payload| <= 125 then c.payload else c.payload[..125];
              flow == Flowed(more.messages, [echo] + more.pongs, more.ending)
            else
              var more := Flow(c.after, server, if op == 1 || op == 2 then op else last);
              var next := Message(if op == 0 then last else op, c.payload);
              flow == Flowed([next] + more.messages, more.pongs, more.ending)
  {
  }

  function Text(ms: seq<Message>): seq<byte> {
    if ms == [] then [] else ms[0].payload + Text(ms[1..])
  }

  // ---- frames as a sender prints them ----

  datatype Frame = Frame(header: FrameHeader, payload: seq<byte>)

  function PrintAll(fs: seq<Frame>): seq<byte> {
    if fs == [] then [] else EncodeFrame(fs[0].header, fs[0].payload) + PrintAll(fs[1..])
  }

  lemma {:induction false} PrintOneMore(fs: seq<Frame>, f: Frame)
    ensures PrintAll(fs + [f]) == PrintAll(fs) + EncodeFrame(f.header, f.payload)
  {
    if fs == [] {
      assert [] + [f] == [f] && [f][1..] == [];
    } else {
      PrintOneMore(fs[1..], f);
      assert (fs + [f])[1..] == fs[1..] + [f] && (fs + [f])[0] == fs[0];
      Regroup(EncodeFrame(fs[0].header, fs[0].payload), PrintAll(fs[1..]), EncodeFrame(f.header, f.payload));
    }
  }

  /** Frames that the receiver accepts: masked by clients and by nobody else, and neither close nor pong. */
  predicate Plain(f: Frame, server: bool) {
    && f.header.opCode < 16 && f.header.opCode != CLOSE && f.header.opCode != PONG
    && |f.payload| < I63
    && f.header.key.Some? == server
    && (f.header.opCode == PING ==> f.payload != [])
  }

  predicate AllPlain(fs: seq<Frame>, server: bool) {
    forall i :: 0 <= i < |fs| ==> Plain(fs[i], server)
  }

  /** The payloads of all frames but pings, one after the other. */
  function DataOf(fs: seq<Frame>): seq<byte> {
    if fs == [] then []
    else (if fs[0].header.opCode == PING then [] else fs[0].payload) + DataOf(fs[1..])
  }

  function PongsFor(fs: seq<Frame>): seq<seq<byte>> {
    if fs == [] then []
    else (if fs[0].header.opCode == PING then [PongFor(fs[0].payload)] else []) + PongsFor(fs[1..])
  }

  /** The payloads of the ping frames. */
  function PingPayloads(fs: seq<Frame>): seq<seq<byte>> {
    if fs == [] then []
    else (if fs[0].header.opCode == 9 then [fs[0].payload] else []) + PingPayloads(fs[1..])
  }

  /** Pings that fit a control frame are answered with their own payloads, in order. */
  lemma {:induction false} PingsAreEchoed(fs: seq<Frame>)
    requires forall i :: 0 <= i < |fs| && fs[i].header.opCode == 9 ==> |fs[i].payload| <= 125
    ensures PongsFor(fs) == PingPayloads(fs)
  {
    if fs != [] {
      PingsAreEchoed(fs[1..]);
    }
  }

  /** The type of the last text or binary frame. */
  function LastOf(fs: seq<Frame>, last: byte): byte {
    if fs == [] then last else LastOf(fs[1..], LastAfter(fs[0].header.opCode, last))
  }

  function MessagesOf(fs: seq<Frame>, last: byte): seq<Message> {
    if fs == [] then []
    else
      var op := fs[0].header.opCode;
      (if op == PING then [] else [Message(TypeOf(op, last), fs[0].payload)]) + MessagesOf(fs[1..], LastAfter(op, last))
  }

  // ---- reading what was printed ----

  lemma CutPrinted(f: Frame, rest: seq<byte>)
    requires f.header.opCode < 16 && |f.payload| < I63
    ensures CutFrame(EncodeFrame(f.header, f.payload) + rest)
            == Some(Cut(f.header.(length := |f.payload|), f.payload, rest))
  {
    var m := Mask(f.payload, f.header.key, 0);
    HeaderRoundTrip(f.header, |f.payload|, m + rest);
    assert EncodeFrame(f.header, f.payload) + rest == HeaderBytes(f.header, |f.payload|) + (m + rest);
    assert (m + rest)[..|f.payload|] == m;
    assert (m + rest)[|f.payload|..] == rest;
    MaskTwice(f.payload, f.header.key, 0);
  }

  /** Frames come through unharmed and in order, whatever follows them. */
  lemma {:induction false} FlowOfFrames(fs: seq<Frame>, rest: seq<byte>, server: bool, last: byte)
    requires AllPlain(fs, server)
    ensures var more := Flow(rest, server, LastOf(fs, last));
            Flow(PrintAll(fs) + rest, server, last)
            == Flowed(MessagesOf(fs, last) + more.messages, PongsFor(fs) + more.pongs, more.ending)
  {
    var more := Flow(rest, server, LastOf(fs, last));
    if fs == [] {
      assert PrintAll(fs) + rest == rest;
      assert [] + more.messages == more.messages && [] + more.pongs == more.pongs;
    } else {
      var f, op := fs[0], fs[0].header.opCode;
      var tail := PrintAll(fs[1..]) + rest;
      Regroup(EncodeFrame(f.header, f.payload), PrintAll(fs[1..]), rest);
      CutPrinted(f, tail);
      FlowOfFrames(fs[1..], rest, server, LastAfter(op, last));
      Regroup(if op == PING then [] else [Message(TypeOf(op, last), f.payload)],
           MessagesOf(fs[1..], LastAfter(op, last)), more.messages);
      Regroup(if op == PING then [PongFor(f.payload)] else [], PongsFor(fs[1..]), more.pongs);
    }
  }

  lemma {:induction false} TextOfMessages(fs: seq<Frame>, last: byte)
    ensures Text(MessagesOf(fs, last)) == DataOf(fs)
  {
    if fs != [] {
      TextOfMessages(fs[1..], LastAfter(fs[0].header.opCode, last));
      var ms := MessagesOf(fs, last);
      if fs[0].header.opCode != PING {
        assert ms[1..] == MessagesOf(fs[1..], LastAfter(fs[0].header.opCode, last));
      } else {
        assert ms == MessagesOf(fs[1..], LastAfter(fs[0].header.opCode, last));
      }
    }
  }

  /** Reading all of a connection yields the data payloads in one piece, and one pong for each ping. */
  lemma ReadingFlattens(fs: seq<Frame>, server: bool, last: byte)
    requires AllPlain(fs, server)
    ensures var got := Flow(PrintAll(fs), server, last);
            Text(got.messages) == DataOf(fs) && got.pongs == PongsFor(fs) && got.ending == EndOfWire
  {
    FlowOfFrames(fs, [], server, last);
    assert PrintAll(fs) + [] == PrintAll(fs);
    assert MessagesOf(fs, last) + [] == MessagesOf(fs, last);
    TextOfMessages(fs, last);
  }

  lemma ReadsOnIff(f: Frame, rest: seq<byte>, server: bool, last: byte)
    requires f.header.opCode < 16 && |f.payload| < I63
    ensures Flow(EncodeFrame(f.header, f.payload) + rest, server, last).ending == EndOfWire
            <==> Plain(f, server) && Flow(rest, server, LastAfter(f.header.opCode, last)).ending == EndOfWire
  {
    CutPrinted(f, rest);
  }

  /** A connection is read to its end exactly when every frame on it is one that the receiver accepts. */
  lemma {:induction false} ReadToTheEndIff(fs: seq<Frame>, server: bool, last: byte)
    requires forall i :: 0 <= i < |fs| ==> fs[i].header.opCode < 16 && |fs[i].payload| < I63
    ensures Flow(PrintAll(fs), server, last).ending == EndOfWire <==> AllPlain(fs, server)
  {
    if fs != [] {
      ReadsOnIff(fs[0], PrintAll(fs[1..]), server, last);
      ReadToTheEndIff(fs[1..], server, LastAfter(fs[0].header.opCode, last));
      AllPlainStep(fs, server);
    }
  }

  lemma AllPlainStep(fs: seq<Frame>, server: bool)
    requires fs != []
    ensures AllPlain(fs, server) <==> Plain(fs[0], server) && AllPlain(fs[1..], server)
  {
    assert fs == [fs[0]] + fs[1..];
  }

  // ---- part of a wire ----

  lemma ParseOfPrefix(s: seq<byte>, n: nat)
    requires n <= |s| && ParseHeader(s[..n]).Some?
    ensures ParseHeader(s).Some?
    ensures var (h, rest) := ParseHeader(s).value;
            |s| - |rest| <= n && ParseHeader(s[..n]) == Some((h, rest[..n - (|s| - |rest|)]))
  {
    var f := FieldsOf(s[1] % 128);
    var k := if s[1] >= 128 then 4 else 0;
    assert s[..n][2..2 + f] == s[2..2 + f];
    assert s[..n][2 + f..2 + f + k] == s[2 + f..2 + f + k];
    assert s[..n][2 + f + k..] == s[2 + f + k..][..n - (2 + f + k)];
  }

  lemma CutOfPrefix(s: seq<byte>, n: nat)
    requires n <= |s| && CutFrame(s[..n]).Some?
    ensures CutFrame(s).Some? && CutFrame(s).value.header == CutFrame(s[..n]).value.header
    ensures var part, whole := CutFrame(s[..n]).value, CutFrame(s).value;
            part.payload <= whole.payload
            && (part.after == [] || (part.payload == whole.payload && part.after <= whole.after))
  {
    ParseOfPrefix(s, n);
    var (h, rest) := ParseHeader(s).value;
    var m := n - (|s| - |rest|);
    var size, sizeOfPart := BodySize(h.length, |rest|), BodySize(h.length, m);
    assert rest[..m][..sizeOfPart] == rest[..size][..sizeOfPart];
    MaskOfPrefix(rest[..size], h.key, 0, sizeOfPart);
    if sizeOfPart < m {
      assert rest[..m][sizeOfPart..] == rest[size..][..m - sizeOfPart];
    }
  }

  lemma PrefixUnder(a: seq<byte>, b: seq<byte>, x: seq<byte>, y: seq<byte>)
    requires a <= b
    requires x == [] || (a == b && x <= y)
    ensures a + x <= b + y
  {
  }

  /** The pongs for part of a wire are those for the whole of it, except that the last may be shorter. */
  predicate PongsUnder(part: seq<seq<byte>>, whole: seq<seq<byte>>) {
    && |part| <= |whole|
    && (forall i :: 0 <= i < |part| ==> part[i] <= whole[i])
    && (forall i :: 0 <= i < |part| - 1 ==> part[i] == whole[i])
  }

  lemma PongsUnderCons(a: seq<byte>, b: seq<byte>, part: seq<seq<byte>>, whole: seq<seq<byte>>)
    requires a <= b && PongsUnder(part, whole)
    requires part == [] || a == b
    ensures PongsUnder([a] + part, [b] + whole)
  {
  }

  predicate Under(part: Flowed, whole: Flowed) {
    Text(part.messages) <= Text(whole.messages) && PongsUnder(part.pongs, whole.pongs)
  }

  lemma FlowOfNothing(server: bool, last: byte)
    ensures Flow([], server, last) == Flowed([], [], EndOfWire)
  {
  }

  lemma TextCons(m: Message, ms: seq<Message>)
    ensures Text([m] + ms) == m.payload + Text(ms)
  {
    assert ([m] + ms)[1..] == ms;
  }

  lemma UnderStep(part: Cut, whole: Cut, server: bool, last: byte)
    requires part.header == whole.header && part.payload <= whole.payload
    requires part.after == [] || part.payload == whole.payload
    requires forall l :: Under(Flow(part.after, server, l), Flow(whole.after, server, l))
    ensures Under(FlowCut(part, server, last), FlowCut(whole, server, last))
  {
    var op := part.header.opCode;
    FlowOfNothing(server, last);
    FlowOfNothing(server, LastAfter(op, last));
    var p, w := Flow(part.after, server, last), Flow(whole.after, server, last);
    if op == PING {
      if part.header.key.Some? == server && part.payload != [] {
        PongsUnderCons(PongFor(part.payload), PongFor(whole.payload), p.pongs, w.pongs);
      }
    } else {
      var p, w := Flow(part.after, server, LastAfter(op, last)), Flow(whole.after, server, LastAfter(op, last));
      TextCons(Message(TypeOf(op, last), part.payload), p.messages);
      TextCons(Message(TypeOf(op, last), whole.payload), w.messages);
      PrefixUnder(part.payload, whole.payload, Text(p.messages), Text(w.messages));
    }
  }

  /** Whatever has arrived so far, of any wire, reads as the beginning of what the whole of it reads as. */
  lemma {:induction false} FlowOfPrefix(s: seq<byte>, n: nat, server: bool, last: byte)
    requires n <= |s|
    ensures Under(Flow(s[..n], server, last), Flow(s, server, last))
    decreases |s|
  {
    if CutFrame(s[..n]).Some? {
      CutOfPrefix(s, n);
      var part, whole := CutFrame(s[..n]).value, CutFrame(s).value;
      var m := if part.after == [] then 0 else |part.after|;
      assert part.after == whole.after[..m];
      forall l: byte ensures Under(Flow(part.after, server, l), Flow(whole.after, server, l)) {
        FlowOfPrefix(whole.after, m, server, l);
      }
      UnderStep(part, whole, server, last);
    }
  }
}
