/** Packets as bytes: what the send loop writes, and how the recv loop cuts it up again. */
module YamuxWire {
  import opened Options
  import opened Bytes
  import opened YamuxHeader
  import opened YamuxTypes
  import opened YamuxSession
  import opened Source

  // ---- sending ----

  function HeaderOf(p: Packet): (h: Header)
    ensures InRange(h)
  {
    match p
    case OnStream(id, Data(flags, payload)) => Header(PROTO_VERSION, TYPE_DATA, FlagBits(flags), id, |payload|)
    case OnStream(id, WindowUpdate(flags, delta)) =>
      Header(PROTO_VERSION, TYPE_WINDOW_UPDATE, FlagBits(flags), id, delta)
    case PingPacket(ack, id) => Header(PROTO_VERSION, TYPE_PING, FlagBits(if ack then ACK else SYN), 0, id)
    case GoAwayPacket(code) => Header(PROTO_VERSION, TYPE_GO_AWAY, 0, 0, code)
  }

  function BodyOf(p: Packet): seq<byte> {
    if p.OnStream? && p.frame.Data? then p.frame.payload else []
  }

  function EncodePacket(p: Packet): seq<byte> {
    Encode(HeaderOf(p)) + BodyOf(p)
  }

  function EncodeAll(ps: seq<Packet>): seq<byte> {
    if ps == [] then [] else EncodePacket(ps[0]) + EncodeAll(ps[1..])
  }

  // ---- receiving ----

  /** A frame as recv sees it: only data frames are followed by a body. */
  datatype Raw = Raw(header: Header, body: seq<byte>)

  datatype Ending = CleanEnd | CutShort | BadVersion | BadType

  datatype Parsed = Parsed(frames: seq<Raw>, ending: Ending)

  function BodyLength(h: Header): nat {
    if h.msgType == TYPE_DATA then h.length else 0
  }

  function ParseAll(s: seq<byte>): Parsed {
    if |s| < HEADER_SIZE then
      Parsed([], if s == [] then CleanEnd else CutShort)
    else
      var h := Decode(s[..HEADER_SIZE]);
      if h.version != PROTO_VERSION then Parsed([], BadVersion)
      else if h.msgType > TYPE_GO_AWAY then Parsed([], BadType)
      else
        var rest := s[HEADER_SIZE..];
        if |rest| < BodyLength(h) then Parsed([Raw(h, rest)], CutShort)
        else
          var p := ParseAll(rest[BodyLength(h)..]);
          p.(frames := [Raw(h, rest[..BodyLength(h)])] + p.frames)
  }

  /** The meaning of a well-formed frame, as the handlers take it apart. */
  function PacketOf(r: Raw): (p: Option<Packet>) {
    var flags := FlagsOf(r.header.flags);
    if !InRange(r.header) || |r.body| >= U32 then None
    else if r.header.msgType == TYPE_DATA then Some(OnStream(r.header.streamId, Data(flags, r.body)))
    else if r.header.msgType == TYPE_WINDOW_UPDATE then
      Some(OnStream(r.header.streamId, WindowUpdate(flags, r.header.length)))
    else if r.header.msgType == TYPE_PING then Some(PingPacket(!flags.syn, r.header.length))
    else Some(GoAwayPacket(r.header.length))
  }

  function RawOf(p: Packet): Raw {
    Raw(HeaderOf(p), BodyOf(p))
  }

  function RawsOf(ps: seq<Packet>): seq<Raw> {
    if ps == [] then [] else [RawOf(ps[0])] + RawsOf(ps[1..])
  }

  lemma FlagsRoundTrip(f: Flags)
    ensures FlagsOf(FlagBits(f)) == f
  {
  }

  lemma PacketRoundTrip(p: Packet)
    ensures PacketOf(RawOf(p)) == Some(p)
  {
    if p.OnStream? {
      FlagsRoundTrip(p.frame.flags);
    }
    FlagsRoundTrip(ACK);
    FlagsRoundTrip(SYN);
  }

  /** One encoded packet is cut off exactly where it ends, whatever follows. */
  lemma ParsePacket(p: Packet, rest: seq<byte>)
    ensures ParseAll(EncodePacket(p) + rest) == ParseAll(rest).(frames := [RawOf(p)] + ParseAll(rest).frames)
  {
    var s := EncodePacket(p) + rest;
    DecodeEncode(HeaderOf(p));
    assert s[..HEADER_SIZE] == Encode(HeaderOf(p));
    assert s[HEADER_SIZE..] == BodyOf(p) + rest;
    assert BodyLength(HeaderOf(p)) == |BodyOf(p)|;
    assert (BodyOf(p) + rest)[..|BodyOf(p)|] == BodyOf(p);
    assert (BodyOf(p) + rest)[|BodyOf(p)|..] == rest;
  }

  /** Everything the send loop writes is cut into the same packets by the recv loop. */
  lemma {:induction false} ParseEncodeAll(ps: seq<Packet>)
    ensures ParseAll(EncodeAll(ps)) == Parsed(RawsOf(ps), CleanEnd)
  {
    if ps != [] {
      ParsePacket(ps[0], EncodeAll(ps[1..]));
      ParseEncodeAll(ps[1..]);
    }
  }

  /** `q` is what becomes of the packets `ps` when only some of their bytes have arrived. */
  predicate PartOf(q: Parsed, ps: seq<Packet>) {
    && q.ending in {CleanEnd, CutShort}
    && |q.frames| <= |ps|
    && (forall i :: 0 <= i < |q.frames| ==> q.frames[i].header == HeaderOf(ps[i]) && q.frames[i].body <= BodyOf(ps[i]))
    && (forall i :: 0 <= i < |q.frames| - 1 ==> q.frames[i].body == BodyOf(ps[i]))
  }

  lemma ParseShort(p: Packet, ps: seq<Packet>, n: nat)
    requires n < |EncodePacket(p)|
    ensures PartOf(ParseAll(EncodePacket(p)[..n]), [p] + ps)
  {
    var s := EncodePacket(p)[..n];
    DecodeEncode(HeaderOf(p));
    if n >= HEADER_SIZE {
      assert s[..HEADER_SIZE] == Encode(HeaderOf(p));
      assert s[HEADER_SIZE..] == BodyOf(p)[..n - HEADER_SIZE];
    }
  }

  lemma PartGrows(q: Parsed, p: Packet, ps: seq<Packet>)
    requires PartOf(q, ps)
    ensures PartOf(q.(frames := [RawOf(p)] + q.frames), [p] + ps)
  {
  }

  /** Whatever has arrived so far, recv has taken it apart correctly: its frames are those that were sent
      first, in order, and only the last may still lack part of its body. */
  lemma {:induction false} ParsePrefix(ps: seq<Packet>, n: nat)
    requires n <= |EncodeAll(ps)|
    ensures PartOf(ParseAll(EncodeAll(ps)[..n]), ps)
  {
    if ps != [] {
      var one, rest := EncodePacket(ps[0]), EncodeAll(ps[1..]);
      assert ps == [ps[0]] + ps[1..];
      if n >= |one| {
        var m := n - |one|;
        ParsePrefix(ps[1..], m);
        assert (one + rest)[..n] == one + rest[..m];
        ParsePacket(ps[0], rest[..m]);
        PartGrows(ParseAll(rest[..m]), ps[0], ps[1..]);
      } else {
        assert (one + rest)[..n] == one[..n];
        ParseShort(ps[0], ps[1..], n);
      }
    }
  }

  // ---- the recv loop ----

  /** What became of a frame: its body went to its stream, or was drained because there is no such stream. */
  datatype Handled = Delivered(header: Header, body: seq<byte>) | Dropped(header: Header)

  /** A session as the loop sees it: which streams it has, and which frames make its handlers fail, both
      depending on the frames that came before. */
  datatype Handlers = Handlers(known: (seq<Raw>, u32) -> bool, fails: (seq<Raw>, Raw) -> bool)

  function Handle(r: Raw, before: seq<Raw>, hs: Handlers): (d: Handled)
    requires InRange(r.header)
    ensures HandledAs(d, r, before, hs)
  {
    if r.header.msgType > TYPE_WINDOW_UPDATE || hs.known(before, r.header.streamId) then Delivered(r.header, r.body)
    else Dropped(r.header)
  }

  /** What twelve bytes, or fewer at the end of the connection, are the beginning of. */
  datatype Beginning = Begins(header: Header) | Ends(ending: Ending)

  function BeginningOf(hdr: seq<byte>): (b: Beginning)
    requires |hdr| <= HEADER_SIZE
    ensures b.Begins? ==> |hdr| == HEADER_SIZE && InRange(b.header)
  {
    if |hdr| < HEADER_SIZE then Ends(if hdr == [] then CleanEnd else CutShort)
    else
      var h := Decode(hdr);
      if h.version != PROTO_VERSION then Ends(BadVersion)
      else if h.msgType > TYPE_GO_AWAY then Ends(BadType)
      else Begins(h)
  }

  /** What a turn of recv found: a frame, or the end, or a frame that the end cut short. */
  predicate Turned(before: seq<byte>, r: Option<Raw>, ending: Option<Ending>, rest: seq<byte>) {
    && (r.Some? ==> InRange(r.value.header))
    && (ending.None? ==>
          && r.Some? && |rest| < |before|
          && ParseAll(before) == ParseAll(rest).(frames := [r.value] + ParseAll(rest).frames))
    && (ending.Some? ==> ParseAll(before) == Parsed(if r.Some? then [r.value] else [], ending.value))
  }

  lemma NoFrame(before: seq<byte>, hdr: seq<byte>, rest: seq<byte>)
    requires |hdr| <= HEADER_SIZE && before == hdr + rest && (|hdr| < HEADER_SIZE ==> rest == [])
    requires BeginningOf(hdr).Ends?
    ensures Turned(before, None, Some(BeginningOf(hdr).ending), rest)
  {
    if |hdr| == HEADER_SIZE {
      assert before[..HEADER_SIZE] == hdr;
    } else {
      assert before == hdr;
    }
  }

  lemma OneFrame(before: seq<byte>, hdr: seq<byte>, body: seq<byte>, rest: seq<byte>)
    requires |hdr| <= HEADER_SIZE && before == hdr + (body + rest) && BeginningOf(hdr).Begins?
    requires |body| == BodyLength(BeginningOf(hdr).header)
    ensures Turned(before, Some(Raw(BeginningOf(hdr).header, body)), None, rest)
  {
    assert before[..HEADER_SIZE] == hdr && before[HEADER_SIZE..] == body + rest;
    assert (body + rest)[..|body|] == body && (body + rest)[|body|..] == rest;
  }

  lemma CutFrame(before: seq<byte>, hdr: seq<byte>, body: seq<byte>)
    requires |hdr| <= HEADER_SIZE && before == hdr + body && BeginningOf(hdr).Begins?
    requires |body| < BodyLength(BeginningOf(hdr).header)
    ensures Turned(before, Some(Raw(BeginningOf(hdr).header, body)), Some(CutShort), [])
  {
    assert before[..HEADER_SIZE] == hdr && before[HEADER_SIZE..] == body;
  }

  /** One turn of recv: the frame it found, if any, and how the connection ended, if it did. */
  method RecvFrame(conn: Reader) returns (r: Option<Raw>, ending: Option<Ending>)
    modifies conn
    ensures Turned(old(conn.data), r, ending, conn.data)
  {
    ghost var before := conn.data;
    var hdr := conn.ReadUpTo(HEADER_SIZE);
    match BeginningOf(hdr) {
      case Ends(e) =>
        NoFrame(before, hdr, conn.data);
        return None, Some(e);
      case Begins(h) =>
        var body := conn.ReadUpTo(BodyLength(h));
        if |body| < BodyLength(h) {
          assert body + [] == body;
          CutFrame(before, hdr, body);
          return Some(Raw(h, body)), Some(CutShort);
        }
        OneFrame(before, hdr, body, conn.data);
        return Some(Raw(h, body)), None;
    }
  }

  function After(done: seq<Raw>, p: Parsed): Parsed {
    p.(frames := done + p.frames)
  }

  lemma AfterOne(done: seq<Raw>, r: Raw, p: Parsed)
    ensures After(done, p.(frames := [r] + p.frames)) == After(done + [r], p)
  {
    assert done + ([r] + p.frames) == (done + [r]) + p.frames;
  }

  /** A frame is delivered, with all of its body, unless it is for a stream and there is no such stream. */
  predicate HandledAs(d: Handled, r: Raw, before: seq<Raw>, hs: Handlers)
    requires InRange(r.header)
  {
    var forStream := r.header.msgType == TYPE_DATA || r.header.msgType == TYPE_WINDOW_UPDATE;
    && (!forStream || hs.known(before, r.header.streamId) ==> d == Delivered(r.header, r.body))
    && (forStream && !hs.known(before, r.header.streamId) ==> d == Dropped(r.header))
  }

  /** The frames were handled one by one, and none of them made its handler fail. */
  predicate Logs(log: seq<Handled>, frames: seq<Raw>, hs: Handlers) {
    && |log| == |frames|
    && forall i :: 0 <= i < |log| ==>
         && InRange(frames[i].header) && !hs.fails(frames[..i], frames[i])
         && HandledAs(log[i], frames[i], frames[..i], hs)
  }

  lemma LogsOneMore(log: seq<Handled>, frames: seq<Raw>, r: Raw, hs: Handlers)
    requires Logs(log, frames, hs) && InRange(r.header) && !hs.fails(frames, r)
    ensures Logs(log + [Handle(r, frames, hs)], frames + [r], hs)
  {
    var more := frames + [r];
    assert more[..|frames|] == frames;
    forall i | 0 <= i < |frames| ensures more[i] == frames[i] && more[..i] == frames[..i] {
      assert more[..i] == frames[..i];
    }
  }

  /** Why the loop ended: with the connection, or because a handler failed. */
  datatype Stop = AtEnd(ending: Ending) | HandlerFailed

  /** The frames of `all` were handled, in order, up to the first whose handler fails. */
  predicate Received(log: seq<Handled>, stop: Stop, all: Parsed, hs: Handlers) {
    && |log| <= |all.frames| && Logs(log, all.frames[..|log|], hs)
    && match stop
       case AtEnd(ending) => ending == all.ending && |log| == |all.frames|
       case HandlerFailed => |log| < |all.frames| && hs.fails(all.frames[..|log|], all.frames[|log|])
  }

  /** What recv has handled so far, and the bookkeeping of its loop. */
  class Receiver {
    const hs: Handlers
    var log: seq<Handled>
    var done: seq<Raw>
    ghost const all: Parsed   // everything that the connection holds

    constructor (hs: Handlers, ghost all: Parsed)
      ensures this.hs == hs && this.all == all && Expects(all)
    {
      this.hs, this.all := hs, all;
      log, done := [], [];
      new;
      assert After([], all) == all;
    }

    /** What has been handled, followed by `rest`, is everything. */
    ghost predicate Expects(rest: Parsed)
      reads this
    {
      all == After(done, rest) && Logs(log, done, hs)
    }

    /** The frame of a turn goes to its handler. */
    method Account(r: Option<Raw>, e: Option<Ending>, ghost before: seq<byte>, ghost rest: seq<byte>)
      returns (stop: Option<Stop>)
      requires Expects(ParseAll(before)) && Turned(before, r, e, rest)
      modifies this`log, this`done
      ensures if stop.None? then e.None? && Expects(ParseAll(rest)) else Received(log, stop.value, all, hs)
    {
      ghost var left := if e.Some? then Parsed([], e.value) else ParseAll(rest);
      if r.Some? {
        AfterOne(done, r.value, left);
        Split(done, r.value, left.frames);
        if hs.fails(done, r.value) {
          return Some(HandlerFailed);
        }
        LogsOneMore(log, done, r.value, hs);
        log, done := log + [Handle(r.value, done, hs)], done + [r.value];
      }
      if e.Some? {
        assert all == After(done, left);
        assert all.frames == done && all.frames[..|log|] == done;
        return Some(AtEnd(e.value));
      }
      return None;
    }
  }

  /** recv with its handlers reduced to what they take off the connection, over reads of any size. */
  method Recv(conn: Reader, hs: Handlers) returns (log: seq<Handled>, stop: Stop)
    modifies conn
    ensures Received(log, stop, ParseAll(old(conn.data)), hs)
  {
    var receiver := new Receiver(hs, ParseAll(conn.data));
    while true
      invariant fresh(receiver) && receiver.hs == hs && receiver.all == ParseAll(old(conn.data))
      invariant receiver.Expects(ParseAll(conn.data))
      decreases |conn.data|
    {
      ghost var before := conn.data;
      var r, e := RecvFrame(conn);
      var s := receiver.Account(r, e, before, conn.data);
      if s.Some? {
        return receiver.log, s.value;
      }
    }
  }

  lemma Split(done: seq<Raw>, r: Raw, rest: seq<Raw>)
    ensures var all := (done + [r]) + rest; all[..|done|] == done && all[|done|] == r
  {
  }
}
