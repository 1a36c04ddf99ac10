/** Two sessions at work as objects: one opens a stream, writes and closes it, the other accepts and reads. */
module YamuxExchange {
  import opened Options
  import opened Bytes
  import opened YamuxHeader
  import opened YamuxTypes
  import opened YamuxEnd
  import opened YamuxSession
  import opened YamuxWire
  import opened YamuxStream

  // ---- the side that opens ----

  /** The end of a stream that OpenStream has returned. */
  function Opened(max: u32): End {
    FreshEnd(Opener, max).(phase := Live, handed := true, state := SynSent,
                           recvWindow := Add32(INITIAL_STREAM_WINDOW, UpdateDelta(max, INITIAL_STREAM_WINDOW)))
  }

  function FirstFrame(max: u32): Frame {
    WindowUpdate(SYN, UpdateDelta(max, INITIAL_STREAM_WINDOW))
  }

  lemma OpenCallIs(max: u32)
    ensures OpenCall(max) == Moved(Opened(max), [FirstFrame(max)])
  {
    UpdateCallIs(Apply(FreshEnd(Opener, max), Open).e);
  }

  function Finished(e: End): End {
    e.(state := LocalClose, finDue := false, finMark := Some(|e.sent|), finsSent := e.finsSent + 1)
  }

  const LAST_FRAME: Frame := WindowUpdate(FIN, 0)

  lemma CloseCallIs(e: End)
    requires e.handed && e.updater.Free? && !e.finDue && e.state.SynSent?
    ensures CloseCall(e) == Moved(Finished(e), [LAST_FRAME])
  {
  }

  method OpenStreamOnly(session: Session) returns (stream: Stream?)
    requires session.Valid()
    modifies session`nextStreamID, session`streams, session`sendCh
    ensures session.Valid()
    ensures stream == null <==> session.remoteGoAway || old(session.nextStreamID) >= U32 - 2
    ensures stream != null ==>
              && fresh(stream) && fresh(stream.sendHdr) && fresh(stream.controlHdr) && stream.Valid()
              && stream.session == session && stream.id == old(session.nextStreamID)
              && session.streams == old(session.streams)[stream.id := stream]
              && stream.Shows(Opened(session.max))
              && session.sendCh == old(session.sendCh) + ReadiesOf(stream.id, [FirstFrame(session.max)])
  {
    OpenCallIs(session.max);
    stream := session.OpenStream(0);
  }

  method CloseOnly(stream: Stream, ghost e: End)
    requires stream.Valid() && stream.Shows(e)
    requires e.handed && e.updater.Free? && !e.finDue && e.state.SynSent?
    modifies stream`state, stream`recvToken, stream`sendToken, stream.controlHdr
    modifies stream.session`streams, stream.session`sendCh
    ensures stream.Shows(Finished(e)) && stream.session.streams == old(stream.session.streams)
    ensures stream.session.sendCh == old(stream.session.sendCh) + ReadiesOf(stream.id, [LAST_FRAME])
  {
    CloseCallIs(e);
    var ok := stream.Close(e);
  }

  /** OpenStream, Write and Close on a session. OpenCallIs and CloseCallIs say which actions the first and the last
      are; `w` is what the write in between does to the new stream. */
  method OpenWriteClose(session: Session, b: seq<byte>)
    returns (stream: Stream?, total: nat, r: WriteResult, ghost w: Written)
    requires session.Valid()
    modifies session`nextStreamID, session`streams, session`sendCh
    ensures session.Valid()
    ensures stream == null <==> session.remoteGoAway || old(session.nextStreamID) >= U32 - 2
    ensures stream != null ==>
              && fresh(stream) && stream.Valid() && stream.id == old(session.nextStreamID)
              && session.streams == old(session.streams)[stream.id := stream]
              && w == WriteRun(Opened(session.max), b, []) && total == w.total && r == w.result
              && stream.Shows(Finished(w.e))
              && session.sendCh ==
                   old(session.sendCh) + ReadiesOf(stream.id, [FirstFrame(session.max)] + (w.out + [LAST_FRAME]))
  {
    ghost var start := Opened(session.max);
    total, r, w := 0, Done, Written(start, [], 0, Done);
    stream := OpenStreamOnly(session);
    if stream == null {
      return;
    }
    total, r, w := stream.Write(b, [], start);
    WriteKeepsState(start, b, [], w);
    CloseOnly(stream, w.e);
    ghost var first := [FirstFrame(session.max)];
    PostedMore(old(session.sendCh), stream.id, first, w.out);
    PostedMore(old(session.sendCh), stream.id, first + w.out, [LAST_FRAME]);
    Regroup(first, w.out, [LAST_FRAME]);
  }

  // ---- the side that accepts ----

  /** Frames for a stream that is already there, one after the other. */
  function HandleRun(e: End, frames: seq<Frame>): (o: Outcome)
    requires e.rx == []
    ensures o.Moved? ==> o.e.rx == []
    decreases |frames|
  {
    if frames == [] then Moved(e, [])
    else
      match HandleCall(e, frames[0], Admit)
      case Failed(error) => Failed(error)
      case Moved(e1, _) => HandleRun(e1, frames[1..])
  }

  predicate NoSyn(frames: seq<Frame>) {
    forall i :: 0 <= i < |frames| ==> !frames[i].flags.syn
  }

  /** What send was given, as recv finds it on the wire: header and body are decoded, and handed on. */
  method HandleReady(session: Session, ready: Ready, ghost id: u32, ghost f: Frame, ghost e: End)
    returns (ok: bool, ghost o: Outcome)
    requires session.Valid() && session.Represents(id, e) && e.max == session.max && e.rx == []
    requires ready == ReadyOf(OnStream(id, f))
    modifies session`streams, session`acceptCh, session`sendCh, session`localGoAway
    modifies if id in session.streams then {session.streams[id]} else {}
    ensures o == HandleCall(e, f, old(session.AdmissionNow())) && session.Became(o, ok, id, old(session.sendCh))
    ensures session.Valid() && (ok ==> session.localGoAway == old(session.localGoAway))
    ensures if f.flags.syn && old(session.AdmissionNow()).Admit? && id !in old(session.streams)
            then session.Queued(id) && (ok ==> session.acceptCh[|old(session.acceptCh)|].Shows(o.e))
            else session.acceptCh == old(session.acceptCh) && session.StaysOrLeaves(id)
    ensures id in old(session.streams) && ok ==> old(session.streams[id]).Shows(o.e)
  {
    DecodeEncode(HeaderOf(OnStream(id, f)));
    PacketRoundTrip(OnStream(id, f));
    var p := PacketOf(Raw(Decode(ready.hdr), ready.body));
    assert p == Some(OnStream(id, f));
    ok, o := session.HandleStreamMessage(p.value.id, p.value.frame, e);
  }

  /** The stream of an incoming connection is what `e` says, in and out of the table. */
  ghost predicate Follows(session: Session, stream: Stream, e: End)
    reads session, session.streams.Values, stream
  {
    && session.Valid() && session.Represents(stream.id, e) && stream.Shows(e)
    && e.max == session.max && e.rx == []
    && (stream.id in session.streams ==> session.streams[stream.id] == stream)
  }

  /** A frame without SYN, for a stream that is there or has been. */
  method HandleMore(session: Session, stream: Stream, ready: Ready, ghost f: Frame, ghost e: End) returns (ok: bool)
    requires Follows(session, stream, e) && !f.flags.syn && ready == ReadyOf(OnStream(stream.id, f))
    modifies session`streams, session`acceptCh, session`sendCh, session`localGoAway, stream
    ensures session.Valid() && session.acceptCh == old(session.acceptCh) && ok == HandleCall(e, f, Admit).Moved?
    ensures ok ==>
              && Follows(session, stream, HandleCall(e, f, Admit).e)
              && session.sendCh == old(session.sendCh) && session.localGoAway == old(session.localGoAway)
  {
    ghost var o;
    NoAdmissionAsked(e, f, session.AdmissionNow());
    ok, o := HandleReady(session, ready, stream.id, f, e);
  }

  method HandleReadies(session: Session, stream: Stream, readies: seq<Ready>, ghost frames: seq<Frame>, ghost e: End)
    returns (ok: bool)
    requires Follows(session, stream, e) && NoSyn(frames) && readies == ReadiesOf(stream.id, frames)
    modifies session`streams, session`acceptCh, session`sendCh, session`localGoAway, stream
    ensures session.Valid() && session.acceptCh == old(session.acceptCh) && ok == HandleRun(e, frames).Moved?
    ensures ok ==>
              && Follows(session, stream, HandleRun(e, frames).e)
              && session.sendCh == old(session.sendCh) && session.localGoAway == old(session.localGoAway)
  {
    ghost var now, whole := e, HandleRun(e, frames);
    ok := true;
    for i := 0 to |readies|
      invariant Follows(session, stream, now) && session.acceptCh == old(session.acceptCh)
      invariant ok && whole == HandleRun(now, frames[i..])
      invariant session.sendCh == old(session.sendCh) && session.localGoAway == old(session.localGoAway)
    {
      HandleRunStep(now, frames[i..]);
      assert frames[i..][0] == frames[i] && frames[i..][1..] == frames[i + 1..];
      ok := HandleMore(session, stream, readies[i], frames[i], now);
      if !ok {
        return;
      }
      now := HandleCall(now, frames[i], Admit).e;
    }
  }

  lemma HandleRunStep(e: End, frames: seq<Frame>)
    requires e.rx == [] && frames != []
    ensures var o := HandleCall(e, frames[0], Admit);
            HandleRun(e, frames) == if o.Failed? then o else HandleRun(o.e, frames[1..])
  {
  }

  /** Without SYN nothing is asked of incomingStream, and no frame is answered. */
  lemma NoAdmissionAsked(e: End, f: Frame, admission: Admission)
    requires !f.flags.syn
    ensures HandleCall(e, f, admission) == HandleCall(e, f, Admit)
    ensures HandleCall(e, f, Admit).Moved? ==> HandleCall(e, f, Admit).out == []
  {
  }

  lemma {:induction false} HandleRunLeaves(e: End, frames: seq<Frame>)
    requires e.rx == [] && NoSyn(frames) && HandleRun(e, frames).Moved?
    ensures var h := HandleRun(e, frames).e;
            h.role == e.role && h.max == e.max && h.handed == e.handed && h.updater == e.updater
    decreases |frames|
  {
    if frames != [] {
      HandleLeaves(e, frames[0]);
      HandleRunLeaves(HandleCall(e, frames[0], Admit).e, frames[1..]);
    }
  }

  lemma HandleLeaves(e: End, f: Frame)
    requires !f.flags.syn && e.rx == [] && HandleCall(e, f, Admit).Moved?
    ensures var h := HandleCall(e, f, Admit).e;
            h.role == e.role && h.max == e.max && h.handed == e.handed && h.updater == e.updater
  {
  }

  /** The end of an incoming stream once its SYN has been handled. */
  function Incoming(max: u32, delta: u32): End {
    FreshEnd(Acceptor, max).(phase := Live, sendWindow := Add32(INITIAL_STREAM_WINDOW, delta),
                             credit := INITIAL_STREAM_WINDOW + delta)
  }

  lemma SynIsHandled(max: u32, delta: u32)
    ensures HandleCall(FreshEnd(Acceptor, max), WindowUpdate(SYN, delta), Admit) == Moved(Incoming(max, delta), [])
  {
  }

  /** AcceptStream, as actions of the stream's end. */
  function AcceptCall(e: End): Outcome
    requires Enabled(e, Accept)
  {
    UpdateCall(Apply(e, Accept).e)
  }

  lemma AcceptHands(e: End)
    requires Enabled(e, Accept)
    ensures var o := AcceptCall(e);
            o.Moved? && o.e.handed && o.e.updater.Free? && o.e.max == e.max && o.e.buf == e.buf
            && o.e.state == SendFlags(e.state).1
  {
    UpdateCallIs(Apply(e, Accept).e);
  }

  /** The SYN of a stream that the session has room for. */
  method HandleFirst(session: Session, ghost id: u32, syn: Ready, ghost delta: u32) returns (stream: Stream)
    requires session.Valid() && id !in session.streams && session.acceptCh == [] && session.AdmissionNow().Admit?
    requires syn == ReadyOf(OnStream(id, WindowUpdate(SYN, delta)))
    modifies session`streams, session`acceptCh, session`sendCh, session`localGoAway
    ensures fresh(stream) && fresh(stream.controlHdr) && stream.id == id && session.acceptCh == [stream]
    ensures Follows(session, stream, Incoming(session.max, delta))
  {
    SynIsHandled(session.max, delta);
    ghost var o;
    var ok;
    ok, o := HandleReady(session, syn, id, WindowUpdate(SYN, delta), FreshEnd(Acceptor, session.max));
    stream := session.acceptCh[0];
  }

  /** What one pass of Read answers, by the state of the stream. */
  predicate Answers(r: ReadResult, e: End, n: nat) {
    && (r.Eof? <==> (e.state.RemoteClose? || e.state.Closed?) && e.buf == [])
    && (r.ConnectionReset? <==> e.state.Reset?)
    && (r.Blocked? <==> !r.Eof? && !r.ConnectionReset? && e.buf == [])
    && (r.Got? ==> e.buf != [] && r.data == e.buf[..Min(n, |e.buf|)])
  }

  /** AcceptStream and one pass of Read. */
  method AcceptAndRead(session: Session, n: nat, ghost e: End) returns (stream: Stream, r: ReadResult)
    requires session.Valid() && |session.acceptCh| == 1 && session.acceptCh[0].Shows(e)
    requires Enabled(e, Accept) && e.max == session.max
    modifies session`acceptCh, session`sendCh, session.acceptCh[0], session.acceptCh[0].controlHdr
    ensures session.Valid() && session.acceptCh == [] && stream == old(session.acceptCh[0]) && stream.Valid()
    ensures AcceptCall(e).e.handed && AcceptCall(e).e.updater.Free? && Answers(r, AcceptCall(e).e, n)
    ensures r.Got? ==> stream.Shows(ReadCall(AcceptCall(e).e, |r.data|).e)
  {
    AcceptHands(e);
    stream := session.AcceptStream(e);
    r := stream.TryRead(n, AcceptCall(e).e);
  }

  /** An incoming stream from its SYN to the first Read: handleStreamMessage for all its frames, AcceptStream and
      one pass of Read. No stream is accepted when a frame breaks the protocol or resets the stream. */
  method ReceiveAcceptRead(
      session: Session, ghost id: u32, syn: Ready, rest: seq<Ready>, n: nat, ghost delta: u32, ghost frames: seq<Frame>)
    returns (stream: Stream?, r: ReadResult, ghost h: Outcome)
    requires session.Valid() && id !in session.streams && session.acceptCh == [] && session.AdmissionNow().Admit?
    requires syn == ReadyOf(OnStream(id, WindowUpdate(SYN, delta))) && NoSyn(frames) && rest == ReadiesOf(id, frames)
    modifies session`streams, session`acceptCh, session`sendCh, session`localGoAway
    ensures session.Valid() && h == HandleRun(Incoming(session.max, delta), frames)
    ensures stream != null <==> h.Moved? && h.e.phase.Live?
    ensures stream != null ==>
              && fresh(stream) && stream.Valid() && session.acceptCh == []
              && Enabled(h.e, Accept) && Answers(r, AcceptCall(h.e).e, n)
              && AcceptCall(h.e).e.handed && AcceptCall(h.e).e.updater.Free?
              && (r.Got? ==> stream.Shows(ReadCall(AcceptCall(h.e).e, |r.data|).e))
  {
    r := Blocked;
    ghost var start := Incoming(session.max, delta);
    h := HandleRun(start, frames);
    var first := HandleFirst(session, id, syn, delta);
    var ok := HandleReadies(session, first, rest, frames, start);
    if !ok || first.id !in session.streams {
      return null, r, h;
    }
    HandleRunLeaves(start, frames);
    stream, r := AcceptAndRead(session, n, h.e);
  }

  // ---- what the frames of a write do at the receiver ----

  predicate PlainData(frames: seq<Frame>) {
    forall i :: 0 <= i < |frames| ==> frames[i].Data? && frames[i].flags == NONE
  }

  lemma {:induction false} WritesPlainData(e: End, b: seq<byte>, grants: seq<u32>, w: Written)
    requires e.handed && e.writer.Idle? && !e.state.Init? && !e.state.SynReceived? && w == WriteRun(e, b, grants)
    ensures PlainData(w.out)
    decreases |grants|, |b|
  {
    if b != [] && MayWrite(e.state) {
      if e.sendWindow == 0 {
        if grants != [] {
          WritesPlainData(GrantCall(e, grants[0]), b, grants[1..], w);
        }
      } else if WriteSize(e.sendWindow, |b|) > 0 {
        var rest := b[WriteSize(e.sendWindow, |b|)..];
        WritesPlainData(PassEnd(e, b), rest, grants, WriteRun(PassEnd(e, b), rest, grants));
      }
    }
  }

  /** Received within the window, they add up in the buffer. */
  lemma {:induction false} DataAddsUp(e: End, frames: seq<Frame>)
    requires e.phase.Live? && e.rx == [] && PlainData(frames) && Link.DataBytes(frames) <= e.recvWindow
    ensures HandleRun(e, frames) ==
              Moved(e.(buf := e.buf + Link.Text(frames), recvWindow := e.recvWindow - Link.DataBytes(frames)), [])
    decreases |frames|
  {
    if frames == [] {
      assert e.buf + [] == e.buf;
    } else {
      OneAddsUp(e, frames[0]);
      var e1 := HandleCall(e, frames[0], Admit).e;
      DataAddsUp(e1, frames[1..]);
      Regroup(e.buf, frames[0].payload, Link.Text(frames[1..]));
    }
  }

  lemma OneAddsUp(e: End, f: Frame)
    requires e.phase.Live? && e.rx == [] && f.Data? && f.flags == NONE && |f.payload| <= e.recvWindow
    ensures HandleCall(e, f, Admit) ==
              Moved(e.(buf := e.buf + f.payload, recvWindow := e.recvWindow - |f.payload|), [])
  {
    AtomicSubIsSubtraction(e.recvWindow, |f.payload|);
    assert e.buf + [] == e.buf;
  }

  lemma {:induction false} HandleRunJoins(e: End, a: seq<Frame>, b: seq<Frame>, h: Outcome)
    requires e.rx == [] && h == HandleRun(e, a) && h.Moved?
    ensures HandleRun(e, a + b) == HandleRun(h.e, b)
    decreases |a|
  {
    if a == [] {
      assert a + b == b;
    } else {
      HandleRunStep(e, a);
      HandleRunStep(e, a + b);
      assert (a + b)[0] == a[0] && (a + b)[1..] == a[1..] + b;
      HandleRunJoins(HandleCall(e, a[0], Admit).e, a[1..], b, h);
    }
  }

  // ---- both sides ----

  lemma FinIsHandled(e: End)
    requires e.rx == [] && e.phase.Live? && e.state.SynReceived?
    ensures var o := HandleRun(e, [LAST_FRAME]);
            o.Moved? && o.e.phase.Live? && o.e.state.RemoteClose? && o.e.buf == e.buf
  {
    var o := HandleCall(e, LAST_FRAME, Admit);
    assert [LAST_FRAME][1..] == [];
    assert o.Moved? && HandleRun(e, [LAST_FRAME]) == HandleRun(o.e, []);
  }

  /** What a write and a close make of the incoming stream. */
  lemma FramesArrive(max: u32, delta: u32, out: seq<Frame>, text: seq<byte>)
    requires PlainData(out) && Link.Text(out) == text && |text| <= INITIAL_STREAM_WINDOW
    ensures var frames := out + [LAST_FRAME];
            && NoSyn(frames)
            && var h := HandleRun(Incoming(max, delta), frames);
               h.Moved? && h.e.phase.Live? && h.e.state.RemoteClose? && h.e.buf == text
  {
    var first := Incoming(max, delta);
    DataAddsUp(first, out);
    assert [] + text == text;
    HandleRunJoins(first, out, [LAST_FRAME], HandleRun(first, out));
    FinIsHandled(HandleRun(first, out).e);
  }

  lemma WriteText(e: End, b: seq<byte>, w: Written)
    requires e.handed && e.writer.Idle? && e.state.SynSent? && e.sendWindow == INITIAL_STREAM_WINDOW
    requires w == WriteRun(e, b, [])
    ensures PlainData(w.out) && Sends(w, b, INITIAL_STREAM_WINDOW)
  {
    RunSends(e, b, [], w);
    WritesPlainData(e, b, [], w);
  }

  lemma WriteArrives(clientMax: u32, serverMax: u32, b: seq<byte>, w: Written)
    requires w == WriteRun(Opened(clientMax), b, [])
    ensures w.total == Sendable(|b|, INITIAL_STREAM_WINDOW) && Arrives(clientMax, serverMax, b, w)
  {
    WriteText(Opened(clientMax), b, w);
    FramesArrive(serverMax, FirstFrame(clientMax).delta, w.out, b[..w.total]);
  }

  predicate Arrives(clientMax: u32, serverMax: u32, b: seq<byte>, w: Written)
    requires w.total <= |b|
  {
    var frames := w.out + [LAST_FRAME];
    && NoSyn(frames)
    && var h := HandleRun(Incoming(serverMax, FirstFrame(clientMax).delta), frames);
       h.Moved? && h.e.phase.Live? && h.e.state.RemoteClose? && h.e.buf == b[..w.total]
  }

  /** One session opens a stream, writes a buffer and closes; the other accepts the stream and reads just what
      one window lets through, whatever the two configurations. */
  method Exchange(clientMax: u32, serverMax: u32, b: seq<byte>) returns (got: seq<byte>, total: nat)
    ensures total == Sendable(|b|, INITIAL_STREAM_WINDOW) && got == b[..total]
  {
    var client := new Session(true, clientMax, 1);
    var stream, r;
    ghost var w;
    stream, total, r, w := OpenWriteClose(client, b);
    WriteArrives(clientMax, serverMax, b, w);
    ghost var frames := w.out + [LAST_FRAME];
    ReadiesJoin(stream.id, [FirstFrame(clientMax)], frames);
    assert client.sendCh == [ReadyOf(OnStream(stream.id, FirstFrame(clientMax)))] + ReadiesOf(stream.id, frames);
    got := Answer(serverMax, stream.id, client.sendCh[0], client.sendCh[1..], |b|, FirstFrame(clientMax).delta, frames);
  }

  /** The accepting side of it, on a new session. */
  method Answer(
      max: u32, ghost id: u32, syn: Ready, rest: seq<Ready>, n: nat, ghost delta: u32, ghost frames: seq<Frame>)
    returns (got: seq<byte>)
    requires syn == ReadyOf(OnStream(id, WindowUpdate(SYN, delta))) && NoSyn(frames) && rest == ReadiesOf(id, frames)
    requires var h := HandleRun(Incoming(max, delta), frames);
             h.Moved? && h.e.phase.Live? && h.e.state.RemoteClose? && |h.e.buf| <= n
    ensures got == HandleRun(Incoming(max, delta), frames).e.buf
  {
    var server := new Session(false, max, 1);
    var stream, read;
    ghost var h;
    stream, read, h := ReceiveAcceptRead(server, id, syn, rest, n, delta, frames);
    AcceptHands(h.e);
    got := if read.Got? then read.data else [];
  }
}
