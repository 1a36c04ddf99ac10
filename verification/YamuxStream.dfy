/**
  Stream and Session as the objects they are.  An uninterrupted call of a method is a fixed sequence of
  the atomic actions of YamuxEnd, so what is proved of all interleavings of those actions is about these
  methods.  `Shows` ties the fields of a stream to an End.
 */
module YamuxStream {
  import opened Options
  import opened Bytes
  import opened YamuxHeader
  import opened YamuxTypes
  import opened YamuxEnd
  import Link = YamuxLink
  import opened YamuxSession
  import opened YamuxWire

  /** What waitForSend hands to the send loop. */
  datatype Ready = Ready(hdr: seq<byte>, body: seq<byte>)

  function ReadyOf(p: Packet): Ready {
    Ready(Encode(HeaderOf(p)), BodyOf(p))
  }

  function ReadiesOf(id: u32, out: seq<Frame>): seq<Ready> {
    seq(|out|, i requires 0 <= i < |out| => ReadyOf(OnStream(id, out[i])))
  }

  // ---- calls as sequences of actions ----

  /** sendWindowUpdate with the lock held: it omits the update or sends it and then adds the delta. */
  function UpdateCall(e: End): Outcome
    requires e.updater.Held?
  {
    var Moved(e1, _) := Apply(e, ComputeDelta);
    var Moved(e2, _) := Apply(e1, AnnounceUpdate);
    if Enabled(e2, OmitUpdate) then Apply(e2, OmitUpdate)
    else
      var Moved(e3, out) := Apply(e2, PostUpdate);
      var Moved(e4, _) := Apply(e3, BumpWindow);
      Moved(e4, out)
  }

  lemma UpdateCallIs(e: End)
    requires e.updater.Held?
    ensures var (flags, state) := SendFlags(e.state);
            var delta := UpdateDelta(e.max, e.recvWindow);
            var done := DoneUpdating(e).(state := state);
            UpdateCall(e) == if OmitsUpdate(e.max, delta, flags) then Moved(done, [])
                             else Moved(done.(recvWindow := Add32(e.recvWindow, delta)), [WindowUpdate(flags, delta)])
  {
  }

  function CloseCall(e: End): Outcome
    requires Enabled(e, Close) && e.updater.Free? && !e.finDue
  {
    match Apply(e, Close)
    case Failed(error) => Failed(error)
    case Moved(e1, _) => if e1.finDue then Apply(e1, PostFin) else Moved(e1, [])
  }

  /** handleStreamMessage for one frame. */
  function HandleCall(e: End, f: Frame, admission: Admission): Outcome {
    match TakeFrame(e, f, admission)
    case Failed(error) => Failed(error)
    case Moved(e1, reply) =>
      if e1.rx == [] then Moved(e1, reply)
      else match FinishFrame(e1)
        case Failed(error) => Failed(error)
        case Moved(e2, _) => Moved(e2, reply)
  }

  function Unsyn(f: Frame): Frame {
    f.(flags := f.flags.(syn := false))
  }

  function Reply(o: Outcome, out: seq<Frame>): Outcome {
    if o.Failed? then o else Moved(o.e, out)
  }

  /** handleStreamMessage for a SYN, with incomingStream apart from the rest. */
  function SynCall(e: End, f: Frame, admission: Admission): Outcome {
    match YamuxEnd.IncomingStream(e, admission)
    case Failed(error) => Failed(error)
    case Moved(e1, out) => Reply(HandleCall(e1, Unsyn(f), Admit), out)
  }

  lemma HandleSplits(e: End, f: Frame, admission: Admission)
    requires f.flags.syn && e.rx == []
    ensures HandleCall(e, f, admission) == SynCall(e, f, admission)
  {
    match YamuxEnd.IncomingStream(e, admission)
    case Failed(_) =>
    case Moved(e1, out) =>
      if e1.phase.Live? {
        HandleLive(e1, f);
      }
  }

  /** Without a SYN the admission plays no part. */
  lemma HandlePlain(e: End, f: Frame, admission: Admission)
    requires !f.flags.syn
    ensures HandleCall(e, f, admission) == HandleCall(e, Unsyn(f), Admit)
  {
    assert Unsyn(f) == f;
  }

  /** The SYN flag plays no part once the stream is there. */
  lemma HandleLive(e: End, f: Frame)
    requires e.phase.Live? && e.rx == []
    ensures match ProcessFlags(e.state, f.flags)
            case Rejected => HandleCall(e, Unsyn(f), Admit) == Failed(UnexpectedFlag)
            case Processed(state, leaves, _) =>
              HandleCall(e, Unsyn(f), Admit) == FinishFrame(Leave(e, leaves).(state := state, rx := [f]))
  {
  }

  /** Read once data is there: it takes up to `k` bytes and goes through sendWindowUpdate. */
  function ReadCall(e: End, k: nat): Outcome
    requires Enabled(e, Read(k)) && e.updater.Free?
  {
    UpdateCall(Apply(Apply(e, Read(k)).e, StartUpdate).e)
  }

  /** One pass of write with a window to write to. */
  function WriteCall(e: End, b: seq<byte>): Outcome
    requires Enabled(e, WriteCheck) && e.sendWindow > 0 && b != []
  {
    var Moved(e1, _) := Apply(e, WriteCheck);
    var Moved(e2, _) := Apply(e1, WriteLoad);
    var Moved(e3, _) := Apply(e2, WriteFlags);
    var Moved(e4, out) := Apply(e3, WritePost(b));
    var Moved(e5, _) := Apply(e4, WriteReduce);
    Moved(e5, out)
  }

  /** What such a pass amounts to. */
  function PassEnd(e: End, b: seq<byte>): End {
    var n := WriteSize(e.sendWindow, |b|);
    e.(state := SendFlags(e.state).1, sendWindow := e.sendWindow - n, sent := e.sent + b[..n],
       credit := e.credit - n)
  }

  function PassFrame(e: End, b: seq<byte>): Frame {
    Data(SendFlags(e.state).0, b[..WriteSize(e.sendWindow, |b|)])
  }

  lemma WriteCallIs(e: End, b: seq<byte>)
    requires Enabled(e, WriteCheck) && e.sendWindow > 0 && b != []
    ensures WriteCall(e, b) == Moved(PassEnd(e, b), [PassFrame(e, b)])
  {
    AtomicSubIsSubtraction(e.sendWindow, WriteSize(e.sendWindow, |b|));
  }

  /** A freshly opened stream after its first update. */
  function OpenCall(max: u32): Outcome {
    UpdateCall(Apply(FreshEnd(Opener, max), Open).e)
  }

  function Sum(grants: seq<u32>): nat {
    if grants == [] then 0 else grants[0] + Sum(grants[1..])
  }

  /** Spinning: the truncated length has become zero with bytes left, so that every further pass of the loop
      sends one more empty frame and changes nothing. */
  datatype WriteResult = Done | StreamClosed | WriteReset | TimedOut | Spinning

  datatype Written = Written(e: End, out: seq<Frame>, total: nat, result: WriteResult)

  /** A window update arrives while a write waits. */
  function GrantCall(e: End, grant: u32): End {
    e.(sendWindow := Add32(e.sendWindow, grant), credit := e.credit + grant)
  }

  lemma GrantIsHandled(e: End, grant: u32)
    requires e.phase.Live? && e.rx == []
    ensures HandleCall(e, WindowUpdate(NONE, grant), Admit) == Moved(GrantCall(e, grant), [])
  {
  }

  /** Write, as passes of write, with one of `grants` each time it waits, until its deadline passes. */
  function WriteRun(e: End, b: seq<byte>, grants: seq<u32>): (w: Written)
    requires e.handed && e.writer.Idle?
    ensures w.e.handed && w.e.writer.Idle? && w.total <= |b|
    ensures w.e.updater == e.updater && w.e.finDue == e.finDue && w.e.phase == e.phase && w.e.rx == e.rx
    decreases |grants|, |b|
  {
    if b == [] then Written(e, [], 0, Done)
    else if !MayWrite(e.state) then Written(e, [], 0, if e.state.Reset? then WriteReset else StreamClosed)
    else if e.sendWindow == 0 then
      if grants == [] then Written(e, [], 0, TimedOut) else WriteRun(GrantCall(e, grants[0]), b, grants[1..])
    else
      var n := WriteSize(e.sendWindow, |b|);
      if n == 0 then Written(PassEnd(e, b), [PassFrame(e, b)], 0, Spinning)
      else
        var more := WriteRun(PassEnd(e, b), b[n..], grants);
        Written(more.e, [PassFrame(e, b)] + more.out, n + more.total, more.result)
  }

  lemma {:induction false} WriteKeepsState(e: End, b: seq<byte>, grants: seq<u32>, w: Written)
    requires e.handed && e.writer.Idle? && w == WriteRun(e, b, grants)
    ensures w.e.state in {e.state, SendFlags(e.state).1}
    decreases |grants|, |b|
  {
    if b != [] && MayWrite(e.state) {
      if e.sendWindow == 0 {
        if grants != [] {
          WriteKeepsState(GrantCall(e, grants[0]), b, grants[1..], w);
        }
      } else if WriteSize(e.sendWindow, |b|) > 0 {
        var rest := b[WriteSize(e.sendWindow, |b|)..];
        WriteKeepsState(PassEnd(e, b), rest, grants, WriteRun(PassEnd(e, b), rest, grants));
      }
    }
  }

  lemma LengthStep(length: nat, n: nat)
    requires n <= length % U32
    ensures (length - n) % U32 == length % U32 - n && (length - n >= U32 <==> length >= U32)
  {
  }

  lemma TextStep(f: Frame, out: seq<Frame>, b: seq<byte>, n: nat, m: nat)
    requires f.Data? && n + m <= |b| && f.payload == b[..n] && Link.Text(out) == b[n..][..m]
    ensures Link.Text([f] + out) == b[..n + m]
  {
    assert ([f] + out)[1..] == out;
    assert b[..n] + b[n..][..m] == b[..n + m];
  }

  /** How much of `length` bytes Write sends within a budget of window. */
  function Sendable(length: nat, budget: nat): (n: nat)
    ensures n <= length
  {
    Min(budget, length % U32)
  }

  function ResultOf(length: nat, budget: nat): WriteResult {
    if length <= budget then Done else if length >= U32 && length % U32 < budget then Spinning else TimedOut
  }

  lemma SendableStep(length: nat, budget: nat, window: u32)
    requires window <= budget < U32
    ensures var n := WriteSize(window, length);
            && Sendable(length, budget) == n + Sendable(length - n, budget - n)
            && ResultOf(length, budget) == ResultOf(length - n, budget - n)
  {
    LengthStep(length, WriteSize(window, length));
  }

  /** The first bytes of the buffer are sent, as many as the budget of window allows and the truncated length
      lets it, and the result says what became of the rest. */
  predicate Sends(w: Written, b: seq<byte>, budget: nat) {
    && w.total == Sendable(|b|, budget) && w.result == ResultOf(|b|, budget)
    && w.total <= |b| && Link.Text(w.out) == b[..w.total]
  }

  lemma PassSends(f: Frame, more: Written, b: seq<byte>, window: u32, budget: nat)
    requires 0 < window <= budget < U32 && f.Data? && f.payload == b[..WriteSize(window, |b|)]
    requires Sends(more, b[WriteSize(window, |b|)..], budget - WriteSize(window, |b|))
    ensures Sends(Written(more.e, [f] + more.out, WriteSize(window, |b|) + more.total, more.result), b, budget)
  {
    var n := WriteSize(window, |b|);
    SendableStep(|b|, budget, window);
    TextStep(f, more.out, b, n, more.total);
  }

  lemma SpinSends(w: Written, b: seq<byte>, window: u32, budget: nat)
    requires 0 < window <= budget < U32 && b != [] && WriteSize(window, |b|) == 0
    requires w.total == 0 && w.result == Spinning && |w.out| == 1 && w.out[0].Data? && w.out[0].payload == []
    ensures Sends(w, b, budget)
  {
    assert w.out[1..] == [];
  }

  lemma PassContinues(e: End, b: seq<byte>, grants: seq<u32>, w: Written, more: Written)
    requires e.handed && e.writer.Idle? && MayWrite(e.state) && e.sendWindow > 0 && WriteSize(e.sendWindow, |b|) > 0
    requires w == WriteRun(e, b, grants)
    requires more == WriteRun(PassEnd(e, b), b[WriteSize(e.sendWindow, |b|)..], grants)
    ensures w == Written(more.e, [PassFrame(e, b)] + more.out, WriteSize(e.sendWindow, |b|) + more.total, more.result)
    ensures MayWrite(PassEnd(e, b).state)
  {
  }

  lemma GrantContinues(e: End, b: seq<byte>, grants: seq<u32>)
    requires e.handed && e.writer.Idle? && MayWrite(e.state) && e.sendWindow == 0 && b != []
    requires grants != [] && Sum(grants) < U32
    ensures var next := GrantCall(e, grants[0]);
            && next.handed && next.writer.Idle? && MayWrite(next.state)
            && next.sendWindow + Sum(grants[1..]) == Sum(grants)
            && WriteRun(e, b, grants) == WriteRun(next, b, grants[1..])
  {
  }

  lemma {:induction false} RunSends(e: End, b: seq<byte>, grants: seq<u32>, w: Written)
    requires e.handed && e.writer.Idle? && MayWrite(e.state) && e.sendWindow + Sum(grants) < U32
    requires w == WriteRun(e, b, grants)
    ensures Sends(w, b, e.sendWindow + Sum(grants))
    decreases |grants|, |b|
  {
    if b == [] {
    } else if e.sendWindow == 0 {
      if grants != [] {
        GrantContinues(e, b, grants);
        RunSends(GrantCall(e, grants[0]), b, grants[1..], w);
      }
    } else {
      var n, next := WriteSize(e.sendWindow, |b|), PassEnd(e, b);
      if n > 0 {
        var more := WriteRun(next, b[n..], grants);
        PassContinues(e, b, grants, w, more);
        RunSends(next, b[n..], grants, more);
        PassSends(PassFrame(e, b), more, b, e.sendWindow, e.sendWindow + Sum(grants));
      } else {
        SpinSends(w, b, e.sendWindow, e.sendWindow + Sum(grants));
      }
    }
  }

  /** What Write promises. */
  lemma WriteSendsPrefix(e: End, b: seq<byte>, grants: seq<u32>)
    requires e.handed && e.writer.Idle? && MayWrite(e.state) && e.sendWindow + Sum(grants) < U32
    ensures Sends(WriteRun(e, b, grants), b, e.sendWindow + Sum(grants))
  {
    RunSends(e, b, grants, WriteRun(e, b, grants));
  }

  /** What is left of a buffer of `length` bytes after `write` has been given these windows in turn. */
  function Left(length: nat, windows: seq<u32>): nat {
    if windows == [] then length else Left(length - WriteSize(windows[0], length), windows[1..])
  }

  lemma {:induction false} WholeMultiplesStay(length: nat, windows: seq<u32>)
    ensures Left(length, windows) / U32 == length / U32
  {
    if windows != [] {
      var n := WriteSize(windows[0], length);
      assert (length - n) / U32 == length / U32;
      WholeMultiplesStay(length - n, windows[1..]);
    }
  }

  /** `uint32(len(b))` makes Write loop forever, sending empty frames, on buffers of 2^32 bytes or more:
      some windows let it finish if and only if the buffer is shorter. */
  lemma WriteFinishesIff(length: nat)
    ensures (exists windows :: Left(length, windows) == 0) <==> length < U32
  {
    if length < U32 {
      var w: u32 := length;
      assert [w][1..] == [];
      assert Left(length, [w]) == 0;
    } else {
      forall windows ensures Left(length, windows) != 0 {
        WholeMultiplesStay(length, windows);
      }
    }
  }

  datatype ReadResult = Got(data: seq<byte>) | Eof | ConnectionReset | Blocked

  class Session {
    const client: bool
    const max: u32
    const backlog: nat
    var nextStreamID: u32
    var streams: map<u32, Stream>
    var acceptCh: seq<Stream>
    var localGoAway: bool
    var remoteGoAway: bool
    var sendCh: seq<Ready>

    constructor (client: bool, max: u32, backlog: nat)
      ensures this.client == client && this.max == max && this.backlog == backlog
      ensures Valid() && nextStreamID == NewNode(client, max, backlog).nextStreamID
      ensures streams == map[] && acceptCh == [] && !localGoAway && !remoteGoAway && sendCh == []
    {
      this.client, this.max, this.backlog := client, max, backlog;
      nextStreamID := if client then 1 else 2;
      streams, acceptCh, localGoAway, remoteGoAway, sendCh := map[], [], false, false, [];
    }

    /** Every stream that the table or the accept queue holds is a stream of this session. */
    ghost predicate Valid()
      reads this
    {
      && (forall id :: id in streams ==> streams[id].id == id && streams[id].session == this && streams[id].Valid())
      && (forall i :: 0 <= i < |acceptCh| ==> acceptCh[i].session == this && acceptCh[i].Valid())
    }

    /** The table's entry for `id`, or its absence, is what `e` says. */
    ghost predicate Represents(id: u32, e: End)
      reads this, streams.Values
    {
      if id in streams then e.phase.Live? && streams[id].Shows(e)
      else !e.phase.Live?
    }

    /** The session and stream `id` have become what `o` says, and its frames follow those in `before`. A
        failure is answered with a go-away, which is the last thing that the peer is told. */
    ghost predicate Became(o: Outcome, ok: bool, id: u32, before: seq<Ready>)
      reads this, streams.Values
    {
      match o
      case Failed(_) =>
        && !ok && localGoAway
        && before < sendCh && sendCh[|sendCh| - 1] == ReadyOf(GoAwayPacket(1))
      case Moved(e, out) => ok && Represents(id, e) && sendCh == before + ReadiesOf(id, out)
    }

    /** The accept queue holds one more stream than `before`, a new one for `id`. */
    twostate predicate Queued(id: u32)
      reads this
    {
      && |acceptCh| == |old(acceptCh)| + 1 && acceptCh[..|old(acceptCh)|] == old(acceptCh)
      && (var stream := acceptCh[|old(acceptCh)|];
          && fresh(stream) && fresh(stream.controlHdr) && fresh(stream.sendHdr)
          && stream.id == id && (id in streams ==> streams[id] == stream))
    }

    twostate predicate StaysOrLeaves(id: u32)
      reads this
    {
      id in streams ==> id in old(streams) && streams[id] == old(streams)[id]
    }

    method CloseStream(id: u32)
      modifies this`streams
      ensures streams == old(streams) - {id}
    {
      streams := streams - {id};
    }

    /** sendNoWait of a go-away, for a peer that broke the protocol. */
    method GoAwayForError()
      modifies this`localGoAway, this`sendCh
      ensures localGoAway && sendCh == old(sendCh) + [ReadyOf(GoAwayPacket(1))]
    {
      localGoAway := true;
      sendCh := sendCh + [ReadyOf(GoAwayPacket(GO_AWAY_PROTO_ERR))];
    }

    /** GoAway: no more streams are accepted, and the peer is told so. */
    method GoAway()
      modifies this`localGoAway, this`sendCh
      ensures localGoAway && sendCh == old(sendCh) + [ReadyOf(GoAwayPacket(0))]
    {
      localGoAway := true;
      sendCh := sendCh + [ReadyOf(GoAwayPacket(GO_AWAY_NORMAL))];
    }

    /** handleGoAway: no more streams are opened; any other code than that of a normal go-away is an error. */
    method HandleGoAway(code: u32) returns (ok: bool)
      modifies this`remoteGoAway
      ensures ok == (code == 0) && remoteGoAway == (old(remoteGoAway) || code == 0)
    {
      if code == GO_AWAY_NORMAL {
        remoteGoAway := true;
        return true;
      }
      ok := false;
    }

    /** OpenStream.  `rivals` compare-and-swaps are lost to other goroutines before one is won. */
    method OpenStream(rivals: nat) returns (stream: Stream?)
      requires Valid()
      modifies this`nextStreamID, this`streams, this`sendCh
      ensures Valid()
      ensures stream == null <==> remoteGoAway || old(nextStreamID) + 2 * rivals >= U32 - 2
      ensures stream == null ==> streams == old(streams) && sendCh == old(sendCh)
      ensures stream == null ==> if remoteGoAway then nextStreamID == old(nextStreamID) else nextStreamID >= U32 - 2
      ensures stream != null ==>
                && fresh(stream) && fresh(stream.controlHdr) && fresh(stream.sendHdr) && stream.Valid()
                && stream.session == this && stream.id == old(nextStreamID) + 2 * rivals
                && nextStreamID == stream.id + 2
                && streams == old(streams)[stream.id := stream]
                && stream.Shows(OpenCall(max).e) && !stream.recvToken && !stream.sendToken
                && stream.state == SynSent && stream.recvBuf == []
                && sendCh == old(sendCh) +
                     [ReadyOf(OnStream(stream.id, WindowUpdate(SYN, (max + U32 - INITIAL_STREAM_WINDOW) % U32)))]
                && sendCh == old(sendCh) + ReadiesOf(stream.id, OpenCall(max).out)
    {
      if remoteGoAway {
        return null;
      }
      var id := GetId(rivals);
      if id.None? {
        return null;
      }
      stream := Register(id.value);
    }

    /** The new stream enters the table and announces itself. */
    method Register(id: u32) returns (stream: Stream)
      requires Valid()
      modifies this`streams, this`sendCh
      ensures Valid() && streams == old(streams)[id := stream] && stream.session == this && stream.id == id
      ensures fresh(stream) && fresh(stream.controlHdr) && fresh(stream.sendHdr) && stream.Valid()
      ensures stream.Shows(OpenCall(max).e) && !stream.recvToken && !stream.sendToken
      ensures stream.state == SynSent && stream.recvBuf == []
      ensures sendCh == old(sendCh) + ReadiesOf(id, OpenCall(max).out)
      ensures sendCh == old(sendCh) +
                [ReadyOf(OnStream(id, WindowUpdate(SYN, (max + U32 - INITIAL_STREAM_WINDOW) % U32)))]
    {
      stream := new Stream(this, id, Init);
      streams := streams[id := stream];
      stream.SendWindowUpdateActs(Apply(FreshEnd(Opener, max), Open).e);
    }

    /** The loop at GET_ID. */
    method GetId(rivals: nat) returns (id: Option<u32>)
      modifies this`nextStreamID
      ensures id.None? <==> old(nextStreamID) + 2 * rivals >= U32 - 2
      ensures id.None? ==> nextStreamID >= U32 - 2
      ensures id.Some? ==> id.value == old(nextStreamID) + 2 * rivals && nextStreamID == id.value + 2
    {
      var lost := 0;
      while true
        invariant lost <= rivals && nextStreamID == old(nextStreamID) + 2 * lost
        decreases rivals - lost
      {
        var current := nextStreamID;
        if current >= U32 - 2 {
          return None;
        }
        nextStreamID := Add32(current, 2);   // by this goroutine, or by one that gets ahead of it
        if lost == rivals {
          return Some(current);
        }
        lost := lost + 1;
      }
    }

    /** AcceptStream, once there is a stream to accept. */
    method AcceptStream(ghost e: End) returns (stream: Stream)
      requires Valid() && acceptCh != []
      requires acceptCh[0].Shows(e) && Enabled(e, Accept) && e.max == max
      modifies this`acceptCh, this`sendCh, acceptCh[0], acceptCh[0].controlHdr
      ensures Valid() && stream.Valid() && stream.session == this
      ensures stream == old(acceptCh)[0] && acceptCh == old(acceptCh)[1..]
      ensures stream.recvToken == old(acceptCh[0].recvToken) && stream.sendToken == old(acceptCh[0].sendToken)
      ensures var o := UpdateCall(Apply(e, Accept).e);
              stream.Shows(o.e) && sendCh == old(sendCh) + ReadiesOf(stream.id, o.out)
      ensures stream.Announced(old(acceptCh[0].state), old(acceptCh[0].recvWindow), old(sendCh))
    {
      stream := acceptCh[0];
      acceptCh := acceptCh[1..];
      stream.SendWindowUpdateActs(Apply(e, Accept).e);
    }

    /** incomingStream; the answer is false for a duplicate, which ends the session. */
    method IncomingStream(id: u32, ghost e: End) returns (ok: bool)
      requires Valid() && Represents(id, e) && e.max == max
      modifies this`streams, this`acceptCh, this`sendCh, this`localGoAway
      ensures Valid() && (ok ==> localGoAway == old(localGoAway))
      ensures Became(YamuxEnd.IncomingStream(e, old(AdmissionNow())), ok, id, old(sendCh))
      ensures if !old(localGoAway) && |old(acceptCh)| < backlog && id !in old(streams)
              then Queued(id) && id in streams && !streams[id].recvToken && !streams[id].sendToken
                   && streams == old(streams)[id := streams[id]] && sendCh == old(sendCh)
              else acceptCh == old(acceptCh) && streams == old(streams)
      ensures old(localGoAway) || (id !in old(streams) && |old(acceptCh)| >= backlog) ==>
                ok && sendCh == old(sendCh) + [ReadyOf(OnStream(id, WindowUpdate(RST, 0)))]
      ensures !ok <==> !old(localGoAway) && id in old(streams)
    {
      if localGoAway {
        sendCh := sendCh + [ReadyOf(OnStream(id, WindowUpdate(RST, 0)))];
        return true;
      }
      if id in streams {
        GoAwayForError();
        return false;
      }
      if |acceptCh| < backlog {
        var stream := new Stream(this, id, SynReceived);
        streams := streams[id := stream];
        acceptCh := acceptCh + [stream];
      } else {
        sendCh := sendCh + [ReadyOf(OnStream(id, WindowUpdate(RST, 0)))];
      }
      return true;
    }

    /** incomingStream, as handleStreamMessage sees it. */
    method Admission(id: u32, ghost e: End) returns (ok: bool)
      requires Valid() && Represents(id, e) && e.max == max
      modifies this`streams, this`acceptCh, this`sendCh, this`localGoAway
      ensures Valid() && (ok ==> localGoAway == old(localGoAway)) && streams - {id} == old(streams) - {id}
      ensures Became(YamuxEnd.IncomingStream(e, old(AdmissionNow())), ok, id, old(sendCh))
      ensures if !old(localGoAway) && |old(acceptCh)| < backlog && id !in old(streams) then Queued(id)
              else acceptCh == old(acceptCh) && StaysOrLeaves(id)
      ensures id in old(streams) ==> id in streams && streams[id] == old(streams[id])
    {
      ok := IncomingStream(id, e);
    }

    /** handleStreamMessage. */
    method HandleStreamMessage(id: u32, f: Frame, ghost e: End) returns (ok: bool, ghost o: Outcome)
      requires Valid() && Represents(id, e) && e.max == max && e.rx == []
      modifies this`streams, this`acceptCh, this`sendCh, this`localGoAway, if id in streams then {streams[id]} else {}
      ensures o == HandleCall(e, f, old(AdmissionNow())) && Became(o, ok, id, old(sendCh))
      ensures Valid() && (ok ==> localGoAway == old(localGoAway)) && streams - {id} == old(streams) - {id}
      ensures if f.flags.syn && !old(localGoAway) && |old(acceptCh)| < backlog && id !in old(streams)
              then Queued(id) && (ok ==> acceptCh[|old(acceptCh)|].Shows(o.e))
              else acceptCh == old(acceptCh) && StaysOrLeaves(id)
      ensures id in old(streams) && ok ==>
                && old(streams[id]).Shows(o.e)
                && old(streams[id]).Woken(old(streams[id].recvToken), old(streams[id].sendToken), e.state, f, ok)
      ensures !f.flags.syn && id !in old(streams) ==> ok && streams == old(streams) && sendCh == old(sendCh)
      ensures !f.flags.syn && ok ==> sendCh == old(sendCh)
    {
      if f.flags.syn {
        HandleSplits(e, f, AdmissionNow());
        ok, o := HandleSyn(id, f, e);
      } else {
        HandlePlain(e, f, AdmissionNow());
        ok, o := Deliver(id, f, e);
      }
    }

    /** handleStreamMessage for a frame that declares a new stream. */
    method HandleSyn(id: u32, f: Frame, ghost e: End) returns (ok: bool, ghost o: Outcome)
      requires Valid() && Represents(id, e) && e.max == max && e.rx == []
      modifies this`streams, this`acceptCh, this`sendCh, this`localGoAway, if id in streams then {streams[id]} else {}
      ensures o == SynCall(e, f, old(AdmissionNow())) && Became(o, ok, id, old(sendCh))
      ensures Valid() && (ok ==> localGoAway == old(localGoAway)) && streams - {id} == old(streams) - {id}
      ensures if !old(localGoAway) && |old(acceptCh)| < backlog && id !in old(streams)
              then Queued(id) && (ok ==> acceptCh[|old(acceptCh)|].Shows(o.e))
              else acceptCh == old(acceptCh) && StaysOrLeaves(id)
      ensures id in old(streams) && ok ==>
                && old(streams[id]).Shows(o.e)
                && old(streams[id]).Woken(old(streams[id].recvToken), old(streams[id].sendToken), e.state, f, ok)
    {
      ghost var incoming := YamuxEnd.IncomingStream(e, AdmissionNow());
      ok := Admission(id, e);
      if ok {
        assert id in old(streams) ==> incoming.e == e;
        ok, o := Finish(id, f, incoming, old(sendCh));
      } else {
        o := incoming;
      }
    }

    /** The rest of it, once incomingStream has admitted the stream or answered RST. */
    method Finish(id: u32, f: Frame, ghost incoming: Outcome, ghost before: seq<Ready>)
      returns (ok: bool, ghost o: Outcome)
      requires Valid() && incoming.Moved? && incoming.e.rx == [] && Became(incoming, true, id, before)
      modifies this`streams, this`sendCh, this`localGoAway, if id in streams then {streams[id]} else {}
      ensures o == Reply(HandleCall(incoming.e, Unsyn(f), Admit), incoming.out) && Became(o, ok, id, before)
      ensures Valid() && (ok ==> localGoAway == old(localGoAway)) && streams - {id} == old(streams) - {id}
      ensures id in streams ==> id in old(streams) && streams[id] == old(streams[id])
      ensures id in old(streams) && ok ==>
                && old(streams[id]).Shows(o.e)
                && old(streams[id]).Woken(
                     old(streams[id].recvToken), old(streams[id].sendToken), incoming.e.state, f, ok)
    {
      ok, o := Deliver(id, f, incoming.e);
      o := Reply(o, incoming.out);
    }

    /** A frame for a stream of the table, or for one that is not there. */
    method Deliver(id: u32, f: Frame, ghost e: End) returns (ok: bool, ghost o: Outcome)
      requires Valid() && Represents(id, e) && e.rx == []
      modifies this`streams, this`sendCh, this`localGoAway, if id in streams then {streams[id]} else {}
      ensures o == HandleCall(e, Unsyn(f), Admit) && Became(o, ok, id, old(sendCh)) && (o.Moved? ==> o.out == [])
      ensures Valid() && (ok ==> localGoAway == old(localGoAway)) && streams - {id} == old(streams) - {id}
      ensures id in streams ==> id in old(streams) && streams[id] == old(streams[id])
      ensures id in old(streams) ==>
                && (ok ==> old(streams[id]).Shows(o.e))
                && old(streams[id]).Woken(old(streams[id].recvToken), old(streams[id].sendToken), e.state, f, ok)
      ensures id !in old(streams) ==> ok && streams == old(streams)
    {
      o := HandleCall(e, Unsyn(f), Admit);
      if id !in streams {
        return true, o;
      }
      ok := streams[id].HandleFrame(f, e);
      if !ok {
        GoAwayForError();
      }
    }

    function AdmissionNow(): Admission
      reads this
    {
      if localGoAway then GoingAway else if |acceptCh| >= backlog then BacklogFull else Admit
    }
  }

  /** The class and the transition system decide alike on incoming streams. */
  lemma AdmissionsAgree(s: Session, n: Node)
    requires n.localGoAway == s.localGoAway && |n.acceptQ| == |s.acceptCh| && n.backlog == s.backlog
    ensures s.AdmissionNow() == AdmissionOf(n)
    ensures s.AdmissionNow().Admit? <==> !s.localGoAway && |s.acceptCh| < s.backlog
    ensures s.AdmissionNow().GoingAway? <==> s.localGoAway
  {
  }

  class Stream {
    const session: Session
    const id: u32
    var state: State
    var recvWindow: u32
    var sendWindow: u32
    var recvBuf: seq<byte>
    var recvToken: bool       // recvNotifyCh holds its one token
    var sendToken: bool
    const controlHdr: array<byte>
    const sendHdr: array<byte>

    ghost predicate Valid() {
      controlHdr.Length == HEADER_SIZE && sendHdr.Length == HEADER_SIZE && controlHdr != sendHdr
    }

    constructor (session: Session, id: u32, state: State)
      ensures this.session == session && this.id == id && this.state == state
      ensures recvWindow == INITIAL_STREAM_WINDOW && sendWindow == INITIAL_STREAM_WINDOW && recvBuf == []
      ensures !recvToken && !sendToken && Valid() && fresh(controlHdr) && fresh(sendHdr)
    {
      this.session, this.id, this.state := session, id, state;
      recvWindow, sendWindow := INITIAL_STREAM_WINDOW, INITIAL_STREAM_WINDOW;
      recvBuf, recvToken, sendToken := [], false, false;
      controlHdr := new byte[HEADER_SIZE](_ => 0);
      sendHdr := new byte[HEADER_SIZE](_ => 0);
    }

    ghost predicate Shows(e: End)
      reads this
    {
      state == e.state && recvWindow == e.recvWindow && sendWindow == e.sendWindow && recvBuf == e.buf
    }

    /** Both tokens, after a frame has been handled: what processFlags notifies, and what a payload or a window
        update notifies. */
    ghost predicate Woken(recvBefore: bool, sendBefore: bool, stateBefore: State, f: Frame, ok: bool)
      reads this
    {
      var flagged := Notifies(YamuxTypes.ProcessFlags(stateBefore, f.flags));
      && recvToken == (recvBefore || flagged || (ok && f.Data? && f.payload != []))
      && sendToken == (sendBefore || flagged || (ok && f.WindowUpdate?))
    }

    /** notifyWaiting: both channels have room for one token, and a full channel is left as it is. */
    method NotifyWaiting()
      modifies this`recvToken, this`sendToken
      ensures recvToken && sendToken
    {
      recvToken := true;
      sendToken := true;
    }

    method SendFlags() returns (flags: Flags)
      modifies this`state
      ensures (flags, state) == YamuxTypes.SendFlags(old(state))
      ensures flags == if old(state).Init? then SYN else if old(state).SynReceived? then ACK else NONE
      ensures state == if old(state).Init? then SynSent else if old(state).SynReceived? then Established else old(state)
    {
      flags := NONE;
      match state {
        case Init =>
          flags := flags.(syn := true);
          state := SynSent;
        case SynReceived =>
          flags := flags.(ack := true);
          state := Established;
        case _ =>
      }
    }

    method PostHeader(buf: array<byte>, msgType: nat, flags: Flags, length: u32, body: seq<byte>)
      requires buf.Length == HEADER_SIZE && msgType <= TYPE_WINDOW_UPDATE
      modifies buf, session`sendCh
      ensures session.sendCh == old(session.sendCh) +
                [Ready(Encode(Header(PROTO_VERSION, msgType, FlagBits(flags), id, length)), body)]
    {
      EncodeInPlace(buf, msgType, FlagBits(flags), id, length);
      session.sendCh := session.sendCh + [Ready(buf[..], body)];
    }

    /** The peer has been granted what the receive window lacks, together with a SYN or ACK that was still due; or
        nothing was due, less than half of the window was lacking, and nothing has changed. */
    ghost predicate Announced(stateBefore: State, windowBefore: u32, queueBefore: seq<Ready>)
      reads this, session
    {
      var delta := (session.max + U32 - windowBefore) % U32;
      var flags := if stateBefore.Init? then SYN else if stateBefore.SynReceived? then ACK else NONE;
      if 2 * delta < session.max - session.max % 2 && flags == NONE then
        session.sendCh == queueBefore && recvWindow == windowBefore && state == stateBefore
      else
        && session.sendCh == queueBefore + [ReadyOf(OnStream(id, WindowUpdate(flags, delta)))]
        && recvWindow == (windowBefore + delta) % U32
        && state == (if flags == SYN then SynSent else if flags == ACK then Established else stateBefore)
    }

    method SendWindowUpdate()
      requires Valid()
      modifies this`state, this`recvWindow, controlHdr, session`sendCh
      ensures Announced(old(state), old(recvWindow), old(session.sendCh))
    {
      var delta := Sub32(session.max, recvWindow);
      var flags := SendFlags();
      if delta < session.max / 2 && flags == NONE {
        return;
      }
      PostHeader(controlHdr, TYPE_WINDOW_UPDATE, flags, delta, []);
      recvWindow := Add32(recvWindow, delta);
    }

    /** The same call, as the actions of the stream's end. */
    method SendWindowUpdateActs(ghost e: End)
      requires Valid() && Shows(e) && e.updater.Held? && e.max == session.max
      modifies this`state, this`recvWindow, controlHdr, session`sendCh
      ensures var o := UpdateCall(e);
              Shows(o.e) && session.sendCh == old(session.sendCh) + ReadiesOf(id, o.out)
      ensures Announced(old(state), old(recvWindow), old(session.sendCh))
    {
      UpdateCallIs(e);
      SendWindowUpdate();
    }

    method SendClose()
      requires Valid()
      modifies this`state, controlHdr, session`sendCh
      ensures state == YamuxTypes.SendFlags(old(state)).1
      ensures session.sendCh == old(session.sendCh) +
                [ReadyOf(OnStream(id, WindowUpdate(YamuxTypes.SendFlags(old(state)).0.(fin := true), 0)))]
    {
      var flags := SendFlags();
      flags := flags.(fin := true);
      PostHeader(controlHdr, TYPE_WINDOW_UPDATE, flags, 0, []);
    }

    /** Close; the answer is false where the source panics. */
    method Close(ghost e: End) returns (ok: bool)
      requires Valid() && Shows(e) && Enabled(e, Action.Close) && e.updater.Free? && !e.finDue
      modifies this`state, this`recvToken, this`sendToken, controlHdr, session`streams, session`sendCh
      ensures match CloseCall(e)
              case Failed(_) =>
                && !ok && Shows(e) && recvToken == old(recvToken) && sendToken == old(sendToken)
                && session.sendCh == old(session.sendCh) && session.streams == old(session.streams)
              case Moved(e', out) =>
                && ok && Shows(e')
                && session.sendCh == old(session.sendCh) + ReadiesOf(id, out)
                && session.streams ==
                     (if e.state.RemoteClose? then old(session.streams) - {id} else old(session.streams))
                && recvToken == (old(recvToken) || out != []) && sendToken == (old(sendToken) || out != [])
      ensures var half := old(state).SynSent? || old(state).SynReceived? || old(state).Established?;
              && ok == !old(state).Init?
              && state == (if half then LocalClose else if old(state).RemoteClose? then Closed else old(state))
              && session.sendCh == old(session.sendCh) +
                   (if half || old(state).RemoteClose? then [ReadyOf(OnStream(id, WindowUpdate(FIN, 0)))] else [])
    {
      match state {
        case SynSent => state := LocalClose;
        case SynReceived => state := LocalClose;
        case Established => state := LocalClose;
        case RemoteClose =>
          state := Closed;
          session.CloseStream(id);
        case LocalClose => return true;
        case Closed => return true;
        case Reset => return true;
        case Init => return false;
      }
      SendClose();
      NotifyWaiting();
      ok := true;
    }

    method ProcessFlags(flags: Flags) returns (ok: bool)
      modifies this`state, this`recvToken, this`sendToken, session`streams
      ensures match YamuxTypes.ProcessFlags(old(state), flags)
              case Rejected => !ok && state == old(state) && session.streams == old(session.streams)
              case Processed(state', leaves, _) =>
                && ok && state == state'
                && session.streams == (if leaves then old(session.streams) - {id} else old(session.streams))
      ensures recvToken == (old(recvToken) || Notifies(YamuxTypes.ProcessFlags(old(state), flags)))
      ensures sendToken == (old(sendToken) || Notifies(YamuxTypes.ProcessFlags(old(state), flags)))
      ensures var opening := old(state).SynSent? || old(state).SynReceived? || old(state).Established?;
              var fin, rst := flags.fin && !flags.ack, flags.rst && !flags.ack && !flags.fin;
              && ok == (fin ==> opening || old(state).LocalClose?)
              && state == (if flags.ack then if old(state).SynSent? then Established else old(state)
                           else if fin && opening then RemoteClose
                           else if fin && old(state).LocalClose? then Closed
                           else if rst then Reset else old(state))
              && session.streams == (if rst || (fin && old(state).LocalClose?) then old(session.streams) - {id}
                                     else old(session.streams))
              && (rst || (fin && ok) ==> recvToken && sendToken)
              && (!rst && !(fin && ok) ==> recvToken == old(recvToken) && sendToken == old(sendToken))
    {
      if flags.ack {
        if state == SynSent {
          state := Established;
        }
      } else if flags.fin {
        match state {
          case SynSent => state := RemoteClose;
          case SynReceived => state := RemoteClose;
          case Established => state := RemoteClose;
          case LocalClose =>
            state := Closed;
            session.CloseStream(id);
          case _ => return false;
        }
        NotifyWaiting();
      } else if flags.rst {
        state := Reset;
        session.CloseStream(id);
        NotifyWaiting();
      }
      ok := true;
    }

    method IncrSendWindow(flags: Flags, delta: u32) returns (ok: bool)
      modifies this`state, this`sendWindow, this`recvToken, this`sendToken, session`streams
      ensures Applies(old(state), flags, ok, old(session.streams), session.streams)
      ensures sendWindow == if ok then (old(sendWindow) + delta) % U32 else old(sendWindow)
      ensures ok ==> sendToken
      ensures Woken(old(recvToken), old(sendToken), old(state), WindowUpdate(flags, delta), ok)
    {
      ok := ProcessFlags(flags);
      if ok {
        sendWindow := Add32(sendWindow, delta);
        sendToken := true;
      }
    }

    /** readData; the payload has been taken off the connection. */
    method ReadData(flags: Flags, payload: Payload) returns (ok: bool)
      modifies this`state, this`recvWindow, this`recvBuf, this`recvToken, this`sendToken, session`streams
      ensures var tooLong := YamuxTypes.ProcessFlags(old(state), flags).Processed? && |payload| > old(recvWindow);
              Applies(old(state), flags, ok || tooLong, old(session.streams), session.streams)
      ensures ok ==> |payload| <= old(recvWindow)
      ensures ok ==> recvBuf == old(recvBuf) + payload && recvWindow == old(recvWindow) - |payload|
      ensures !ok ==> recvBuf == old(recvBuf) && recvWindow == old(recvWindow)
      ensures ok && payload != [] ==> recvToken
      ensures Woken(old(recvToken), old(sendToken), old(state), Data(flags, payload), ok)
    {
      ok := ProcessFlags(flags);
      if !ok {
        return;
      }
      if |payload| == 0 {
        assert recvBuf + payload == recvBuf;
        return;
      }
      if |payload| > recvWindow {
        return false;
      }
      recvBuf := recvBuf + payload;
      AtomicSubIsSubtraction(recvWindow, |payload|);
      recvWindow := AtomicSub(recvWindow, |payload|);
      recvToken := true;
    }

    ghost predicate Applies(
        before: State, flags: Flags, ok: bool, streams: map<u32, Stream>, streams': map<u32, Stream>)
      reads this
    {
      match YamuxTypes.ProcessFlags(before, flags)
      case Rejected => !ok && state == before && streams' == streams
      case Processed(state', leaves, _) =>
        ok && state == state' && streams' == (if leaves then streams - {id} else streams)
    }

    /** The part of handleStreamMessage after the stream has been found. */
    method HandleFrame(f: Frame, ghost e: End) returns (ok: bool)
      requires Shows(e) && e.phase.Live? && e.rx == []
      modifies this`state, this`recvWindow, this`sendWindow, this`recvBuf, this`recvToken, this`sendToken
      modifies session`streams
      ensures Woken(old(recvToken), old(sendToken), e.state, f, ok)
      ensures session.streams == old(session.streams) || session.streams == old(session.streams) - {id}
      ensures match HandleCall(e, Unsyn(f), Admit)
              case Failed(_) => !ok
              case Moved(e', out) =>
                && ok && Shows(e') && out == []
                && session.streams == (if e'.phase.Live? then old(session.streams) else old(session.streams) - {id})
    {
      match f {
        case WindowUpdate(flags, delta) => ok := IncrSendWindow(flags, delta);
        case Data(flags, payload) =>
          ok := ReadData(flags, payload);
          assert recvBuf + [] == recvBuf;
          AtomicSubIsSubtraction(e.recvWindow, |payload|);
      }
    }

    /** One pass of Read from START: it returns, or goes to wait for recvNotifyCh. */
    method TryRead(n: nat, ghost e: End) returns (r: ReadResult)
      requires Valid() && Shows(e) && e.handed && e.updater.Free? && e.max == session.max
      modifies this`state, this`recvWindow, this`recvBuf, this`recvToken, controlHdr, session`sendCh
      ensures r.ConnectionReset? <==> e.state.Reset?
      ensures r.Eof? <==> (e.state.RemoteClose? || e.state.Closed?) && e.buf == []
      ensures r.Blocked? <==> !r.ConnectionReset? && !r.Eof? && e.buf == []
      ensures r.Got? ==> r.data == e.buf[..Min(n, |e.buf|)] && Shows(ReadCall(e, |r.data|).e)
                         && session.sendCh == old(session.sendCh) + ReadiesOf(id, ReadCall(e, |r.data|).out)
      ensures r.Got? ==>
                && |r.data| == (if n <= |old(recvBuf)| then n else |old(recvBuf)|)
                && old(recvBuf) == r.data + recvBuf && Announced(old(state), old(recvWindow), old(session.sendCh))
      ensures !r.Got? ==> Shows(e) && session.sendCh == old(session.sendCh)
      ensures recvToken == (old(recvToken) || !r.Blocked?)
    {
      if (state == RemoteClose || state == Closed) && |recvBuf| == 0 {
        recvToken := true;
        return Eof;
      }
      if state == Reset {
        recvToken := true;
        return ConnectionReset;
      }
      if |recvBuf| == 0 {
        return Blocked;
      }
      var k := Min(n, |recvBuf|);
      r := Got(recvBuf[..k]);
      recvBuf := recvBuf[k..];
      SendWindowUpdateActs(Apply(Apply(e, Read(k)).e, StartUpdate).e);
      recvToken := true;
    }

    /** One pass of write from START; TimedOut stands for going to wait for sendNotifyCh. */
    method WriteOnce(b: seq<byte>) returns (n: nat, r: WriteResult)
      requires Valid() && b != []
      modifies this`state, this`sendWindow, sendHdr, session`sendCh
      ensures r == (if old(state) == LocalClose || old(state) == Closed then StreamClosed
                    else if old(state) == Reset then WriteReset
                    else if old(sendWindow) == 0 then TimedOut else Done)
      ensures !r.Done? ==>
                && n == 0 && state == old(state) && sendWindow == old(sendWindow)
                && session.sendCh == old(session.sendCh)
      ensures r.Done? ==>
                && n == (if old(sendWindow) <= |b| % U32 then old(sendWindow) else |b| % U32)
                && sendWindow == old(sendWindow) - n
                && state == YamuxTypes.SendFlags(old(state)).1
                && session.sendCh == old(session.sendCh) +
                     [ReadyOf(OnStream(id, Data(YamuxTypes.SendFlags(old(state)).0, b[..n])))]
    {
      if state == LocalClose || state == Closed {
        return 0, StreamClosed;
      }
      if state == Reset {
        return 0, WriteReset;
      }
      var window := sendWindow;
      if window == 0 {
        return 0, TimedOut;
      }
      var flags := SendFlags();
      n := WriteSize(window, |b|);
      PostHeader(sendHdr, TYPE_DATA, flags, n, b[..n]);
      AtomicSubIsSubtraction(sendWindow, n);
      sendWindow := AtomicSub(sendWindow, n);
      r := Done;
    }

    /** The same pass, as the actions of the stream's end. */
    method WriteOnceActs(b: seq<byte>, ghost e: End) returns (n: nat, r: WriteResult)
      requires Valid() && Shows(e) && e.handed && e.writer.Idle? && b != []
      modifies this`state, this`sendWindow, sendHdr, session`sendCh
      ensures r == (if e.state.LocalClose? || e.state.Closed? then StreamClosed else if e.state.Reset? then WriteReset
                    else if e.sendWindow == 0 then TimedOut else Done)
      ensures r.Done? ==>
                && n == WriteSize(e.sendWindow, |b|) && Shows(WriteCall(e, b).e)
                && session.sendCh == old(session.sendCh) + ReadiesOf(id, WriteCall(e, b).out)
      ensures !r.Done? ==> n == 0 && Shows(e) && session.sendCh == old(session.sendCh)
    {
      n, r := WriteOnce(b);
      if r.Done? {
        WriteCallIs(e, b);
        AtomicSubIsSubtraction(e.sendWindow, n);
        assert ReadiesOf(id, WriteCall(e, b).out) == [ReadyOf(OnStream(id, WriteCall(e, b).out[0]))];
      }
    }

    /** A window update arrives while Write waits. */
    method WaitForWindow(grant: u32, ghost e: End)
      requires Shows(e)
      modifies this`state, this`sendWindow, this`recvToken, this`sendToken, session`streams
      ensures Shows(GrantCall(e, grant))
      ensures session.streams == old(session.streams) && recvToken == old(recvToken) && sendToken
    {
      var ok := IncrSendWindow(NONE, grant);
    }

    /** One turn of Write: a pass of write, or the wait before the next. `w` is the write from here on, and `more`
        what is left of it then. */
    method Turn(b: seq<byte>, grants: seq<u32>, ghost e: End, ghost w: Written)
      returns (n: nat, r: WriteResult, waited: bool, ghost next: End, ghost out: seq<Frame>, ghost more: Written)
      requires Valid() && Shows(e) && Writes(e, b, grants, w) && b != []
      modifies this`state, this`sendWindow, this`recvToken, this`sendToken, sendHdr, session`sendCh, session`streams
      ensures Shows(next) && session.sendCh == old(session.sendCh) + ReadiesOf(id, out)
      ensures session.streams == old(session.streams) && recvToken == old(recvToken)
      ensures n <= |b| && (waited ==> grants != [] && n == 0) && (r.Done? ==> n > 0 || waited)
      ensures r.Done? ==>
                && Writes(next, b[n..], if waited then grants[1..] else grants, more)
                && Continues(w, out, n, more)
      ensures !r.Done? ==> n == 0 && w == Written(next, out, 0, r)
    {
      n, r := WriteOnceActs(b, e);
      next, out, waited, more := e, [], false, w;
      if r.Done? {
        WriteCallIs(e, b);
        next, out := PassEnd(e, b), [PassFrame(e, b)];
        if n == 0 {
          r := Spinning;
        } else {
          more := WriteRun(next, b[n..], grants);
        }
      } else if r.TimedOut? && grants != [] {
        WaitForWindow(grants[0], e);
        next, waited, r := GrantCall(e, grants[0]), true, Done;
      }
      assert session.sendCh == old(session.sendCh) + ReadiesOf(id, out);
    }

    /** Write, when it is given `grants` of window, one each time it waits, and then its deadline passes. */
    method Write(b: seq<byte>, grants: seq<u32>, ghost e: End)
      returns (total: nat, r: WriteResult, ghost w: Written)
      requires Valid() && Shows(e) && e.handed && e.writer.Idle?
      modifies this`state, this`sendWindow, this`recvToken, this`sendToken, sendHdr, session`sendCh, session`streams
      ensures w == WriteRun(e, b, grants) && Shows(w.e) && total == w.total && r == w.result
      ensures session.sendCh == old(session.sendCh) + ReadiesOf(id, w.out)
      ensures session.streams == old(session.streams) && recvToken == old(recvToken)
      ensures b == [] ==> total == 0 && r.Done?
      ensures b != [] && (old(state).LocalClose? || old(state).Closed?) ==> total == 0 && r.StreamClosed?
      ensures b != [] && old(state).Reset? ==> total == 0 && r.WriteReset?
      ensures old(state) !in {LocalClose, Closed, Reset} && old(sendWindow) + Sum(grants) < U32 ==>
                Sends(w, b, old(sendWindow) + Sum(grants))
    {
      if MayWrite(e.state) && e.sendWindow + Sum(grants) < U32 {
        WriteSendsPrefix(e, b, grants);
      }
      w := WriteRun(e, b, grants);
      total, r := WriteLoop(b, grants, e, w);
    }

    method WriteLoop(b: seq<byte>, grants: seq<u32>, ghost e: End, ghost w: Written)
      returns (total: nat, r: WriteResult)
      requires Valid() && Shows(e) && Writes(e, b, grants, w)
      modifies this`state, this`sendWindow, this`recvToken, this`sendToken, sendHdr, session`sendCh, session`streams
      ensures Shows(w.e) && total == w.total && r == w.result
      ensures session.sendCh == old(session.sendCh) + ReadiesOf(id, w.out)
      ensures session.streams == old(session.streams) && recvToken == old(recvToken)
    {
      total, r := 0, Done;
      var left, rest := b, grants;
      ghost var now, sent, more := e, [], w;
      assert session.sendCh + ReadiesOf(id, sent) == session.sendCh && Continues(w, [], 0, w);
      while left != []
        invariant total + |left| == |b| && r.Done? && Shows(now)
        invariant Writes(now, left, rest, more) && Continues(w, sent, total, more)
        invariant session.sendCh == old(session.sendCh) + ReadiesOf(id, sent)
        invariant session.streams == old(session.streams) && recvToken == old(recvToken)
        decreases |rest|, |left|
      {
        var n, waited;
        ghost var out;
        n, r, waited, now, out, more := Turn(left, rest, now, more);
        PostedMore(old(session.sendCh), id, sent, out);
        Regroup(sent, out, more.out);
        sent, total := sent + out, total + n;
        if !r.Done? {
          return;
        }
        left := left[n..];
        if waited {
          rest := rest[1..];
        }
      }
      assert more.out == [] && sent + more.out == sent;
    }
  }

  ghost predicate Writes(e: End, b: seq<byte>, grants: seq<u32>, w: Written) {
    e.handed && e.writer.Idle? && w == WriteRun(e, b, grants)
  }

  /** `whole` is what has happened so far, followed by `rest`. */
  ghost predicate Continues(whole: Written, sent: seq<Frame>, total: nat, rest: Written) {
    whole == Written(rest.e, sent + rest.out, total + rest.total, rest.result)
  }

  lemma PostedMore(queue: seq<Ready>, id: u32, a: seq<Frame>, b: seq<Frame>)
    ensures (queue + ReadiesOf(id, a)) + ReadiesOf(id, b) == queue + ReadiesOf(id, a + b)
  {
    ReadiesJoin(id, a, b);
  }

  lemma ReadiesJoin(id: u32, a: seq<Frame>, b: seq<Frame>)
    ensures ReadiesOf(id, a + b) == ReadiesOf(id, a) + ReadiesOf(id, b)
  {
  }
}
