/**
  One end of a stream, with the program counters of the goroutines that work on it.

  Every action is one atomic section of stream.go: a section under a lock, an atomic load or add, or
  handing a frame to the session's send queue.  Whatever lies between two actions of one goroutine may
  be interleaved with the actions of every other.
 */
module YamuxEnd {
  import opened Options
  import opened Bytes
  import opened YamuxTypes

  datatype Role = Opener | Acceptor

  /** Live: in the session's table.  Gone: taken out, though the application may still hold it.
      Refused: an incoming stream that was answered with RST and never existed for the application. */
  datatype Phase = Fresh | Live | Gone | Refused

  /** Where the goroutine holding sendLock is: after the state check, after loading a non-zero window,
      after sendFlags, and between sending the frame and reducing the window. */
  datatype Writer = Idle | Checked | Loaded(window: u32) | Flagged(window: u32, flags: Flags) | Sent(n: u32)

  /** Where the goroutine holding controlHdrLock is inside sendWindowUpdate.  `first` marks the call made
      by OpenStream or AcceptStream, before the application is given the stream. */
  datatype Updater =
    | Free
    | Held(first: bool)
    | Computed(first: bool, delta: u32)
    | Announced(first: bool, delta: u32, flags: Flags)
    | Posted(first: bool, delta: u32)

  datatype End = End(
    role: Role,
    max: u32,                // config.MaxStreamWindowSize
    phase: Phase,
    handed: bool,            // OpenStream or AcceptStream has returned the stream
    state: State,
    recvWindow: u32,
    sendWindow: u32,
    buf: seq<byte>,          // recvBuf
    rx: seq<Frame>,          // the frame that recv is working on after processFlags, if any
    writer: Writer,
    updater: Updater,
    owing: nat,              // Reads that took bytes and have not entered sendWindowUpdate yet
    finDue: bool,            // Close has changed the state and sendClose has not sent the FIN yet
    // history
    credit: int,             // sendWindow without wrap-around, reduced when the frame is sent
    sent: seq<byte>,         // payload handed to the session, in order
    read: seq<byte>,         // bytes returned by Read, in order
    finMark: Option<nat>,    // how many payload bytes were sent before the FIN
    finsSent: nat,           // how many frames with FIN were sent
    lostGrant: nat,          // window that the peer granted in updates dropped here
    lostBytes: nat           // payload dropped here, because the stream was not in the table
  )

  function FreshEnd(role: Role, max: u32): End {
    End(role, max, Fresh, false, if role.Opener? then Init else SynReceived,
        INITIAL_STREAM_WINDOW, INITIAL_STREAM_WINDOW, [], [], Idle, Free, 0, false,
        INITIAL_STREAM_WINDOW, [], [], None, 0, 0, 0)
  }

  datatype Action =
    | Open
    | Accept
    | Read(k: nat)
    | StartUpdate
    | ComputeDelta
    | AnnounceUpdate
    | OmitUpdate
    | PostUpdate
    | BumpWindow
    | Close
    | PostFin
    | WriteCheck
    | WriteLoad
    | WriteFlags
    | WritePost(b: seq<byte>)
    | WriteReduce

  /** What a step does to an end: its next value and the frames it puts on the wire, or the error that
      ends the session. */
  datatype Outcome = Moved(e: End, out: seq<Frame>) | Failed(error: Error)

  predicate Started(e: End) {
    e.phase.Live? || e.phase.Gone?
  }

  predicate Enabled(e: End, a: Action) {
    match a
    case Open => e.role.Opener? && e.phase.Fresh?
    case Accept => e.role.Acceptor? && e.phase.Live? && !e.handed && e.updater.Free?
    case Read(k) => e.handed && e.buf != [] && k <= |e.buf|
    case StartUpdate => e.owing > 0 && e.updater.Free?
    case ComputeDelta => e.updater.Held?
    case AnnounceUpdate => e.updater.Computed?
    case OmitUpdate => e.updater.Announced? && OmitsUpdate(e.max, e.updater.delta, e.updater.flags)
    case PostUpdate => e.updater.Announced? && !OmitsUpdate(e.max, e.updater.delta, e.updater.flags)
    case BumpWindow => e.updater.Posted?
    case Close => e.handed
    case PostFin => e.finDue && e.updater.Free?
    case WriteCheck => e.handed && e.writer.Idle? && MayWrite(e.state)
    case WriteLoad => e.writer.Checked?
    case WriteFlags => e.writer.Loaded?
    case WritePost(b) => e.writer.Flagged? && b != []
    case WriteReduce => e.writer.Sent?
  }

  function DoneUpdating(e: End): End
    requires !e.updater.Free?
  {
    e.(updater := Free, handed := e.handed || e.updater.first)
  }

  function Leave(e: End, leaves: bool): End {
    if leaves then e.(phase := Gone) else e
  }

  function Apply(e: End, a: Action): Outcome
    requires Enabled(e, a)
  {
    match a
    case Open => Moved(e.(phase := Live, updater := Held(true)), [])
    case Accept => Moved(e.(updater := Held(true)), [])
    case Read(k) => Moved(e.(buf := e.buf[k..], read := e.read + e.buf[..k], owing := e.owing + 1), [])
    case StartUpdate => Moved(e.(owing := e.owing - 1, updater := Held(false)), [])
    case ComputeDelta =>
      Moved(e.(updater := Computed(e.updater.first, UpdateDelta(e.max, e.recvWindow))), [])
    case AnnounceUpdate =>
      var (flags, state) := SendFlags(e.state);
      Moved(e.(state := state, updater := Announced(e.updater.first, e.updater.delta, flags)), [])
    case OmitUpdate => Moved(DoneUpdating(e), [])
    case PostUpdate =>
      Moved(e.(updater := Posted(e.updater.first, e.updater.delta)),
            [WindowUpdate(e.updater.flags, e.updater.delta)])
    case BumpWindow =>
      Moved(DoneUpdating(e).(recvWindow := Add32(e.recvWindow, e.updater.delta)), [])
    case Close =>
      (match CloseState(e.state)
       case Closing(state, leaves, sendsFin) =>
         Moved(Leave(e, leaves).(state := state, finDue := e.finDue || sendsFin), [])
       case Panics => Failed(UnhandledState))
    case PostFin =>
      var (flags, state) := SendFlags(e.state);
      Moved(e.(state := state, finDue := false, finMark := Some(|e.sent|), finsSent := e.finsSent + 1),
            [WindowUpdate(flags.(fin := true), 0)])
    case WriteCheck => Moved(e.(writer := Checked), [])
    case WriteLoad => Moved(e.(writer := if e.sendWindow == 0 then Idle else Loaded(e.sendWindow)), [])
    case WriteFlags =>
      var (flags, state) := SendFlags(e.state);
      Moved(e.(state := state, writer := Flagged(e.writer.window, flags)), [])
    case WritePost(b) =>
      var n := WriteSize(e.writer.window, |b|);
      Moved(e.(writer := Sent(n), sent := e.sent + b[..n], credit := e.credit - n),
            [Data(e.writer.flags, b[..n])])
    case WriteReduce =>
      Moved(e.(writer := Idle, sendWindow := AtomicSub(e.sendWindow, e.writer.n)), [])
  }

  // ---- receiving ----

  /** incomingStream accepts, or answers RST because of a go-away or a full accept backlog. */
  datatype Admission = Admit | GoingAway | BacklogFull

  /** incomingStream. */
  function IncomingStream(e: End, admission: Admission): Outcome {
    if admission.GoingAway? then
      Moved(if e.phase.Fresh? then e.(phase := Refused) else e, [WindowUpdate(RST, 0)])
    else if e.phase.Live? then
      Failed(DuplicateStream)
    else if admission.Admit? then
      Moved(FreshEnd(Acceptor, e.max).(phase := Live), [])
    else
      Moved(if e.phase.Fresh? then e.(phase := Refused) else e, [WindowUpdate(RST, 0)])
  }

  function Drop(e: End, f: Frame): End {
    e.(lostGrant := e.lostGrant + Grant(f), lostBytes := e.lostBytes + Size(f))
  }

  /** handleStreamMessage up to and including processFlags.  A frame for a stream that is not in the
      table is dropped; otherwise it waits in `rx` for its payload to be applied. */
  function TakeFrame(e: End, f: Frame, admission: Admission): Outcome {
    var incoming := if f.flags.syn then IncomingStream(e, admission) else Moved(e, []);
    match incoming
    case Failed(_) => incoming
    case Moved(e1, reply) =>
      if !e1.phase.Live? then Moved(Drop(e1, f), reply) else
      match ProcessFlags(e1.state, f.flags)
      case Rejected => Failed(UnexpectedFlag)
      case Processed(state, leaves, _) => Moved(Leave(e1, leaves).(state := state, rx := [f]), reply)
  }

  /** The rest of incrSendWindow or readData. */
  function FinishFrame(e: End): Outcome
    requires e.rx != []
  {
    var e1 := e.(rx := []);
    match e.rx[0]
    case WindowUpdate(_, delta) =>
      Moved(e1.(sendWindow := Add32(e.sendWindow, delta), credit := e.credit + delta), [])
    case Data(_, payload) =>
      if |payload| == 0 then Moved(e1, [])
      else if |payload| > e.recvWindow then Failed(RecvWindowExceeded)
      else Moved(e1.(buf := e.buf + payload, recvWindow := AtomicSub(e.recvWindow, |payload|)), [])
  }
}
