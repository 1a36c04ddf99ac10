/**
  Blocking and waking in Stream.Read and Stream.write: channels of capacity one, notified without
  blocking, any number of concurrent Reads and one write at a time.
 */
module YamuxWakeup {
  import opened YamuxTypes

  // ---- readers ----

  /** Readers differ only in where they are, so they are counted by place. */
  datatype Readers = Readers(
    starting: nat,     // at START
    checking: nat,     // past the state check, before the buffer check
    parked: nat,       // waiting on recvNotifyCh
    leaving: nat,      // returning; the deferred asyncNotify is still to run
    token: bool,       // recvNotifyCh is full
    notifying: nat,    // between changing the stream and calling asyncNotify
    available: nat,    // bytes in recvBuf
    state: State
  )

  datatype ReaderMove =
    | Call
    | CheckState
    | CheckBuffer(k: nat)
    | Wake
    | TimeOut
    | Return
    | Notify
    | DataArrives(n: nat)
    | StateBecomes(state: State)   // FIN, RST or Close, followed by notifyWaiting
    | Opens(state: State)          // sendFlags or an ACK, which notify nobody

  predicate RemoteClosed(state: State) {
    state.RemoteClose? || state.Closed?
  }

  /** Nothing brings a stream back once the remote side has closed or reset it. */
  predicate MayBecome(from: State, to: State) {
    from.Reset? || RemoteClosed(from) ==> to.Reset? || RemoteClosed(to)
  }

  predicate IsOpening(from: State, to: State) {
    (from.Init? && to.SynSent?) || ((from.SynSent? || from.SynReceived?) && to.Established?)
  }

  predicate CanRead(r: Readers, m: ReaderMove) {
    match m
    case Call => true
    case CheckState => r.starting > 0
    case CheckBuffer(k) => r.checking > 0 && k <= r.available
    case Wake => r.parked > 0 && r.token
    case TimeOut => r.parked > 0
    case Return => r.leaving > 0
    case Notify => r.notifying > 0
    case DataArrives(n) => n > 0
    case StateBecomes(state) => MayBecome(r.state, state)
    case Opens(state) => IsOpening(r.state, state)
  }

  function DoRead(r: Readers, m: ReaderMove): Readers
    requires CanRead(r, m)
  {
    match m
    case Call => r.(starting := r.starting + 1)
    case CheckState =>
      if r.state.Reset? || (RemoteClosed(r.state) && r.available == 0)
      then r.(starting := r.starting - 1, leaving := r.leaving + 1)
      else r.(starting := r.starting - 1, checking := r.checking + 1)
    case CheckBuffer(k) =>
      if r.available == 0 then r.(checking := r.checking - 1, parked := r.parked + 1)
      else r.(checking := r.checking - 1, leaving := r.leaving + 1, available := r.available - k)
    case Wake => r.(parked := r.parked - 1, starting := r.starting + 1, token := false)
    case TimeOut => r.(parked := r.parked - 1, leaving := r.leaving + 1)
    case Return => r.(leaving := r.leaving - 1, token := true)
    case Notify => r.(notifying := r.notifying - 1, token := true)
    case DataArrives(n) => r.(available := r.available + n, notifying := r.notifying + 1)
    case StateBecomes(state) =>
      r.(state := state, notifying := r.notifying + 1)
    case Opens(state) => r.(state := state)
  }

  /** A Read that looked now would return. */
  predicate Readable(r: Readers) {
    r.available > 0 || r.state.Reset? || RemoteClosed(r.state)
  }

  /** Someone will still look at the stream, or will still notify. */
  predicate ReaderAlert(r: Readers) {
    || r.token || r.notifying > 0 || r.starting > 0 || r.leaving > 0
    || (r.available > 0 && r.checking > 0)
  }

  predicate ReadersOk(r: Readers) {
    Readable(r) && (r.parked > 0 || r.checking > 0) ==> ReaderAlert(r)
  }

  lemma ReaderMovesKeep(r: Readers, m: ReaderMove)
    requires ReadersOk(r) && CanRead(r, m)
    ensures ReadersOk(DoRead(r, m))
  {
    match m
    case CheckState =>
    case CheckBuffer(k) =>
    case _ =>
  }

  predicate ReaderRuns(r: Readers, moves: seq<ReaderMove>)
    decreases |moves|
  {
    moves == [] || (CanRead(r, moves[0]) && ReaderRuns(DoRead(r, moves[0]), moves[1..]))
  }

  function ReadersAfter(r: Readers, moves: seq<ReaderMove>): Readers
    requires ReaderRuns(r, moves)
    decreases |moves|
  {
    if moves == [] then r else ReadersAfter(DoRead(r, moves[0]), moves[1..])
  }

  /** A stream that nobody reads yet. */
  function NoReaders(state: State): Readers {
    Readers(0, 0, 0, 0, false, 0, 0, state)
  }

  lemma {:induction false} ReaderRunsKeep(r: Readers, moves: seq<ReaderMove>)
    requires ReadersOk(r) && ReaderRuns(r, moves)
    ensures ReadersOk(ReadersAfter(r, moves))
    decreases |moves|
  {
    if moves != [] {
      ReaderMovesKeep(r, moves[0]);
      ReaderRunsKeep(DoRead(r, moves[0]), moves[1..]);
    }
  }

  /** No lost wake-up: in every run, a blocked Read that has something to return has a token to take, a
      notifier on its way, or another Read that will pass the token on. */
  lemma NoReaderIsForgotten(state: State, moves: seq<ReaderMove>)
    requires ReaderRuns(NoReaders(state), moves)
    ensures var r := ReadersAfter(NoReaders(state), moves);
            r.parked > 0 && Readable(r) ==> ReaderAlert(r)
  {
    ReaderRunsKeep(NoReaders(state), moves);
  }

  /** The moves that need neither the peer, nor the application, nor a timer. */
  predicate Internal(m: ReaderMove) {
    m.CheckState? || m.CheckBuffer? || m.Wake? || m.Return? || m.Notify?
  }

  function Pressure(r: Readers): nat {
    (if r.token then 4 else 0) + 5 * r.notifying
    + 8 * r.starting + 7 * r.checking + 5 * r.parked + 6 * r.leaving
  }

  lemma InternalMovesEnd(r: Readers, m: ReaderMove)
    requires CanRead(r, m) && Internal(m)
    ensures Pressure(DoRead(r, m)) < Pressure(r)
  {
  }

  lemma {:induction false} InternalRunsAreBounded(r: Readers, moves: seq<ReaderMove>)
    requires ReaderRuns(r, moves) && forall i :: 0 <= i < |moves| ==> Internal(moves[i])
    ensures |moves| + Pressure(ReadersAfter(r, moves)) <= Pressure(r)
    decreases |moves|
  {
    if moves != [] {
      InternalMovesEnd(r, moves[0]);
      InternalRunsAreBounded(DoRead(r, moves[0]), moves[1..]);
    }
  }

  predicate Settled(r: Readers) {
    r.starting == 0 && r.checking == 0 && r.leaving == 0 && r.notifying == 0 && !(r.token && r.parked > 0)
  }

  lemma SettledMeansStuck(r: Readers)
    ensures Settled(r) <==> forall m :: Internal(m) ==> !CanRead(r, m)
  {
    assert CanRead(r, CheckState) <==> r.starting > 0;
    assert CanRead(r, CheckBuffer(0)) <==> r.checking > 0;
    assert CanRead(r, Return) <==> r.leaving > 0;
    assert CanRead(r, Notify) <==> r.notifying > 0;
    assert CanRead(r, Wake) <==> r.parked > 0 && r.token;
  }

  /** Left to itself a stream settles within a bounded number of moves, and then a Read that is still
      blocked has nothing to return. */
  lemma BlockedReadsHaveReason(state: State, moves: seq<ReaderMove>, quiet: seq<ReaderMove>)
    requires ReaderRuns(NoReaders(state), moves) && ReaderRuns(ReadersAfter(NoReaders(state), moves), quiet)
    requires forall i :: 0 <= i < |quiet| ==> Internal(quiet[i])
    ensures |quiet| <= Pressure(ReadersAfter(NoReaders(state), moves))
    ensures var r := ReadersAfter(ReadersAfter(NoReaders(state), moves), quiet);
            Settled(r) && r.parked > 0 ==> !Readable(r)
  {
    ReaderRunsKeep(NoReaders(state), moves);
    InternalRunsAreBounded(ReadersAfter(NoReaders(state), moves), quiet);
    ReaderRunsKeep(ReadersAfter(NoReaders(state), moves), quiet);
  }

  // ---- the writer ----

  datatype Place = Away | AtStart | AtWindow | Parked

  datatype Sender = Sender(
    place: Place,
    token: bool,       // sendNotifyCh is full
    notifying: nat,
    window: nat,       // sendWindow
    state: State
  )

  datatype SenderMove =
    | Enter
    | LookAtState
    | LookAtWindow
    | WakeUp
    | GiveUp
    | Spend(n: nat)
    | NotifySender
    | WindowGrows(n: nat)
    | StateTurns(state: State)
    | StateOpens(state: State)

  predicate StaysShut(from: State, to: State) {
    MayWrite(to) ==> MayWrite(from)
  }

  predicate CanSend(s: Sender, m: SenderMove) {
    match m
    case Enter => s.place.Away?
    case LookAtState => s.place.AtStart?
    case LookAtWindow => s.place.AtWindow?
    case WakeUp => s.place.Parked? && s.token
    case GiveUp => s.place.Parked?
    case Spend(n) => s.place.Away? && n <= s.window
    case NotifySender => s.notifying > 0
    case WindowGrows(n) => true
    case StateTurns(state) => StaysShut(s.state, state)
    case StateOpens(state) => IsOpening(s.state, state)
  }

  function DoSend(s: Sender, m: SenderMove): Sender
    requires CanSend(s, m)
  {
    match m
    case Enter => s.(place := AtStart)
    case LookAtState => s.(place := if MayWrite(s.state) then AtWindow else Away)
    case LookAtWindow => s.(place := if s.window == 0 then Parked else Away)
    case WakeUp => s.(place := AtStart, token := false)
    case GiveUp => s.(place := Away)
    case Spend(n) => s.(window := s.window - n)
    case NotifySender => s.(notifying := s.notifying - 1, token := true)
    case WindowGrows(n) => s.(window := s.window + n, notifying := s.notifying + 1)
    case StateTurns(state) => s.(state := state, notifying := s.notifying + 1)
    case StateOpens(state) => s.(state := state)
  }

  predicate Sendable(s: Sender) {
    s.window > 0 || !MayWrite(s.state)
  }

  predicate SenderOk(s: Sender) {
    && (s.place.Parked? && Sendable(s) ==> s.token || s.notifying > 0)
    && (s.place.AtWindow? && !MayWrite(s.state) ==> s.token || s.notifying > 0)
  }

  lemma SenderMovesKeep(s: Sender, m: SenderMove)
    requires SenderOk(s) && CanSend(s, m)
    ensures SenderOk(DoSend(s, m))
  {
  }

  predicate SenderRuns(s: Sender, moves: seq<SenderMove>)
    decreases |moves|
  {
    moves == [] || (CanSend(s, moves[0]) && SenderRuns(DoSend(s, moves[0]), moves[1..]))
  }

  function SenderAfter(s: Sender, moves: seq<SenderMove>): Sender
    requires SenderRuns(s, moves)
    decreases |moves|
  {
    if moves == [] then s else SenderAfter(DoSend(s, moves[0]), moves[1..])
  }

  lemma {:induction false} SenderRunsKeep(s: Sender, moves: seq<SenderMove>)
    requires SenderOk(s) && SenderRuns(s, moves)
    ensures SenderOk(SenderAfter(s, moves))
    decreases |moves|
  {
    if moves != [] {
      SenderMovesKeep(s, moves[0]);
      SenderRunsKeep(DoSend(s, moves[0]), moves[1..]);
    }
  }

  /** A write blocked although there is window, or although it must fail, has a token or a notifier. */
  lemma NoWriterIsForgotten(window: nat, state: State, moves: seq<SenderMove>)
    requires SenderRuns(Sender(Away, false, 0, window, state), moves)
    ensures var s := SenderAfter(Sender(Away, false, 0, window, state), moves);
            s.place.Parked? && Sendable(s) ==> s.token || s.notifying > 0
  {
    SenderRunsKeep(Sender(Away, false, 0, window, state), moves);
  }
}
