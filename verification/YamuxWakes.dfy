/** The blocking models of YamuxWakeup see every step of a stream's end as one of their own moves, with the
    notification that the step owes, or do not see it at all. */
module YamuxWakes {
  import opened Options
  import opened YamuxTypes
  import opened YamuxEnd
  import opened YamuxInv
  import opened YamuxKept
  import opened YamuxWakeup

  // ---- what readers see ----

  predicate ReadersSee(r: Readers, e: End) {
    r.available == |e.buf| && r.state == e.state
  }

  /** `r` becomes a view of `e'` by the move `m`, or is one already. */
  predicate ReadersFollow(r: Readers, m: Option<ReaderMove>, e': End) {
    match m
    case None => ReadersSee(r, e')
    case Some(move) => CanRead(r, move) && ReadersSee(DoRead(r, move), e')
  }

  function StateMove(from: State, to: State, opens: bool): Option<ReaderMove> {
    if to == from then None else if opens then Some(Opens(to)) else Some(StateBecomes(to))
  }

  function ReaderMoveOfAction(e: End, a: Action): Option<ReaderMove>
    requires Enabled(e, a) && Apply(e, a).Moved?
  {
    if a.Read? then Some(CheckBuffer(a.k)) else StateMove(e.state, Apply(e, a).e.state, !a.Close?)
  }

  /** Only Close turns the state without opening the stream, and then it goes on to notify everyone. */
  lemma ActionsAreReaderMoves(r: Readers, e: End, a: Action)
    requires ReadersSee(r, e) && Enabled(e, a) && Apply(e, a).Moved? && (a.Read? ==> r.checking > 0)
    ensures ReadersFollow(r, ReaderMoveOfAction(e, a), Apply(e, a).e)
    ensures a.Close? ==> (CloseState(e.state).sendsFin <==> Apply(e, a).e.state != e.state)
  {
  }

  predicate ForStream(e: End, f: Frame) {
    PhaseOk(e) && (f.flags.syn ==> e.phase.Fresh? && e.role.Acceptor?)
  }

  function ReaderMoveOfTake(e: End, f: Frame, admission: Admission): Option<ReaderMove>
    requires TakeFrame(e, f, admission).Moved?
  {
    StateMove(e.state, TakeFrame(e, f, admission).e.state, f.flags.ack)
  }

  /** Flags that turn the state are those that processFlags calls notifyWaiting for. */
  lemma TakesAreReaderMoves(r: Readers, e: End, f: Frame, admission: Admission)
    requires ReadersSee(r, e) && ForStream(e, f) && TakeFrame(e, f, admission).Moved?
    ensures ReadersFollow(r, ReaderMoveOfTake(e, f, admission), TakeFrame(e, f, admission).e)
    ensures var m := ReaderMoveOfTake(e, f, admission);
            m.Some? && m.value.StateBecomes? ==> Notifies(ProcessFlags(e.state, f.flags))
  {
  }

  function ReaderMoveOfFinish(e: End): Option<ReaderMove>
    requires e.rx != []
  {
    if Size(e.rx[0]) > 0 then Some(DataArrives(Size(e.rx[0]))) else None
  }

  lemma FinishesAreReaderMoves(r: Readers, e: End)
    requires ReadersSee(r, e) && e.rx != [] && FinishFrame(e).Moved?
    ensures ReadersFollow(r, ReaderMoveOfFinish(e), FinishFrame(e).e)
  {
  }

  // ---- what the writer sees ----

  /** The writer of the blocking model is where the end's writer is. The window is the unbounded one: while a
      write looks at it nothing is unreduced, and sendWindow holds just that. */
  predicate SenderSees(s: Sender, e: End) {
    && s.state == e.state && s.window == e.credit + Unreduced(e)
    && (s.place.AtWindow? <==> e.writer.Checked?)
    && (!e.writer.Idle? && !e.writer.Checked? ==> s.place.Away?)
  }

  predicate SenderFollows(s: Sender, m: Option<SenderMove>, e': End) {
    match m
    case None => SenderSees(s, e')
    case Some(move) => CanSend(s, move) && SenderSees(DoSend(s, move), e')
  }

  function StateTurn(from: State, to: State, opens: bool): Option<SenderMove> {
    if to == from then None else if opens then Some(StateOpens(to)) else Some(StateTurns(to))
  }

  function SenderMoveOfAction(e: End, a: Action): Option<SenderMove>
    requires Enabled(e, a) && Apply(e, a).Moved?
  {
    match a
    case WriteCheck => Some(LookAtState)
    case WriteLoad => Some(LookAtWindow)
    case WriteReduce => Some(Spend(e.writer.n))
    case _ => StateTurn(e.state, Apply(e, a).e.state, !a.Close?)
  }

  lemma WritesAreSenderMoves(s: Sender, e: End, a: Action)
    requires SenderSees(s, e) && SendWindowOk(e) && e.credit < U32 && ByWriter(a)
    requires Enabled(e, a) && Apply(e, a).Moved? && (a.WriteCheck? ==> s.place.AtStart?)
    ensures SenderFollows(s, SenderMoveOfAction(e, a), Apply(e, a).e)
  {
  }

  lemma OthersAreSenderMoves(s: Sender, e: End, a: Action)
    requires SenderSees(s, e) && !ByWriter(a) && Enabled(e, a) && Apply(e, a).Moved?
    ensures SenderFollows(s, SenderMoveOfAction(e, a), Apply(e, a).e)
  {
    OthersLeaveSendWindow(e, a);
  }

  lemma ActionsAreSenderMoves(s: Sender, e: End, a: Action)
    requires SenderSees(s, e) && SendWindowOk(e) && e.credit < U32
    requires Enabled(e, a) && Apply(e, a).Moved? && (a.WriteCheck? ==> s.place.AtStart?)
    ensures SenderFollows(s, SenderMoveOfAction(e, a), Apply(e, a).e)
  {
    if ByWriter(a) {
      WritesAreSenderMoves(s, e, a);
    } else {
      OthersAreSenderMoves(s, e, a);
    }
  }

  function SenderMoveOfTake(e: End, f: Frame, admission: Admission): Option<SenderMove>
    requires TakeFrame(e, f, admission).Moved?
  {
    StateTurn(e.state, TakeFrame(e, f, admission).e.state, f.flags.ack)
  }

  lemma TakesAreSenderMoves(s: Sender, e: End, f: Frame, admission: Admission)
    requires SenderSees(s, e) && ForStream(e, f) && TakeFrame(e, f, admission).Moved?
    ensures SenderFollows(s, SenderMoveOfTake(e, f, admission), TakeFrame(e, f, admission).e)
    ensures var m := SenderMoveOfTake(e, f, admission);
            m.Some? && m.value.StateTurns? ==> Notifies(ProcessFlags(e.state, f.flags))
  {
  }

  function SenderMoveOfFinish(e: End): Option<SenderMove>
    requires e.rx != []
  {
    if e.rx[0].WindowUpdate? then Some(WindowGrows(Grant(e.rx[0]))) else None
  }

  lemma FinishesAreSenderMoves(s: Sender, e: End)
    requires SenderSees(s, e) && e.rx != [] && FinishFrame(e).Moved?
    ensures SenderFollows(s, SenderMoveOfFinish(e), FinishFrame(e).e)
  {
  }
}
