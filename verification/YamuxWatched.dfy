/** An end of a stream together with the calls that block on it, over whole runs of the link. */
module YamuxWatched {
  import opened Options
  import opened YamuxTypes
  import opened YamuxEnd
  import opened YamuxLink
  import opened YamuxInv
  import opened YamuxKept
  import opened YamuxRuns
  import opened YamuxWakeup
  import opened YamuxWakes

  /** The link, and the readers and the writer at one of its ends. */
  datatype Scene = Scene(l: Link, who: Role, r: Readers, s: Sender)

  function View(x: Scene): Link {
    Seen(x.l, x.who)
  }

  /** A move of this end or of the other, or of a blocked call that touches neither. */
  datatype Happening = Here(m: Move) | There(m: Move) | ReaderMoves(rm: ReaderMove) | WriterMoves(sm: SenderMove)

  /** What a Read does besides taking bytes, which is a move of the end. */
  predicate OwnReaderMove(r: Readers, m: ReaderMove) {
    CanRead(r, m) &&
    match m
    case CheckBuffer(_) => r.available == 0
    case DataArrives(_) => false
    case StateBecomes(_) => false
    case Opens(_) => false
    case _ => true
  }

  /** What a write does besides the actions of the end. One write at a time holds the lock. */
  predicate OwnWriterMove(s: Sender, e: End, m: SenderMove) {
    CanSend(s, m) &&
    match m
    case Enter => e.writer.Idle?
    case LookAtState => !MayWrite(s.state)
    case WakeUp => true
    case GiveUp => true
    case NotifySender => true
    case _ => false
  }

  predicate CanHappen(x: Scene, h: Happening) {
    match h
    case Here(m) =>
      && Can(View(x), m) && Result(View(x), m).Moved?
      && (m.Local? && m.a.Read? ==> x.r.checking > 0) && (m.Local? && m.a.WriteCheck? ==> x.s.place.AtStart?)
    case There(m) => Can(Flip(View(x)), m) && Result(Flip(View(x)), m).Moved?
    case ReaderMoves(m) => OwnReaderMove(x.r, m)
    case WriterMoves(m) => OwnWriterMove(x.s, View(x).me, m)
  }

  function ReaderMoveOf(l: Link, m: Move): Option<ReaderMove>
    requires Can(l, m) && Result(l, m).Moved?
  {
    match m
    case Local(a) => ReaderMoveOfAction(l.me, a)
    case Take(admission) => ReaderMoveOfTake(l.me, l.incoming[0], admission)
    case Finish => ReaderMoveOfFinish(l.me)
  }

  function SenderMoveOf(l: Link, m: Move): Option<SenderMove>
    requires Can(l, m) && Result(l, m).Moved?
  {
    match m
    case Local(a) => SenderMoveOfAction(l.me, a)
    case Take(admission) => SenderMoveOfTake(l.me, l.incoming[0], admission)
    case Finish => SenderMoveOfFinish(l.me)
  }

  function ReadersAfterMove(r: Readers, m: Option<ReaderMove>): Readers {
    if m.Some? && CanRead(r, m.value) then DoRead(r, m.value) else r
  }

  function SenderAfterMove(s: Sender, m: Option<SenderMove>): Sender {
    if m.Some? && CanSend(s, m.value) then DoSend(s, m.value) else s
  }

  function Happens(x: Scene, h: Happening): Scene
    requires CanHappen(x, h)
  {
    match h
    case Here(m) =>
      x.(l := Seen(Do(View(x), m), x.who),
         r := ReadersAfterMove(x.r, ReaderMoveOf(View(x), m)), s := SenderAfterMove(x.s, SenderMoveOf(View(x), m)))
    case There(m) => x.(l := Seen(Flip(Do(Flip(View(x)), m)), x.who))
    case ReaderMoves(m) => x.(r := DoRead(x.r, m))
    case WriterMoves(m) => x.(s := DoSend(x.s, m))
  }

  // ---- what every step keeps ----

  predicate Watching(x: Scene) {
    && OpenerInv(x.l) && x.l.error.None?
    && ReadersSee(x.r, View(x).me) && SenderSees(x.s, View(x).me) && ReadersOk(x.r) && SenderOk(x.s)
  }

  lemma EndFacts(x: Scene)
    requires Watching(x)
    ensures var e := View(x).me; SendWindowOk(e) && e.credit < U32 && PhaseOk(e)
    ensures View(x).incoming != [] && View(x).me.rx == [] ==> ForStream(View(x).me, View(x).incoming[0])
  {
    HeadsOk(x.l);
  }

  predicate Takeable(l: Link, m: Move) {
    m.Take? && l.incoming != [] ==> ForStream(l.me, l.incoming[0])
  }

  lemma ReadersStay(l: Link, r: Readers, m: Move)
    requires Can(l, m) && Result(l, m).Moved? && Takeable(l, m)
    requires ReadersSee(r, l.me) && ReadersOk(r) && (m.Local? && m.a.Read? ==> r.checking > 0)
    ensures ReadersSee(ReadersAfterMove(r, ReaderMoveOf(l, m)), Result(l, m).e)
    ensures ReadersOk(ReadersAfterMove(r, ReaderMoveOf(l, m)))
  {
    match m
    case Local(a) => ActionsAreReaderMoves(r, l.me, a);
    case Take(admission) => TakesAreReaderMoves(r, l.me, l.incoming[0], admission);
    case Finish => FinishesAreReaderMoves(r, l.me);
    ReadersStayOk(r, ReaderMoveOf(l, m));
  }

  lemma ReadersStayOk(r: Readers, m: Option<ReaderMove>)
    requires ReadersOk(r)
    ensures ReadersOk(ReadersAfterMove(r, m))
  {
    if m.Some? && CanRead(r, m.value) {
      ReaderMovesKeep(r, m.value);
    }
  }

  lemma SenderFollowsLink(l: Link, s: Sender, m: Move)
    requires Can(l, m) && Result(l, m).Moved? && Takeable(l, m) && SendWindowOk(l.me) && l.me.credit < U32
    requires SenderSees(s, l.me) && (m.Local? && m.a.WriteCheck? ==> s.place.AtStart?)
    ensures SenderFollows(s, SenderMoveOf(l, m), Result(l, m).e)
  {
    match m
    case Local(a) => ActionsAreSenderMoves(s, l.me, a);
    case Take(admission) => TakesAreSenderMoves(s, l.me, l.incoming[0], admission);
    case Finish => FinishesAreSenderMoves(s, l.me);
  }

  lemma FollowsSees(s: Sender, m: Option<SenderMove>, e: End)
    requires SenderFollows(s, m, e)
    ensures SenderSees(SenderAfterMove(s, m), e)
  {
  }

  lemma SenderStays(l: Link, s: Sender, m: Move)
    requires Can(l, m) && Result(l, m).Moved? && Takeable(l, m) && SendWindowOk(l.me) && l.me.credit < U32
    requires SenderSees(s, l.me) && SenderOk(s) && (m.Local? && m.a.WriteCheck? ==> s.place.AtStart?)
    ensures SenderSees(SenderAfterMove(s, SenderMoveOf(l, m)), Result(l, m).e)
    ensures SenderOk(SenderAfterMove(s, SenderMoveOf(l, m)))
  {
    SenderFollowsLink(l, s, m);
    FollowsSees(s, SenderMoveOf(l, m), Result(l, m).e);
    SenderStaysOk(s, SenderMoveOf(l, m));
  }

  lemma SenderStaysOk(s: Sender, m: Option<SenderMove>)
    requires SenderOk(s)
    ensures SenderOk(SenderAfterMove(s, m))
  {
    if m.Some? && CanSend(s, m.value) {
      SenderMovesKeep(s, m.value);
    }
  }

  lemma LinkStays(x: Scene, who: Role, m: Move)
    requires OpenerInv(x.l) && x.l.error.None? && Can(Seen(x.l, who), m) && Result(Seen(x.l, who), m).Moved?
    ensures var k := Seen(Do(Seen(x.l, who), m), who); OpenerInv(k) && k.error.None?
  {
    StepKeepsInv(x.l, Step(who, m));
  }

  lemma HappeningKeeps(x: Scene, h: Happening)
    requires Watching(x) && CanHappen(x, h)
    ensures Watching(Happens(x, h))
  {
    match h
    case Here(m) =>
      LinkStays(x, x.who, m);
      EndFacts(x);
      ReadersStay(View(x), x.r, m);
      SenderStays(View(x), x.s, m);
    case There(m) => LinkStays(x, if x.who.Opener? then Acceptor else Opener, m);
    case ReaderMoves(m) => ReaderMovesKeep(x.r, m);
    case WriterMoves(m) => SenderMovesKeep(x.s, m);
  }

  // ---- all runs ----

  predicate SceneRuns(x: Scene, hs: seq<Happening>)
    decreases |hs|
  {
    hs == [] || (CanHappen(x, hs[0]) && SceneRuns(Happens(x, hs[0]), hs[1..]))
  }

  function SceneAfter(x: Scene, hs: seq<Happening>): Scene
    requires SceneRuns(x, hs)
    decreases |hs|
  {
    if hs == [] then x else SceneAfter(Happens(x, hs[0]), hs[1..])
  }

  lemma {:induction false} SceneRunsKeep(x: Scene, hs: seq<Happening>)
    requires Watching(x) && SceneRuns(x, hs)
    ensures Watching(SceneAfter(x, hs))
    decreases |hs|
  {
    if hs != [] {
      HappeningKeeps(x, hs[0]);
      SceneRunsKeep(Happens(x, hs[0]), hs[1..]);
    }
  }

  function Opening(openerMax: u32, acceptorMax: u32, who: Role): Scene {
    var l := Start(openerMax, acceptorMax);
    var e := Seen(l, who).me;
    Scene(l, who, NoReaders(e.state), Sender(Away, false, 0, e.sendWindow, e.state))
  }

  /** A parked Read that could return, judged by the stream itself, has someone to wake it; and so has a parked
      write that has window or must fail. */
  predicate NobodyForgotten(e: End, r: Readers, s: Sender) {
    && (r.parked > 0 && (e.buf != [] || e.state.Reset? || RemoteClosed(e.state)) ==> ReaderAlert(r))
    && (s.place.Parked? && (e.sendWindow > 0 || !MayWrite(e.state)) ==> s.token || s.notifying > 0)
  }

  lemma WatchedAreRemembered(e: End, r: Readers, s: Sender)
    requires ReadersSee(r, e) && ReadersOk(r) && SenderSees(s, e) && SenderOk(s) && SendWindowOk(e) && e.credit < U32
    ensures NobodyForgotten(e, r, s)
  {
  }

  /** No lost wake-up, in every run of a link with any number of Reads and the writes of one of its ends. */
  lemma NobodyIsForgotten(openerMax: u32, acceptorMax: u32, who: Role, hs: seq<Happening>)
    requires INITIAL_STREAM_WINDOW <= openerMax && INITIAL_STREAM_WINDOW <= acceptorMax
    requires SceneRuns(Opening(openerMax, acceptorMax, who), hs)
    ensures var x := SceneAfter(Opening(openerMax, acceptorMax, who), hs); NobodyForgotten(View(x).me, x.r, x.s)
  {
    var start := Opening(openerMax, acceptorMax, who);
    StartInv(openerMax, acceptorMax);
    assert Watching(start);
    SceneRunsKeep(start, hs);
    var x := SceneAfter(start, hs);
    EndFacts(x);
    WatchedAreRemembered(View(x).me, x.r, x.s);
  }
}
