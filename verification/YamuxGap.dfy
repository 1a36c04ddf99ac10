/** Two exact answers: a stalled writer is released by one Read, and the receive window check is passed
    unless a window update has been sent and not yet added. */
module YamuxGap {
  import opened Options
  import opened Bytes
  import opened YamuxTypes
  import opened YamuxEnd
  import opened YamuxLink
  import opened YamuxInv
  import opened YamuxKept
  import opened YamuxRuns

  function Other(who: Role): Role {
    if who.Opener? then Acceptor else Opener
  }

  function Moves(who: Role, moves: seq<Move>): (s: seq<Step>)
    ensures |s| == |moves|
  {
    if moves == [] then [] else [Step(who, moves[0])] + Moves(who, moves[1..])
  }

  /** A run of moves of one end, on the link as that end sees it. */
  predicate RunsFor(l: Link, moves: seq<Move>)
    decreases |moves|
  {
    moves == [] || (Can(l, moves[0]) && RunsFor(Do(l, moves[0]), moves[1..]))
  }

  function AfterFor(l: Link, moves: seq<Move>): Link
    requires RunsFor(l, moves)
    decreases |moves|
  {
    if moves == [] then l else AfterFor(Do(l, moves[0]), moves[1..])
  }

  lemma Then(l: Link, m: Move, rest: seq<Move>)
    requires Can(l, m) && RunsFor(Do(l, m), rest)
    ensures RunsFor(l, [m] + rest) && AfterFor(l, [m] + rest) == AfterFor(Do(l, m), rest)
  {
    assert ([m] + rest)[1..] == rest;
  }

  lemma Stop(l: Link)
    ensures RunsFor(l, []) && AfterFor(l, []) == l
  {
  }

  lemma {:induction false} RunsOne(l: Link, who: Role, moves: seq<Move>)
    requires RunsFor(Seen(l, who), moves)
    ensures Runs(l, Moves(who, moves)) && After(l, Moves(who, moves)) == Seen(AfterFor(Seen(l, who), moves), who)
    decreases |moves|
  {
    if moves != [] {
      var s := Step(who, moves[0]);
      assert Seen(DoStep(l, s), who) == Do(Seen(l, who), moves[0]);
      RunsOne(DoStep(l, s), who, moves[1..]);
      assert Moves(who, moves)[1..] == Moves(who, moves[1..]);
    } else {
      assert Moves(who, moves) == [];
    }
  }

  lemma {:induction false} RunsJoin(l: Link, first: seq<Step>, second: seq<Step>)
    requires Runs(l, first) && Runs(After(l, first), second)
    ensures Runs(l, first + second) && After(l, first + second) == After(After(l, first), second)
    decreases |first|
  {
    if first == [] {
      assert first + second == second;
    } else {
      var s, rest := first[0], first[1..];
      assert first + second == [s] + (rest + second);
      RunsTail(l, first);
      RunsJoin(DoStep(l, s), rest, second);
      RunsThen(l, s, rest + second);
    }
  }

  /** First moves of one end, then moves of the other. */
  lemma RunsTurns(l: Link, who: Role, first: seq<Move>, second: seq<Move>)
    requires RunsFor(Seen(l, who), first)
    requires RunsFor(Flip(AfterFor(Seen(l, who), first)), second)
    ensures var steps := Moves(who, first) + Moves(Other(who), second);
            && Runs(l, steps)
            && Seen(After(l, steps), Other(who)) == AfterFor(Flip(AfterFor(Seen(l, who), first)), second)
  {
    RunsOne(l, who, first);
    var m := After(l, Moves(who, first));
    assert Seen(m, Other(who)) == Flip(AfterFor(Seen(l, who), first));
    RunsOne(m, Other(who), second);
    RunsJoin(l, Moves(who, first), Moves(Other(who), second));
  }

  // ---- a stalled writer ----

  const SEND_UPDATE: seq<Move> :=
    [Local(ComputeDelta)] + ([Local(AnnounceUpdate)] + ([Local(PostUpdate)] + ([Local(BumpWindow)] + [])))

  const RECEIVE: seq<Move> := [Take(Admit)] + ([Finish] + [])

  /** Read of `k` bytes, with the window update that follows. */
  function ReadMoves(k: nat): seq<Move> {
    [Local(Read(k))] + ([Local(StartUpdate)] + SEND_UPDATE)
  }

  /** sendWindowUpdate, when nothing interrupts it and the update is due. */
  lemma SendUpdate(l: Link)
    requires l.error.None? && l.me.updater.Held? && l.me.recvWindow <= l.me.max
    requires !OmitsUpdate(l.me.max, l.me.max - l.me.recvWindow, SendFlags(l.me.state).0)
    ensures RunsFor(l, SEND_UPDATE)
    ensures AfterFor(l, SEND_UPDATE) ==
      l.(me := l.me.(updater := Free, handed := l.me.handed || l.me.updater.first, state := SendFlags(l.me.state).1,
                     recvWindow := l.me.max),
         outgoing := l.outgoing + [WindowUpdate(SendFlags(l.me.state).0, l.me.max - l.me.recvWindow)])
  {
    var a := Do(l, Local(ComputeDelta));
    assert a.me.updater.delta == l.me.max - l.me.recvWindow;
    var b := Do(a, Local(AnnounceUpdate));
    var c := Do(b, Local(PostUpdate));
    var d := Do(c, Local(BumpWindow));
    assert l.outgoing + [] == l.outgoing && c.outgoing + [] == c.outgoing;
    Stop(d);
    Then(c, Local(BumpWindow), []);
    Then(b, Local(PostUpdate), [Local(BumpWindow)] + []);
    Then(a, Local(AnnounceUpdate), [Local(PostUpdate)] + ([Local(BumpWindow)] + []));
    Then(l, Local(ComputeDelta), [Local(AnnounceUpdate)] + ([Local(PostUpdate)] + ([Local(BumpWindow)] + [])));
  }

  lemma ReadGrantsWindow(l: Link, k: nat)
    requires l.error.None? && Idles(l.me) && l.me.handed && l.outgoing == [] && 1 < l.me.max
    requires !l.me.state.Init? && !l.me.state.SynReceived?
    requires l.me.recvWindow == 0 && 0 < k <= |l.me.buf|
    ensures RunsFor(l, ReadMoves(k))
    ensures var z := AfterFor(l, ReadMoves(k));
            z == l.(me := z.me, outgoing := [WindowUpdate(NONE, l.me.max)]) && z.me.recvWindow == l.me.max
  {
    var a := Do(l, Local(Read(k)));
    var b := Do(a, Local(StartUpdate));
    assert a.outgoing == [] && b.outgoing == [];
    SendUpdate(b);
    Then(a, Local(StartUpdate), SEND_UPDATE);
    Then(l, Local(Read(k)), [Local(StartUpdate)] + SEND_UPDATE);
  }

  lemma UpdateIsApplied(l: Link, delta: u32)
    requires l.error.None? && l.me.rx == [] && l.me.phase.Live? && l.incoming == [WindowUpdate(NONE, delta)]
    ensures RunsFor(l, RECEIVE)
    ensures var z := AfterFor(l, RECEIVE);
            z.error.None? && z.me.sendWindow == Add32(l.me.sendWindow, delta) && z.incoming == []
  {
    var a := Do(l, Take(Admit));
    var b := Do(a, Finish);
    Stop(b);
    Then(a, Finish, []);
    Then(l, Take(Admit), [Finish] + []);
  }

  lemma SeenEndOk(l: Link, who: Role)
    requires Reachable(l)
    ensures EndOk(Seen(l, who).me) && l.error.None?
  {
    ReachableInv(l);
  }

  /** What the writer has once the update that a Read of the whole window sends has arrived. */
  lemma UpdateReleases(v: Link, z: Link)
    requires v.error.None? && v.incoming == [] && v.peer.phase.Live? && v.peer.rx == [] && v.peer.sendWindow == 0
    requires z == v.(me := z.me, outgoing := [WindowUpdate(NONE, v.me.max)])
    ensures RunsFor(Flip(z), RECEIVE)
    ensures AfterFor(Flip(z), RECEIVE).error.None? && AfterFor(Flip(z), RECEIVE).me.sendWindow == v.me.max
  {
    UpdateIsApplied(Flip(z), v.me.max);
  }

  lemma OneReadReleases(v: Link, k: nat)
    requires v.error.None? && Idles(v.me) && v.me.handed && v.outgoing == [] && v.incoming == []
    requires !v.me.state.Init? && !v.me.state.SynReceived? && 1 < v.me.max
    requires v.me.recvWindow == 0 && 0 < k <= |v.me.buf|
    requires v.peer.phase.Live? && v.peer.rx == [] && v.peer.sendWindow == 0
    ensures RunsFor(v, ReadMoves(k))
    ensures var z := Flip(AfterFor(v, ReadMoves(k)));
            RunsFor(z, RECEIVE) && AfterFor(z, RECEIVE).error.None? && AfterFor(z, RECEIVE).me.sendWindow == v.me.max
  {
    ReadGrantsWindow(v, k);
    UpdateReleases(v, AfterFor(v, ReadMoves(k)));
  }

  /** Where flow control has stopped a writer, one Read of the peer, however short, sends an update that
      gives the writer the peer's whole window. */
  lemma OneReadReleasesTheWriter(l: Link, who: Role, k: nat)
    requires Reachable(l) && Quiet(l)
    requires var v := Seen(l, who); v.me.phase.Live? && v.peer.phase.Live? && v.peer.handed && v.me.sendWindow == 0
    requires 0 < k <= |Seen(l, who).peer.buf|
    ensures var steps := Moves(Other(who), ReadMoves(k)) + Moves(who, RECEIVE);
            && Runs(l, steps)
            && After(l, steps).error.None?
            && Seen(After(l, steps), who).me.sendWindow == Seen(l, who).peer.max > 0
  {
    FlowControlNeverStalls(l, who);
    SeenEndOk(l, Other(who));
    OneReadReleases(Seen(l, Other(who)), k);
    RunsTurns(l, Other(who), ReadMoves(k), RECEIVE);
  }

  // ---- the gap ----

  /** Write, up to and including the data frame. */
  function WriteMoves(b: seq<byte>): seq<Move> {
    [Local(WriteCheck)] + ([Local(WriteLoad)] + ([Local(WriteFlags)] + ([Local(WritePost(b))] + [])))
  }

  lemma WholeWindowIsSent(l: Link, b: seq<byte>)
    requires EndOk(l.me) && l.error.None? && l.me.handed && l.me.writer.Idle? && MayWrite(l.me.state)
    requires l.outgoing == [] && |b| == l.me.sendWindow > 0
    ensures RunsFor(l, WriteMoves(b))
    ensures var z := AfterFor(l, WriteMoves(b));
            z == l.(me := z.me, outgoing := [Data(NONE, b)])
  {
    var x := Do(l, Local(WriteCheck));
    var y := Do(x, Local(WriteLoad));
    var w := Do(y, Local(WriteFlags));
    var z := Do(w, Local(WritePost(b)));
    assert b[..|b|] == b;
    assert z.outgoing == [Data(NONE, b)];
    Stop(z);
    Then(y, Local(WriteFlags), [Local(WritePost(b))] + []) by {
      Then(w, Local(WritePost(b)), []);
    }
    Then(x, Local(WriteLoad), [Local(WriteFlags)] + ([Local(WritePost(b))] + []));
    Then(l, Local(WriteCheck), [Local(WriteLoad)] + ([Local(WriteFlags)] + ([Local(WritePost(b))] + [])));
  }

  lemma DataIsChecked(l: Link, b: Payload)
    requires l.error.None? && l.me.rx == [] && l.me.phase.Live? && l.incoming == [Data(NONE, b)] && b != []
    ensures RunsFor(l, RECEIVE)
    ensures AfterFor(l, RECEIVE).error == if |b| > l.me.recvWindow then Some(RecvWindowExceeded) else None
  {
    var x := Do(l, Take(Admit));
    var y := Do(x, Finish);
    Stop(y);
    Then(x, Finish, []);
    Then(l, Take(Admit), [Finish] + []);
  }

  predicate CanWriteNow(e: End) {
    e.phase.Live? && e.handed && e.writer.Idle? && MayWrite(e.state) && e.rx == [] && e.sendWindow > 0
  }

  /** The race of sendWindowUpdate with readData: when the wires are empty and the peer writes a whole
      window, the session is killed if and only if the receiver has posted an update whose delta it has
      not added yet. */
  lemma WholeWindowIsRejectedIffUpdatePending(l: Link, who: Role, b: seq<byte>)
    requires Reachable(l) && l.outgoing == [] && l.incoming == []
    requires var v := Seen(l, who);
             CanWriteNow(v.me) && v.peer.phase.Live? && v.peer.rx == [] && |b| == v.me.sendWindow
    ensures var steps := Moves(who, WriteMoves(b)) + Moves(Other(who), RECEIVE);
            && Runs(l, steps)
            && (After(l, steps).error == Some(RecvWindowExceeded) <==> Pending(Seen(l, who).peer) > 0)
            && (After(l, steps).error.None? <==> Pending(Seen(l, who).peer) == 0)
  {
    ReachableInv(l);
    CreditConservation(l, who);
    var v := Seen(l, who);
    WholeWindowIsSent(v, b);
    DataIsChecked(Flip(AfterFor(v, WriteMoves(b))), b);
    RunsTurns(l, who, WriteMoves(b), RECEIVE);
  }

  lemma RejectedIff(me: End, peer: End, incoming: seq<Frame>, outgoing: seq<Frame>)
    requires PhaseOk(me) && CreditOk(peer, me, incoming, outgoing) && me.rx != []
    ensures var left := peer.credit + peer.lostGrant + DataBytes(incoming) + Deltas(peer.rx) + Deltas(outgoing);
            FinishFrame(me).Failed? <==> Size(me.rx[0]) > 0 && left < Pending(me)
  {
    Single(me.rx[0]);
    assert me.rx == [me.rx[0]];
  }

  /** For a single frame in any reachable state, whichever ends still hold the stream: the check at its
      arrival fails exactly when the delta pending at the receiver exceeds all the window that is left
      beyond the frame, be it with the sender, on the wires, or in updates that the sender dropped. */
  lemma FrameIsRejectedIff(l: Link, who: Role)
    requires Reachable(l)
    requires Seen(l, who).me.rx != []
    ensures var v := Seen(l, who);
            var left := v.peer.credit + v.peer.lostGrant + DataBytes(v.incoming)
                        + Deltas(v.peer.rx) + Deltas(v.outgoing);
            FinishFrame(v.me).Failed? <==> Size(v.me.rx[0]) > 0 && left < Pending(v.me)
  {
    SeenOk(l, Other(who));
    SeenEndOk(l, who);
    var v := Seen(l, who);
    RejectedIff(v.me, v.peer, v.incoming, v.outgoing);
  }

  // ---- the gap can be reached, whatever the configuration ----

  /** Incoming streams are admitted: nobody has announced to go away, and the backlog has room. */
  predicate Admits(m: Move) {
    m.Take? ==> m.admission.Admit?
  }

  predicate AllAdmit(moves: seq<Move>) {
    forall i :: 0 <= i < |moves| ==> Admits(moves[i])
  }

  predicate Admitting(steps: seq<Step>) {
    forall i :: 0 <= i < |steps| ==> Admits(steps[i].move)
  }

  lemma {:induction false} MovesAdmit(who: Role, moves: seq<Move>)
    requires AllAdmit(moves)
    ensures Admitting(Moves(who, moves))
  {
    if moves != [] {
      MovesAdmit(who, moves[1..]);
      assert Moves(who, moves) == [Step(who, moves[0])] + Moves(who, moves[1..]);
    }
  }

  /** A state that some run reaches in which all streams are admitted. */
  ghost predicate AdmittedTo(openerMax: u32, acceptorMax: u32, l: Link) {
    && l.error.None?
    && exists steps :: && Runs(Start(openerMax, acceptorMax), steps) && Admitting(steps)
                       && After(Start(openerMax, acceptorMax), steps) == l
  }

  lemma AdmittedTurn(openerMax: u32, acceptorMax: u32, l: Link, who: Role, moves: seq<Move>)
    requires AdmittedTo(openerMax, acceptorMax, l) && AllAdmit(moves)
    requires RunsFor(Seen(l, who), moves) && AfterFor(Seen(l, who), moves).error.None?
    ensures AdmittedTo(openerMax, acceptorMax, Seen(AfterFor(Seen(l, who), moves), who))
  {
    var start := Start(openerMax, acceptorMax);
    var steps :| Runs(start, steps) && Admitting(steps) && After(start, steps) == l;
    RunsOne(l, who, moves);
    MovesAdmit(who, moves);
    RunsJoin(start, steps, Moves(who, moves));
    assert After(start, steps + Moves(who, moves)) == Seen(AfterFor(Seen(l, who), moves), who);
  }

  function Opened(openerMax: u32, acceptorMax: u32): Link
    requires INITIAL_STREAM_WINDOW <= openerMax
  {
    Link(FreshEnd(Opener, openerMax).(phase := Live, handed := true, state := SynSent, recvWindow := openerMax),
         FreshEnd(Acceptor, acceptorMax), [WindowUpdate(SYN, openerMax - INITIAL_STREAM_WINDOW)], [], None)
  }

  lemma OpenTurn(openerMax: u32, acceptorMax: u32)
    requires INITIAL_STREAM_WINDOW <= openerMax
    ensures var l := Start(openerMax, acceptorMax); var moves := [Local(Open)] + SEND_UPDATE;
            RunsFor(l, moves) && AfterFor(l, moves) == Opened(openerMax, acceptorMax)
  {
    var l := Start(openerMax, acceptorMax);
    SendUpdate(Do(l, Local(Open)));
    Then(l, Local(Open), SEND_UPDATE);
  }

  function Accepted(openerMax: u32, acceptorMax: u32): Link
    requires INITIAL_STREAM_WINDOW <= openerMax && INITIAL_STREAM_WINDOW <= acceptorMax
  {
    Link(FreshEnd(Opener, openerMax).(phase := Live, handed := true, state := SynSent, recvWindow := openerMax),
         FreshEnd(Acceptor, acceptorMax).(phase := Live, handed := true, state := Established,
                                          recvWindow := acceptorMax, sendWindow := openerMax, credit := openerMax),
         [], [WindowUpdate(ACK, acceptorMax - INITIAL_STREAM_WINDOW)], None)
  }

  lemma AcceptTurn(openerMax: u32, acceptorMax: u32)
    requires INITIAL_STREAM_WINDOW <= openerMax && INITIAL_STREAM_WINDOW <= acceptorMax
    ensures var l := Flip(Opened(openerMax, acceptorMax));
            var moves := [Take(Admit)] + ([Finish] + ([Local(Accept)] + SEND_UPDATE));
            RunsFor(l, moves) && AfterFor(l, moves) == Flip(Accepted(openerMax, acceptorMax))
  {
    var l := Flip(Opened(openerMax, acceptorMax));
    var a := Do(l, Take(Admit));
    assert a == Link(FreshEnd(Acceptor, acceptorMax).(phase := Live, rx := l.incoming), l.peer, [], [], None);
    var b := Do(a, Finish);
    assert b == Link(FreshEnd(Acceptor, acceptorMax).(phase := Live, sendWindow := openerMax, credit := openerMax),
                     l.peer, [], [], None);
    var c := Do(b, Local(Accept));
    SendUpdate(c);
    Then(b, Local(Accept), SEND_UPDATE);
    Then(a, Finish, [Local(Accept)] + SEND_UPDATE);
    Then(l, Take(Admit), [Finish] + ([Local(Accept)] + SEND_UPDATE));
  }

  /** The acceptor writes the opener's whole window. */
  function Written(openerMax: u32, acceptorMax: u32): Link
    requires INITIAL_STREAM_WINDOW <= openerMax && INITIAL_STREAM_WINDOW <= acceptorMax
  {
    var l := Accepted(openerMax, acceptorMax);
    var b := Zeros(openerMax);
    l.(peer := l.peer.(sent := b, sendWindow := 0, credit := 0), incoming := l.incoming + [Data(NONE, b)])
  }

  function Zeros(n: nat): (b: seq<byte>)
    ensures |b| == n
  {
    seq(n, i => 0)
  }

  lemma WriteTurn(openerMax: u32, acceptorMax: u32)
    requires INITIAL_STREAM_WINDOW <= openerMax && INITIAL_STREAM_WINDOW <= acceptorMax
    ensures var l := Flip(Accepted(openerMax, acceptorMax)); var b := Zeros(openerMax);
            var moves := [Local(WriteCheck)] + ([Local(WriteLoad)] + ([Local(WriteFlags)] +
                         ([Local(WritePost(b))] + ([Local(WriteReduce)] + []))));
            RunsFor(l, moves) && AfterFor(l, moves) == Flip(Written(openerMax, acceptorMax))
  {
    var l := Flip(Accepted(openerMax, acceptorMax));
    var b := Zeros(openerMax);
    var v := Do(l, Local(WriteCheck));
    assert v == l.(me := l.me.(writer := Checked)) by { assert l.outgoing + [] == l.outgoing; }
    var w := Do(v, Local(WriteLoad));
    assert w == l.(me := l.me.(writer := Loaded(openerMax))) by { assert v.outgoing + [] == v.outgoing; }
    var x := Do(w, Local(WriteFlags));
    assert x == l.(me := l.me.(writer := Flagged(openerMax, NONE))) by { assert w.outgoing + [] == w.outgoing; }
    var y := Do(x, Local(WritePost(b)));
    assert b[..|b|] == b && [] + b == b;
    assert y == l.(me := l.me.(writer := Writer.Sent(openerMax), sent := b, credit := 0),
                   outgoing := l.outgoing + [Data(NONE, b)]);
    var z := Do(y, Local(WriteReduce));
    AtomicSubIsSubtraction(openerMax, openerMax);
    assert y.outgoing + [] == y.outgoing;
    Stop(z);
    Then(y, Local(WriteReduce), []);
    Then(x, Local(WritePost(b)), [Local(WriteReduce)] + []);
    Then(w, Local(WriteFlags), [Local(WritePost(b))] + ([Local(WriteReduce)] + []));
    Then(v, Local(WriteLoad), [Local(WriteFlags)] + ([Local(WritePost(b))] + ([Local(WriteReduce)] + [])));
    Then(l, Local(WriteCheck),
         [Local(WriteLoad)] + ([Local(WriteFlags)] + ([Local(WritePost(b))] + ([Local(WriteReduce)] + []))));
  }

  /** The opener has read it all and posted the update for it. */
  function Announcing(openerMax: u32, acceptorMax: u32): Link
    requires INITIAL_STREAM_WINDOW <= openerMax && INITIAL_STREAM_WINDOW <= acceptorMax
  {
    var l := Written(openerMax, acceptorMax);
    l.(me := l.me.(state := Established, recvWindow := 0, read := Zeros(openerMax), updater := Posted(false, openerMax),
                   sendWindow := acceptorMax, credit := acceptorMax),
       outgoing := [WindowUpdate(NONE, openerMax)], incoming := [])
  }

  function Full(openerMax: u32, acceptorMax: u32): Link
    requires INITIAL_STREAM_WINDOW <= openerMax && INITIAL_STREAM_WINDOW <= acceptorMax
  {
    var l := Written(openerMax, acceptorMax);
    l.(me := l.me.(state := Established, recvWindow := 0, buf := Zeros(openerMax),
                   sendWindow := acceptorMax, credit := acceptorMax), incoming := [])
  }

  lemma FillTurn(openerMax: u32, acceptorMax: u32)
    requires INITIAL_STREAM_WINDOW <= openerMax && INITIAL_STREAM_WINDOW <= acceptorMax
    ensures var l := Written(openerMax, acceptorMax);
            var moves := [Take(Admit)] + ([Finish] + ([Take(Admit)] + ([Finish] + [])));
            RunsFor(l, moves) && AfterFor(l, moves) == Full(openerMax, acceptorMax)
  {
    var l := Written(openerMax, acceptorMax);
    var d := Data(NONE, Zeros(openerMax));
    assert l.incoming == [WindowUpdate(ACK, acceptorMax - INITIAL_STREAM_WINDOW), d];
    var w := Do(l, Take(Admit));
    assert w == l.(me := l.me.(state := Established, rx := [l.incoming[0]]), incoming := [d]);
    var x := Do(w, Finish);
    assert x == l.(me := l.me.(state := Established, sendWindow := acceptorMax, credit := acceptorMax),
                   incoming := [d]);
    var y := Do(x, Take(Admit));
    assert y == x.(me := x.me.(rx := [d]), incoming := []);
    var z := Do(y, Finish);
    AtomicSubIsSubtraction(openerMax, openerMax);
    assert [] + Zeros(openerMax) == Zeros(openerMax);
    Stop(z);
    Then(y, Finish, []);
    Then(x, Take(Admit), [Finish] + []);
    Then(w, Finish, [Take(Admit)] + ([Finish] + []));
    Then(l, Take(Admit), [Finish] + ([Take(Admit)] + ([Finish] + [])));
  }

  lemma AnnounceTurn(openerMax: u32, acceptorMax: u32)
    requires INITIAL_STREAM_WINDOW <= openerMax && INITIAL_STREAM_WINDOW <= acceptorMax
    ensures var l := Full(openerMax, acceptorMax);
            var moves := [Local(Read(openerMax))] + ([Local(StartUpdate)] + ([Local(ComputeDelta)] +
                         ([Local(AnnounceUpdate)] + ([Local(PostUpdate)] + []))));
            RunsFor(l, moves) && AfterFor(l, moves) == Announcing(openerMax, acceptorMax)
  {
    var l := Full(openerMax, acceptorMax);
    var v := Do(l, Local(Read(openerMax)));
    assert v.me.read == Zeros(openerMax) && v.me.buf == [];
    var w := Do(v, Local(StartUpdate));
    var x := Do(w, Local(ComputeDelta));
    assert x.me.updater == Computed(false, openerMax);
    var y := Do(x, Local(AnnounceUpdate));
    var z := Do(y, Local(PostUpdate));
    Stop(z);
    Then(y, Local(PostUpdate), []);
    Then(x, Local(AnnounceUpdate), [Local(PostUpdate)] + []);
    Then(w, Local(ComputeDelta), [Local(AnnounceUpdate)] + ([Local(PostUpdate)] + []));
    Then(v, Local(StartUpdate), [Local(ComputeDelta)] + ([Local(AnnounceUpdate)] + ([Local(PostUpdate)] + [])));
    Then(l, Local(Read(openerMax)),
         [Local(StartUpdate)] + ([Local(ComputeDelta)] + ([Local(AnnounceUpdate)] + ([Local(PostUpdate)] + []))));
  }

  lemma UpdateTurn(openerMax: u32, acceptorMax: u32)
    requires INITIAL_STREAM_WINDOW <= openerMax && INITIAL_STREAM_WINDOW <= acceptorMax
    ensures var l := Flip(Announcing(openerMax, acceptorMax));
            RunsFor(l, RECEIVE) && AfterFor(l, RECEIVE) ==
              l.(me := l.me.(sendWindow := openerMax, credit := openerMax), incoming := [])
  {
    var l := Flip(Announcing(openerMax, acceptorMax));
    UpdateIsApplied(l, openerMax);
    var x := Do(l, Take(Admit));
    assert x == l.(me := l.me.(rx := l.incoming), incoming := []);
    var y := Do(x, Finish);
    Stop(y);
    Then(x, Finish, []);
    Then(l, Take(Admit), [Finish] + []);
  }

  lemma StartIsReached(x: u32, y: u32)
    ensures AdmittedTo(x, y, Start(x, y))
  {
    assert Runs(Start(x, y), []) && After(Start(x, y), []) == Start(x, y) && Admitting([]);
  }

  lemma OpenedIsReached(x: u32, y: u32)
    requires INITIAL_STREAM_WINDOW <= x
    ensures AdmittedTo(x, y, Opened(x, y))
  {
    StartIsReached(x, y);
    OpenTurn(x, y);
    AdmittedTurn(x, y, Start(x, y), Opener, [Local(Open)] + SEND_UPDATE);
  }

  lemma AcceptedIsReached(x: u32, y: u32)
    requires INITIAL_STREAM_WINDOW <= x && INITIAL_STREAM_WINDOW <= y
    ensures AdmittedTo(x, y, Accepted(x, y))
  {
    OpenedIsReached(x, y);
    AcceptTurn(x, y);
    AdmittedTurn(x, y, Opened(x, y), Acceptor, [Take(Admit)] + ([Finish] + ([Local(Accept)] + SEND_UPDATE)));
  }

  lemma WrittenIsReached(x: u32, y: u32)
    requires INITIAL_STREAM_WINDOW <= x && INITIAL_STREAM_WINDOW <= y
    ensures AdmittedTo(x, y, Written(x, y))
  {
    AcceptedIsReached(x, y);
    WriteTurn(x, y);
    AdmittedTurn(x, y, Accepted(x, y), Acceptor,
                 [Local(WriteCheck)] + ([Local(WriteLoad)] + ([Local(WriteFlags)] +
                 ([Local(WritePost(Zeros(x)))] + ([Local(WriteReduce)] + [])))));
  }

  /** The wires are empty, the acceptor can write, and the opener's delta is still pending. */
  function InTheGap(x: u32, y: u32): Link
    requires INITIAL_STREAM_WINDOW <= x && INITIAL_STREAM_WINDOW <= y
  {
    var l := Announcing(x, y);
    l.(peer := l.peer.(sendWindow := x, credit := x), outgoing := [])
  }

  lemma FullIsReached(x: u32, y: u32)
    requires INITIAL_STREAM_WINDOW <= x && INITIAL_STREAM_WINDOW <= y
    ensures AdmittedTo(x, y, Full(x, y))
  {
    WrittenIsReached(x, y);
    FillTurn(x, y);
    AdmittedTurn(x, y, Written(x, y), Opener, [Take(Admit)] + ([Finish] + ([Take(Admit)] + ([Finish] + []))));
  }

  lemma AnnouncingIsReached(x: u32, y: u32)
    requires INITIAL_STREAM_WINDOW <= x && INITIAL_STREAM_WINDOW <= y
    ensures AdmittedTo(x, y, Announcing(x, y))
  {
    FullIsReached(x, y);
    AnnounceTurn(x, y);
    AdmittedTurn(x, y, Full(x, y), Opener,
                 [Local(Read(x))] + ([Local(StartUpdate)] + ([Local(ComputeDelta)] +
                 ([Local(AnnounceUpdate)] + ([Local(PostUpdate)] + [])))));
  }

  lemma GapIsReached(x: u32, y: u32)
    requires INITIAL_STREAM_WINDOW <= x && INITIAL_STREAM_WINDOW <= y
    ensures AdmittedTo(x, y, InTheGap(x, y))
  {
    AnnouncingIsReached(x, y);
    UpdateTurn(x, y);
    AdmittedTurn(x, y, Announcing(x, y), Acceptor, RECEIVE);
  }

  /** Under every pair of windows that pass verification, the default one included, two honest ends can
      reach the gap and fail the window check. */
  lemma TheGapIsReal(openerMax: u32, acceptorMax: u32)
    requires INITIAL_STREAM_WINDOW <= openerMax && INITIAL_STREAM_WINDOW <= acceptorMax
    ensures exists steps :: && Runs(Start(openerMax, acceptorMax), steps) && Admitting(steps)
                            && After(Start(openerMax, acceptorMax), steps).error == Some(RecvWindowExceeded)
  {
    var start := Start(openerMax, acceptorMax);
    var l := InTheGap(openerMax, acceptorMax);
    GapIsReached(openerMax, acceptorMax);
    var steps :| Runs(start, steps) && Admitting(steps) && After(start, steps) == l;
    assert ReachedFrom(openerMax, acceptorMax, l);
    var b := Zeros(openerMax);
    WholeWindowIsRejectedIffUpdatePending(l, Acceptor, b);
    var last := Moves(Acceptor, WriteMoves(b)) + Moves(Opener, RECEIVE);
    MovesAdmit(Acceptor, WriteMoves(b));
    MovesAdmit(Opener, RECEIVE);
    RunsJoin(start, steps, last);
    assert After(start, steps + last).error == Some(RecvWindowExceeded);
  }
}
