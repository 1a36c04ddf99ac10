/** Pings stay matched while they share the wires with streams and with the peer's own pings. */
module YamuxMuxPing {
  import opened Options
  import opened YamuxTypes
  import opened YamuxEnd
  import opened YamuxPing
  import opened YamuxSession

  function PingIds(q: seq<Packet>, ack: bool): seq<u32> {
    if q == [] then []
    else (if q[0].PingPacket? && q[0].ack == ack then [q[0].pingId] else []) + PingIds(q[1..], ack)
  }

  lemma {:induction false} PingIdsAppend(q: seq<Packet>, p: Packet, ack: bool)
    ensures PingIds(q + [p], ack) == PingIds(q, ack) + (if p.PingPacket? && p.ack == ack then [p.pingId] else [])
  {
    if q == [] {
      assert q + [p] == [p] && [p][1..] == [];
    } else {
      PingIdsAppend(q[1..], p, ack);
      assert (q + [p])[1..] == q[1..] + [p];
      var first := if q[0].PingPacket? && q[0].ack == ack then [q[0].pingId] else [];
      var last := if p.PingPacket? && p.ack == ack then [p.pingId] else [];
      assert first + (PingIds(q[1..], ack) + last) == (first + PingIds(q[1..], ack)) + last;
    }
  }

  lemma PingIdsPosted(q: seq<Packet>, id: u32, out: seq<Frame>, ack: bool)
    requires |out| <= 1
    ensures PingIds(q + Wrap(id, out), ack) == PingIds(q, ack)
  {
    if out == [] {
      assert q + Wrap(id, out) == q;
    } else {
      assert Wrap(id, out) == [OnStream(id, out[0])];
      PingIdsAppend(q, OnStream(id, out[0]), ack);
      assert PingIds(q, ack) + [] == PingIds(q, ack);
    }
  }

  lemma PingIdsTaken(q: seq<Packet>, ack: bool)
    requires q != []
    ensures PingIds(q, ack) == if q[0].PingPacket? && q[0].ack == ack then [q[0].pingId] + PingIds(q[1..], ack)
                               else PingIds(q[1..], ack)
  {
    assert [] + PingIds(q[1..], ack) == PingIds(q[1..], ack);
  }

  /** The pings of this session with the ping frames that the shared wires hold for them. */
  function PingView(w: World): Pings {
    w.me.pings.(requests := PingIds(w.outgoing, false), replies := PingIds(w.incoming, true))
  }

  predicate WiresElsewhere(n: Node) {
    n.pings.requests == [] && n.pings.replies == []
  }

  /** What this session's step does to its own pings. */
  function OwnPingMove(w: World, m: WorldMove): Option<PingMove>
    requires WorldCan(w, m)
  {
    match m
    case BeginPing => Some(StartPing)
    case PostPing(call) => Some(SendPing(call))
    case TakeNext => if w.incoming[0].PingPacket? && w.incoming[0].ack then Some(TakeReply) else None
    case _ => None
  }

  /** What this session's step does to the peer's pings. */
  function PeerPingMove(w: World, m: WorldMove): Option<PingMove>
    requires WorldCan(w, m)
  {
    if m.TakeNext? && w.incoming[0].PingPacket? && !w.incoming[0].ack then Some(Echo) else None
  }

  predicate LeadsPing(p: Pings, m: Option<PingMove>, q: Pings) {
    match m
    case None => q == p
    case Some(pm) => CanPing(p, pm) && q == DoPing(p, pm)
  }

  lemma SmallOut(w: World, m: WorldMove) returns (id: u32, out: seq<Frame>)
    requires WorldCan(w, m) && WorldDo(w, m).error.None?
    requires m.Register? || m.AcceptNext? || m.OnEnd? || m.FinishNext? || (m.TakeNext? && w.incoming[0].OnStream?)
    ensures |out| <= 1
    ensures WorldDo(w, m).outgoing == w.outgoing + Wrap(id, out) && WorldDo(w, m).me.pings == w.me.pings
    ensures WorldDo(w, m).incoming == if m.TakeNext? then w.incoming[1..] else w.incoming
  {
    match m
    case Register(i) => id, out := i, Apply(FreshEnd(Opener, w.me.max), Open).out;
    case AcceptNext => id, out := w.me.acceptQ[0], Apply(EndOf(w.me, w.me.acceptQ[0]), Accept).out;
    case OnEnd(i, a) => id, out := i, Apply(EndOf(w.me, i), a).out;
    case FinishNext => id, out := w.me.busy.value, FinishFrame(EndOf(w.me, w.me.busy.value)).out;
    case TakeNext =>
      id := w.incoming[0].id;
      out := TakeFrame(EndOf(w.me, id), w.incoming[0].frame, AdmissionOf(w.me)).out;
  }

  lemma StreamStepsLeavePings(w: World, m: WorldMove)
    requires WorldCan(w, m) && WorldDo(w, m).error.None?
    requires m.Register? || m.AcceptNext? || m.OnEnd? || m.FinishNext? || (m.TakeNext? && w.incoming[0].OnStream?)
    ensures PingView(WorldDo(w, m)) == PingView(w) && PingView(Turn(WorldDo(w, m))) == PingView(Turn(w))
  {
    var id, out := SmallOut(w, m);
    PingIdsPosted(w.outgoing, id, out, false);
    PingIdsPosted(w.outgoing, id, out, true);
    if m.TakeNext? {
      PingIdsTaken(w.incoming, true);
      PingIdsTaken(w.incoming, false);
    }
  }

  lemma TakingPings(w: World)
    requires WorldCan(w, TakeNext) && !w.incoming[0].OnStream? && WorldDo(w, TakeNext).error.None?
    requires WiresElsewhere(w.me)
    ensures LeadsPing(PingView(w), OwnPingMove(w, TakeNext), PingView(WorldDo(w, TakeNext)))
    ensures LeadsPing(PingView(Turn(w)), PeerPingMove(w, TakeNext), PingView(Turn(WorldDo(w, TakeNext))))
  {
    PingIdsTaken(w.incoming, true);
    PingIdsTaken(w.incoming, false);
    match w.incoming[0]
    case PingPacket(ack, id) =>
      PingIdsAppend(w.outgoing, PingPacket(true, id), false);
      PingIdsAppend(w.outgoing, PingPacket(true, id), true);
      assert PingIds(w.outgoing, false) + [] == PingIds(w.outgoing, false);
      if ack {
        assert PingIds(w.incoming, true)[0] == id && PingIds(w.incoming, true)[1..] == PingIds(w.incoming[1..], true);
      } else {
        assert PingIds(w.incoming, false)[0] == id;
        assert PingIds(w.incoming, false)[1..] == PingIds(w.incoming[1..], false);
      }
    case _ =>
  }

  lemma OtherStepsAndPings(w: World, m: WorldMove)
    requires WorldCan(w, m) && WiresElsewhere(w.me)
    requires m.LoadId? || m.ClaimId? || m.BeginGoAway? || m.PostGoAway? || m.BeginPing? || m.PostPing?
    ensures LeadsPing(PingView(w), OwnPingMove(w, m), PingView(WorldDo(w, m)))
    ensures LeadsPing(PingView(Turn(w)), PeerPingMove(w, m), PingView(Turn(WorldDo(w, m))))
  {
    match m
    case PostGoAway =>
      PingIdsAppend(w.outgoing, GoAwayPacket(GO_AWAY_NORMAL), false);
      PingIdsAppend(w.outgoing, GoAwayPacket(GO_AWAY_NORMAL), true);
      assert PingIds(w.outgoing, false) + [] == PingIds(w.outgoing, false);
      assert PingIds(w.outgoing, true) + [] == PingIds(w.outgoing, true);
    case PostPing(call) =>
      PingIdsAppend(w.outgoing, PingPacket(false, IdOf(call)), false);
      PingIdsAppend(w.outgoing, PingPacket(false, IdOf(call)), true);
      assert PingIds(w.outgoing, true) + [] == PingIds(w.outgoing, true);
    case _ =>
  }

  lemma WiresStayElsewhere(w: World, m: WorldMove)
    requires WorldCan(w, m) && WiresElsewhere(w.me)
    ensures WiresElsewhere(WorldDo(w, m).me) && WorldDo(w, m).peer == w.peer
  {
    if m.TakeNext? {
      TakingStaysElsewhere(w.(incoming := w.incoming[1..]), w.incoming[0]);
    }
  }

  lemma TakingStaysElsewhere(w: World, p: Packet)
    requires WiresElsewhere(w.me)
    ensures WiresElsewhere(TakePacket(w, p).me) && TakePacket(w, p).peer == w.peer
  {
  }

  lemma PingsSimulate(w: World, m: WorldMove)
    requires WorldCan(w, m) && WorldDo(w, m).error.None? && WiresElsewhere(w.me)
    ensures LeadsPing(PingView(w), OwnPingMove(w, m), PingView(WorldDo(w, m)))
    ensures LeadsPing(PingView(Turn(w)), PeerPingMove(w, m), PingView(Turn(WorldDo(w, m))))
  {
    if m.LoadId? || m.ClaimId? || m.BeginGoAway? || m.PostGoAway? || m.BeginPing? || m.PostPing? {
      OtherStepsAndPings(w, m);
    } else if m.TakeNext? && !w.incoming[0].OnStream? {
      TakingPings(w);
    } else {
      StreamStepsLeavePings(w, m);
    }
  }

  // ---- all runs ----

  /** No Ping of either session takes an id that one of its own outstanding calls still uses. */
  predicate NoCollisions(w: World, steps: seq<WorldStep>)
    requires WorldRuns(w, steps)
    decreases |steps|
  {
    steps == [] ||
    (var me := Facing(w, steps[0].byClient).me;
     && (steps[0].move.BeginPing? ==> me.pings.pingID !in me.pings.pings)
     && NoCollisions(WorldStepped(w, steps[0]), steps[1..]))
  }

  ghost predicate PingsOk(w: World) {
    WiresElsewhere(w.me) && WiresElsewhere(w.peer) && PingInv(PingView(w)) && PingInv(PingView(Turn(w)))
  }

  lemma PingsOkStep(w: World, m: WorldMove)
    requires PingsOk(w) && WorldCan(w, m) && WorldDo(w, m).error.None?
    requires m.BeginPing? ==> w.me.pings.pingID !in w.me.pings.pings
    ensures PingsOk(WorldDo(w, m))
  {
    PingsSimulate(w, m);
    WiresStayElsewhere(w, m);
    if OwnPingMove(w, m).Some? {
      PingMoveKeepsInv(PingView(w), OwnPingMove(w, m).value);
    }
    if PeerPingMove(w, m).Some? {
      PingMoveKeepsInv(PingView(Turn(w)), PeerPingMove(w, m).value);
    }
  }

  lemma {:induction false} RunsKeepPings(w: World, steps: seq<WorldStep>)
    requires PingsOk(w) && WorldRuns(w, steps) && NoCollisions(w, steps) && WorldAfter(w, steps).error.None?
    ensures PingsOk(WorldAfter(w, steps))
    decreases |steps|
  {
    if steps != [] {
      var f := Facing(w, steps[0].byClient);
      var v := WorldStepped(w, steps[0]);
      if v.error.None? {
        PingsOkStep(f, steps[0].move);
        assert PingsOk(v);
        RunsKeepPings(v, steps[1..]);
      }
    }
  }

  lemma NewWorldPingsOk(clientMax: u32, clientBacklog: nat, serverMax: u32, serverBacklog: nat)
    ensures PingsOk(NewWorld(clientMax, clientBacklog, serverMax, serverBacklog))
  {
  }

  /** In every run of two new sessions in which no call takes an id still in use, the pings of both sides
      are matched, whatever their streams do. */
  lemma SessionPingsAreMatched(
      clientMax: u32, clientBacklog: nat, serverMax: u32, serverBacklog: nat, steps: seq<WorldStep>)
    requires var w := NewWorld(clientMax, clientBacklog, serverMax, serverBacklog);
             WorldRuns(w, steps) && NoCollisions(w, steps) && WorldAfter(w, steps).error.None?
    ensures var w := WorldAfter(NewWorld(clientMax, clientBacklog, serverMax, serverBacklog), steps);
            Matched(PingView(w)) && Matched(PingView(Turn(w)))
  {
    var w := NewWorld(clientMax, clientBacklog, serverMax, serverBacklog);
    NewWorldPingsOk(clientMax, clientBacklog, serverMax, serverBacklog);
    RunsKeepPings(w, steps);
    InvIsMatched(PingView(WorldAfter(w, steps)));
    InvIsMatched(PingView(Turn(WorldAfter(w, steps))));
  }
}
