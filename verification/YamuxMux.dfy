/** Every stream of two multiplexing sessions behaves as a link of its own, whatever the others do. */
module YamuxMux {
  import opened Options
  import opened YamuxTypes
  import opened YamuxEnd
  import opened YamuxLink
  import opened YamuxInv
  import opened YamuxKept
  import opened YamuxPing
  import opened YamuxSession

  /** The move that a step of a session makes on stream `id`, if any. */
  function MoveOf(w: World, m: WorldMove, id: u32): Option<Move>
    requires WorldCan(w, m)
  {
    match m
    case Register(i) => if i == id then Some(Local(Open)) else None
    case AcceptNext => if w.me.acceptQ[0] == id then Some(Local(Accept)) else None
    case OnEnd(i, a) => if i == id then Some(Local(a)) else None
    case TakeNext =>
      if w.incoming[0].OnStream? && w.incoming[0].id == id then Some(Take(AdmissionOf(w.me))) else None
    case FinishNext => if w.me.busy.value == id then Some(Finish) else None
    case _ => None
  }

  // ---- one session ----

  ghost predicate IdsOk(n: Node) {
    && n.nextStreamID >= 1
    && RoleOf(n.client, n.nextStreamID).Opener?
    && (forall t :: t in n.loads ==> n.loads[t] < U32 - 2)
    && (forall c :: c in n.claimed ==> RoleOf(n.client, c).Opener? && c < n.nextStreamID && c !in n.streams)
    && (forall id :: id in n.streams && RoleOf(n.client, id).Opener? ==> id < n.nextStreamID)
  }

  ghost predicate BusyOk(n: Node) {
    && (forall id :: id in n.streams ==> (n.streams[id].rx != [] <==> n.busy == Some(id)))
    && (n.busy.Some? ==> n.busy.value in n.streams)
  }

  predicate Waiting(e: End) {
    e.role.Acceptor? && e.phase.Live? && !e.handed && e.updater.Free?
  }

  ghost predicate QueueOk(n: Node) {
    && |n.acceptQ| <= n.backlog
    && (forall i :: 0 <= i < |n.acceptQ| ==> n.acceptQ[i] in n.streams && Waiting(n.streams[n.acceptQ[i]]))
    && (forall i, j :: 0 <= i < j < |n.acceptQ| ==> n.acceptQ[i] != n.acceptQ[j])
  }

  ghost predicate NodeOk(n: Node) {
    IdsOk(n) && BusyOk(n) && QueueOk(n)
  }

  predicate StreamOk(w: World, id: u32) {
    OpenerInv(StreamView(w, id))
  }

  ghost predicate StreamsOk(w: World) {
    forall id: u32 :: StreamOk(w, id)
  }

  predicate GoAwaysNormal(q: seq<Packet>) {
    forall i :: 0 <= i < |q| && q[i].GoAwayPacket? ==> q[i].code == GO_AWAY_NORMAL
  }

  ghost predicate WorldInv(w: World) {
    && w.error.None? && w.me.client != w.peer.client
    && GoAwaysNormal(w.outgoing) && GoAwaysNormal(w.incoming)
    && NodeOk(w.me) && NodeOk(w.peer)
    && StreamsOk(w)
  }

  // ---- simulation ----

  lemma SettleKeepsOthers(w: World, from: u32, o: Outcome, id: u32)
    requires w.error.None? && (o.Moved? ==> |o.out| <= 1) && from != id && o.Moved?
    ensures LinkOf(Settle(w, from, o), id) == LinkOf(w, id)
  {
    FramesPosted(w.outgoing, from, o.out, id);
    assert FramesOf(w.outgoing, id) + [] == FramesOf(w.outgoing, id);
  }

  lemma SettleMoves(w: World, id: u32, o: Outcome)
    requires w.error.None? && o.Moved? && |o.out| <= 1
    ensures LinkOf(Settle(w, id, o), id) ==
      LinkOf(w, id).(me := o.e, outgoing := FramesOf(w.outgoing, id) + o.out)
  {
    FramesPosted(w.outgoing, id, o.out, id);
  }

  lemma SmallOutcome(e: End, a: Action)
    requires Enabled(e, a) && Apply(e, a).Moved?
    ensures |Apply(e, a).out| <= 1
  {
  }

  lemma OwnTakeSimulates(w: World, id: u32)
    requires BusyOk(w.me) && WorldCan(w, TakeNext) && WorldDo(w, TakeNext).error.None?
    requires w.incoming[0].OnStream? && w.incoming[0].id == id
    ensures var move := Take(AdmissionOf(w.me));
            Can(LinkOf(w, id), move) && LinkOf(WorldDo(w, TakeNext), id) == Do(LinkOf(w, id), move)
  {
    var f, v := w.incoming[0].frame, w.(incoming := w.incoming[1..]);
    assert FramesOf(w.incoming, id) == [f] + FramesOf(v.incoming, id);
    assert FramesOf(w.incoming, id)[0] == f && FramesOf(w.incoming, id)[1..] == FramesOf(v.incoming, id);
    assert EndOf(w.me, id).rx == [];
    SettleMoves(v, id, TakeFrame(EndOf(w.me, id), f, AdmissionOf(w.me)));
  }

  lemma OtherTakeSimulates(w: World, id: u32)
    requires WorldCan(w, TakeNext) && WorldDo(w, TakeNext).error.None?
    requires w.incoming[0].OnStream? && w.incoming[0].id != id
    ensures LinkOf(WorldDo(w, TakeNext), id) == LinkOf(w, id)
  {
    var i, f, v := w.incoming[0].id, w.incoming[0].frame, w.(incoming := w.incoming[1..]);
    SettleKeepsOthers(v, i, TakeFrame(EndOf(w.me, i), f, AdmissionOf(w.me)), id);
    assert [] + FramesOf(v.incoming, id) == FramesOf(v.incoming, id);
  }

  lemma TakeSimulates(w: World, id: u32)
    requires BusyOk(w.me) && WorldCan(w, TakeNext) && WorldDo(w, TakeNext).error.None?
    ensures match MoveOf(w, TakeNext, id)
            case None => LinkOf(WorldDo(w, TakeNext), id) == LinkOf(w, id)
            case Some(move) => Can(LinkOf(w, id), move) && LinkOf(WorldDo(w, TakeNext), id) == Do(LinkOf(w, id), move)
  {
    var p := w.incoming[0];
    var v := w.(incoming := w.incoming[1..]);
    match p
    case OnStream(i, f) =>
      if i == id {
        OwnTakeSimulates(w, id);
      } else {
        OtherTakeSimulates(w, id);
      }
    case PingPacket(ack, pid) =>
      FramesAppend(w.outgoing, PingPacket(true, pid), id);
      assert FramesOf(w.outgoing, id) + [] == FramesOf(w.outgoing, id);
      assert [] + FramesOf(v.incoming, id) == FramesOf(v.incoming, id);
    case GoAwayPacket(code) =>
      assert [] + FramesOf(v.incoming, id) == FramesOf(v.incoming, id);
  }

  lemma EndSimulates(w: World, from: u32, o: Outcome, m: WorldMove, v: World, id: u32)
    requires WorldCan(w, m) && (m.Register? || m.AcceptNext? || m.OnEnd? || m.FinishNext?)
    requires v.error.None? && v == w.(me := v.me)
    requires v.me.streams == w.me.streams && v.me.client == w.me.client && v.me.max == w.me.max
    requires o.Moved? && |o.out| <= 1 && WorldDo(w, m) == Settle(v, from, o)
    requires MoveOf(w, m, id).Some? <==> from == id
    requires from == id ==> Can(LinkOf(w, id), MoveOf(w, m, id).value)
    requires from == id ==> Result(LinkOf(w, id), MoveOf(w, m, id).value) == o
    requires from == id ==> !MoveOf(w, m, id).value.Take?
    ensures match MoveOf(w, m, id)
            case None => LinkOf(WorldDo(w, m), id) == LinkOf(w, id)
            case Some(move) => LinkOf(WorldDo(w, m), id) == Do(LinkOf(w, id), move)
  {
    assert LinkOf(v, id) == LinkOf(w, id);
    if from == id {
      SettleMoves(v, id, o);
    } else {
      SettleKeepsOthers(v, from, o, id);
    }
  }

  predicate MovesStreams(m: WorldMove) {
    m.Register? || m.AcceptNext? || m.OnEnd? || m.TakeNext? || m.FinishNext?
  }

  lemma OthersLeaveStreams(w: World, m: WorldMove)
    requires WorldCan(w, m) && !MovesStreams(m)
    ensures var v := WorldDo(w, m);
            && v == w.(me := v.me, outgoing := v.outgoing)
            && v.me.streams == w.me.streams && v.me.busy == w.me.busy && v.me.acceptQ == w.me.acceptQ
            && v.me.client == w.me.client && v.me.max == w.me.max && v.me.backlog == w.me.backlog
            && (v.outgoing == w.outgoing
                || exists p: Packet :: !p.OnStream? && v.outgoing == w.outgoing + [p])
  {
    match m
    case PostGoAway => assert !GoAwayPacket(GO_AWAY_NORMAL).OnStream?;
    case PostPing(call) => assert !PingPacket(false, IdOf(call)).OnStream?;
    case _ =>
  }

  /** `m` does on stream `id` what its link's move does, or nothing. */
  ghost predicate SimulatesOn(w: World, m: WorldMove, id: u32)
    requires WorldCan(w, m)
  {
    match MoveOf(w, m, id)
    case None => LinkOf(WorldDo(w, m), id) == LinkOf(w, id)
    case Some(move) => Can(LinkOf(w, id), move) && LinkOf(WorldDo(w, m), id) == Do(LinkOf(w, id), move)
  }

  lemma OthersSimulate(w: World, m: WorldMove, id: u32)
    requires WorldCan(w, m) && !MovesStreams(m)
    ensures SimulatesOn(w, m, id)
  {
    OthersLeaveStreams(w, m);
    var v := WorldDo(w, m);
    if v.outgoing != w.outgoing {
      var p: Packet :| !p.OnStream? && v.outgoing == w.outgoing + [p];
      FramesAppend(w.outgoing, p, id);
      assert FramesOf(w.outgoing, id) + [] == FramesOf(w.outgoing, id);
    }
  }

  lemma RegisterSimulates(w: World, i: u32, id: u32)
    requires IdsOk(w.me) && WorldCan(w, Register(i))
    ensures SimulatesOn(w, Register(i), id)
  {
    assert EndOf(w.me, i) == FreshEnd(Opener, w.me.max);
    EndSimulates(w, i, Apply(FreshEnd(Opener, w.me.max), Open), Register(i),
                 w.(me := w.me.(claimed := w.me.claimed - {i})), id);
  }

  lemma AcceptSimulates(w: World, id: u32)
    requires WorldCan(w, AcceptNext)
    ensures SimulatesOn(w, AcceptNext, id)
  {
    var i := w.me.acceptQ[0];
    EndSimulates(w, i, Apply(EndOf(w.me, i), Accept), AcceptNext, w.(me := w.me.(acceptQ := w.me.acceptQ[1..])), id);
  }

  lemma OnEndSimulates(w: World, i: u32, a: Action, id: u32)
    requires WorldCan(w, OnEnd(i, a)) && WorldDo(w, OnEnd(i, a)).error.None?
    ensures SimulatesOn(w, OnEnd(i, a), id)
  {
    SmallOutcome(EndOf(w.me, i), a);
    EndSimulates(w, i, Apply(EndOf(w.me, i), a), OnEnd(i, a), w, id);
  }

  lemma FinishSimulates(w: World, id: u32)
    requires WorldCan(w, FinishNext) && WorldDo(w, FinishNext).error.None?
    ensures SimulatesOn(w, FinishNext, id)
  {
    var i := w.me.busy.value;
    EndSimulates(w, i, FinishFrame(EndOf(w.me, i)), FinishNext, w.(me := w.me.(busy := None)), id);
  }

  /** A step of a session is, on each stream, a step of that stream's link or no step at all. */
  lemma SessionSimulates(w: World, m: WorldMove, id: u32)
    requires IdsOk(w.me) && BusyOk(w.me) && WorldCan(w, m) && WorldDo(w, m).error.None?
    ensures SimulatesOn(w, m, id)
  {
    if MovesStreams(m) {
      match m
      case TakeNext => TakeSimulates(w, id);
      case Register(i) => RegisterSimulates(w, i, id);
      case AcceptNext => AcceptSimulates(w, id);
      case OnEnd(i, a) => OnEndSimulates(w, i, a, id);
      case FinishNext => FinishSimulates(w, id);
    } else {
      OthersSimulate(w, m, id);
    }
  }

  function StepOf(w: World, m: WorldMove, id: u32): Option<Step>
    requires WorldCan(w, m)
  {
    match MoveOf(w, m, id)
    case None => None
    case Some(move) => Some(Step(RoleOf(w.me.client, id), move))
  }

  lemma TakeKeepsClient(w: World, p: Packet)
    ensures TakePacket(w, p).me.client == w.me.client && TakePacket(w, p).peer == w.peer
  {
  }

  lemma ClientsKept(w: World, m: WorldMove)
    requires WorldCan(w, m)
    ensures WorldDo(w, m).me.client == w.me.client && WorldDo(w, m).peer == w.peer
  {
    if m.TakeNext? {
      TakeKeepsClient(w.(incoming := w.incoming[1..]), w.incoming[0]);
    }
  }

  /** `l` becomes `k` by step `s`, or is `k` already. */
  predicate Leads(l: Link, s: Option<Step>, k: Link) {
    match s
    case None => k == l
    case Some(t) => CanStep(l, t) && k == DoStep(l, t)
  }

  lemma ViewLeads(w: World, v: World, move: Option<Move>, id: u32)
    requires v.me.client == w.me.client
    requires match move case None => LinkOf(v, id) == LinkOf(w, id)
                        case Some(m) => Can(LinkOf(w, id), m) && LinkOf(v, id) == Do(LinkOf(w, id), m)
    ensures var s := if move.Some? then Some(Step(RoleOf(w.me.client, id), move.value)) else None;
            Leads(StreamView(w, id), s, StreamView(v, id))
  {
  }

  lemma ViewSimulates(w: World, m: WorldMove, id: u32)
    requires IdsOk(w.me) && BusyOk(w.me) && WorldCan(w, m) && WorldDo(w, m).error.None?
    ensures Leads(StreamView(w, id), StepOf(w, m, id), StreamView(WorldDo(w, m), id))
  {
    SessionSimulates(w, m, id);
    ClientsKept(w, m);
    ViewLeads(w, WorldDo(w, m), MoveOf(w, m, id), id);
  }

  lemma StreamsKept(w: World, m: WorldMove)
    requires WorldInv(w) && WorldCan(w, m) && WorldDo(w, m).error.None?
    ensures StreamsOk(WorldDo(w, m))
  {
    forall id: u32 ensures StreamOk(WorldDo(w, m), id) {
      assert StreamOk(w, id);
      ViewSimulates(w, m, id);
      LeadsKeepsInv(StreamView(w, id), StepOf(w, m, id), StreamView(WorldDo(w, m), id));
    }
  }

  lemma LeadsKeepsInv(l: Link, s: Option<Step>, k: Link)
    requires OpenerInv(l) && Leads(l, s, k) && k.error.None?
    ensures OpenerInv(k)
  {
    if s.Some? {
      StepKeepsInv(l, s.value);
    }
  }

  // ---- the sessions themselves ----

  lemma NextIdOk(client: bool, id: u32)
    requires RoleOf(client, id).Opener? && id < U32 - 2
    ensures Add32(id, 2) == id + 2 && RoleOf(client, Add32(id, 2)).Opener?
  {
  }

  /** What a view says of the end of this session. */
  lemma ViewedEnd(w: World, id: u32)
    requires StreamsOk(w)
    ensures var e := EndOf(w.me, id);
            && PhaseOk(e) && HandedOk(e) && e.role == RoleOf(w.me.client, id)
            && (w.incoming != [] && w.incoming[0].OnStream? && w.incoming[0].id == id && e.rx == [] ==>
                  && HeadOk(LinkOf(w, id))
                  && FramesOf(w.incoming, id) != [] && FramesOf(w.incoming, id)[0] == w.incoming[0].frame)
  {
    assert StreamOk(w, id);
    HeadsOk(StreamView(w, id));
  }

  lemma IdsKeptByClaim(w: World, t: nat)
    requires IdsOk(w.me) && WorldCan(w, ClaimId(t))
    ensures IdsOk(WorldDo(w, ClaimId(t)).me)
  {
    if w.me.nextStreamID == w.me.loads[t] {
      NextIdOk(w.me.client, w.me.nextStreamID);
    }
  }

  lemma FreshOnlyOpens(role: Role, max: u32, a: Action)
    requires Enabled(FreshEnd(role, max), a)
    ensures a.Open?
  {
  }

  lemma IdsKeptBySet(n: Node, n': Node, id: u32, e: End)
    requires IdsOk(n) && (id in n.streams || RoleOf(n.client, id).Acceptor? || id in n.claimed)
    requires n'.streams == n.streams[id := e] && n'.claimed == n.claimed - {id}
    requires n'.client == n.client && n'.nextStreamID == n.nextStreamID && n'.loads == n.loads
    ensures IdsOk(n')
  {
  }

  lemma IdsKeptByStreams(w: World, m: WorldMove)
    requires NodeOk(w.me) && WorldCan(w, m) && WorldDo(w, m).error.None?
    requires m.Register? || m.AcceptNext? || m.OnEnd? || m.FinishNext?
    ensures IdsOk(WorldDo(w, m).me)
  {
    var v := WorldDo(w, m).me;
    match m
    case OnEnd(id, a) =>
      assert id in w.me.streams by {
        if id !in w.me.streams {
          FreshOnlyOpens(RoleOf(w.me.client, id), w.me.max, a);
        }
      }
      assert w.me.claimed - {id} == w.me.claimed;
      IdsKeptBySet(w.me, v, id, EndOf(v, id));
    case Register(id) => IdsKeptBySet(w.me, v, id, EndOf(v, id));
    case AcceptNext =>
      var id := w.me.acceptQ[0];
      assert w.me.claimed - {id} == w.me.claimed;
      IdsKeptBySet(w.me, v, id, EndOf(v, id));
    case FinishNext =>
      var id := w.me.busy.value;
      assert w.me.claimed - {id} == w.me.claimed;
      IdsKeptBySet(w.me, v, id, EndOf(v, id));
  }

  lemma IdsKeptByTake(w: World)
    requires IdsOk(w.me) && BusyOk(w.me) && StreamsOk(w) && WorldCan(w, TakeNext) && WorldDo(w, TakeNext).error.None?
    ensures IdsOk(WorldDo(w, TakeNext).me)
  {
    if w.incoming[0].OnStream? {
      var id, v := w.incoming[0].id, WorldDo(w, TakeNext).me;
      ViewedEnd(w, id);
      assert w.me.claimed - {id} == w.me.claimed by {
        assert id in w.me.claimed ==> EndOf(w.me, id).phase.Fresh? && RoleOf(w.me.client, id).Opener?;
      }
      IdsKeptBySet(w.me, v, id, EndOf(v, id));
    }
  }

  lemma IdsKept(w: World, m: WorldMove)
    requires NodeOk(w.me) && StreamsOk(w) && WorldCan(w, m) && WorldDo(w, m).error.None?
    ensures IdsOk(WorldDo(w, m).me)
  {
    if m.TakeNext? {
      IdsKeptByTake(w);
    } else if MovesStreams(m) {
      IdsKeptByStreams(w, m);
    } else if m.ClaimId? {
      IdsKeptByClaim(w, m.routine);
    } else {
      OthersLeaveStreams(w, m);
    }
  }

  lemma LocalKeepsRx(e: End, a: Action)
    requires Enabled(e, a) && Apply(e, a).Moved?
    ensures Apply(e, a).e.rx == e.rx
  {
  }

  lemma BusyKeptByTake(w: World)
    requires BusyOk(w.me) && StreamsOk(w) && WorldCan(w, TakeNext) && WorldDo(w, TakeNext).error.None?
    ensures BusyOk(WorldDo(w, TakeNext).me)
  {
    match w.incoming[0]
    case OnStream(id, f) =>
      ViewedEnd(w, id);
      var v := WorldDo(w, TakeNext).me;
      BusyKeptBySet(w.me, v, id, EndOf(v, id));
    case _ =>
  }

  lemma BusyKeptBySet(n: Node, n': Node, id: u32, e: End)
    requires BusyOk(n) && n.busy.None? && n'.streams == n.streams[id := e]
    requires n'.busy == if e.rx == [] then None else Some(id)
    ensures BusyOk(n')
  {
  }

  lemma BusyKeptByEnd(w: World, id: u32, a: Action)
    requires BusyOk(w.me) && WorldCan(w, OnEnd(id, a)) && WorldDo(w, OnEnd(id, a)).error.None?
    ensures BusyOk(WorldDo(w, OnEnd(id, a)).me)
  {
    LocalKeepsRx(EndOf(w.me, id), a);
  }

  lemma BusyKeptByAccept(w: World)
    requires BusyOk(w.me) && WorldCan(w, AcceptNext)
    ensures BusyOk(WorldDo(w, AcceptNext).me)
  {
    LocalKeepsRx(EndOf(w.me, w.me.acceptQ[0]), Accept);
  }

  lemma BusyKept(w: World, m: WorldMove)
    requires IdsOk(w.me) && BusyOk(w.me) && StreamsOk(w) && WorldCan(w, m) && WorldDo(w, m).error.None?
    ensures BusyOk(WorldDo(w, m).me)
  {
    if MovesStreams(m) {
      match m
      case OnEnd(id, a) => BusyKeptByEnd(w, id, a);
      case AcceptNext => BusyKeptByAccept(w);
      case TakeNext => BusyKeptByTake(w);
      case _ =>
    } else {
      OthersLeaveStreams(w, m);
    }
  }

  /** A stream waiting to be accepted is left alone by everything but AcceptStream and recv. */
  lemma WaitingIsIdle(e: End, a: Action)
    requires HandedOk(e) && Waiting(e) && Enabled(e, a)
    ensures a.Accept?
  {
  }

  lemma WaitingSurvivesTake(l: Link, admission: Admission)
    requires PhaseOk(l.me) && HandedOk(l.me) && Waiting(l.me) && HeadOk(l)
    requires Can(l, Take(admission)) && Result(l, Take(admission)).Moved?
    ensures Waiting(Result(l, Take(admission)).e) && l.incoming[0].flags != SYN
  {
  }

  lemma SynArrives(l: Link, admission: Admission)
    requires PhaseOk(l.me) && HeadOk(l) && Can(l, Take(admission)) && Result(l, Take(admission)).Moved?
    requires l.incoming[0].flags.syn
    ensures l.me.phase.Fresh? && l.incoming[0].flags == SYN
    ensures admission.Admit? ==> Waiting(Result(l, Take(admission)).e)
  {
  }

  lemma QueueGrows(n: Node, id: u32, e: End)
    requires QueueOk(n) && id !in n.acceptQ && Waiting(e) && |n.acceptQ| < n.backlog
    ensures QueueOk(SetEnd(n, id, e).(acceptQ := n.acceptQ + [id]))
  {
  }

  lemma QueueStays(n: Node, id: u32, e: End)
    requires QueueOk(n) && (id in n.acceptQ ==> Waiting(e))
    ensures QueueOk(SetEnd(n, id, e))
  {
  }

  lemma QueueIgnores(n: Node, n': Node)
    requires QueueOk(n) && n'.acceptQ == n.acceptQ && n'.streams == n.streams && n'.backlog == n.backlog
    ensures QueueOk(n')
  {
  }

  /** What a taken frame means for the accept queue: a SYN that is admitted is new to it, and whatever waits
      goes on waiting. */
  lemma TakenFrameQueues(w: World, id: u32)
    requires NodeOk(w.me) && StreamsOk(w) && WorldCan(w, TakeNext)
    requires w.incoming[0].OnStream? && w.incoming[0].id == id
    requires Result(LinkOf(w, id), Take(AdmissionOf(w.me))).Moved?
    ensures var e := Result(LinkOf(w, id), Take(AdmissionOf(w.me))).e;
            if w.incoming[0].frame.flags.syn then id !in w.me.acceptQ && (AdmissionOf(w.me).Admit? ==> Waiting(e))
            else id in w.me.acceptQ ==> Waiting(e)
  {
    ViewedEnd(w, id);
    var l := LinkOf(w, id);
    if w.incoming[0].frame.flags.syn {
      SynArrives(l, AdmissionOf(w.me));
    } else if id in w.me.acceptQ {
      WaitingSurvivesTake(l, AdmissionOf(w.me));
    }
  }

  lemma QueueKeptByTake(w: World)
    requires NodeOk(w.me) && StreamsOk(w) && WorldCan(w, TakeNext) && WorldDo(w, TakeNext).error.None?
    ensures QueueOk(WorldDo(w, TakeNext).me)
  {
    var v := WorldDo(w, TakeNext).me;
    match w.incoming[0]
    case OnStream(id, f) =>
      OwnTakeSimulates(w, id);
      TakenFrameQueues(w, id);
      var e := EndOf(v, id);
      if f.flags.syn && AdmissionOf(w.me).Admit? {
        QueueGrows(w.me, id, e);
        QueueIgnores(SetEnd(w.me, id, e).(acceptQ := w.me.acceptQ + [id]), v);
      } else {
        QueueStays(w.me, id, e);
        QueueIgnores(SetEnd(w.me, id, e), v);
      }
    case _ => QueueIgnores(w.me, v);
  }

  lemma QueueKeptByAccept(w: World)
    requires QueueOk(w.me) && WorldCan(w, AcceptNext) && WorldDo(w, AcceptNext).error.None?
    ensures QueueOk(WorldDo(w, AcceptNext).me)
  {
    var q := WorldDo(w, AcceptNext).me.acceptQ;
    assert forall i :: 0 <= i < |q| ==> q[i] == w.me.acceptQ[i + 1] && q[i] != w.me.acceptQ[0];
  }

  lemma QueueKeptByEnd(w: World, id: u32, a: Action)
    requires QueueOk(w.me) && StreamsOk(w) && WorldCan(w, OnEnd(id, a)) && WorldDo(w, OnEnd(id, a)).error.None?
    ensures QueueOk(WorldDo(w, OnEnd(id, a)).me)
  {
    ViewedEnd(w, id);
    if id in w.me.acceptQ {
      WaitingIsIdle(EndOf(w.me, id), a);
      assert false;
    }
  }

  lemma QueueKept(w: World, m: WorldMove)
    requires NodeOk(w.me) && StreamsOk(w) && WorldCan(w, m) && WorldDo(w, m).error.None?
    ensures QueueOk(WorldDo(w, m).me)
  {
    if MovesStreams(m) {
      match m
      case TakeNext => QueueKeptByTake(w);
      case OnEnd(id, a) => QueueKeptByEnd(w, id, a);
      case AcceptNext => QueueKeptByAccept(w);
      case Register(id) => assert id !in w.me.acceptQ;
      case FinishNext =>
    } else {
      OthersLeaveStreams(w, m);
    }
  }

  lemma GoAwaysKept(w: World, m: WorldMove)
    requires GoAwaysNormal(w.outgoing) && GoAwaysNormal(w.incoming) && WorldCan(w, m)
    ensures GoAwaysNormal(WorldDo(w, m).outgoing) && GoAwaysNormal(WorldDo(w, m).incoming)
  {
  }

  lemma StepKeepsWorld(w: World, m: WorldMove)
    requires WorldInv(w) && WorldCan(w, m) && WorldDo(w, m).error.None?
    ensures WorldInv(WorldDo(w, m))
  {
    StreamsKept(w, m);
    IdsKept(w, m);
    BusyKept(w, m);
    QueueKept(w, m);
    GoAwaysKept(w, m);
    ClientsKept(w, m);
  }

  lemma TurnKeepsInv(w: World)
    requires WorldInv(w)
    ensures WorldInv(Turn(w))
  {
    forall id: u32 ensures StreamOk(Turn(w), id) {
      assert StreamOk(w, id);
      assert StreamView(Turn(w), id) == StreamView(w, id);
    }
  }
}
