/** Two sessions that carry many streams, pings and go-aways over one pair of wires. */
module YamuxSession {
  import opened Options
  import opened YamuxTypes
  import opened YamuxEnd
  import opened YamuxLink
  import opened YamuxPing

  datatype Packet =
    | OnStream(id: u32, frame: Frame)
    | PingPacket(ack: bool, pingId: u32)
    | GoAwayPacket(code: u32)

  const GO_AWAY_NORMAL: u32 := 0
  const GO_AWAY_PROTO_ERR: u32 := 1

  datatype Node = Node(
    client: bool,
    max: u32,                  // config.MaxStreamWindowSize
    backlog: nat,              // config.AcceptBacklog
    nextStreamID: u32,
    loads: map<nat, u32>,      // goroutines in OpenStream between loading nextStreamID and the compare-and-swap
    claimed: set<u32>,         // ids won by a compare-and-swap whose stream is not registered yet
    streams: map<u32, End>,    // every stream this session has had
    busy: Option<u32>,         // the stream whose frame recv is working on
    acceptQ: seq<u32>,         // acceptCh
    localGoAway: bool,
    remoteGoAway: bool,
    goAwaysDue: nat,           // GoAway calls that have not sent their frame yet
    pings: Pings               // without its wires, which are the session's own
  )

  datatype World = World(me: Node, peer: Node, outgoing: seq<Packet>, incoming: seq<Packet>, error: Option<Error>)

  function Turn(w: World): World {
    World(w.peer, w.me, w.incoming, w.outgoing, w.error)
  }

  /** Clients open odd ids and servers even ones. */
  function RoleOf(client: bool, id: u32): Role {
    if client == (id % 2 == 1) then Opener else Acceptor
  }

  function EndOf(n: Node, id: u32): End {
    if id in n.streams then n.streams[id] else FreshEnd(RoleOf(n.client, id), n.max)
  }

  function SetEnd(n: Node, id: u32, e: End): Node {
    n.(streams := n.streams[id := e])
  }

  datatype WorldMove =
    | LoadId(routine: nat)
    | ClaimId(routine: nat)
    | Register(id: u32)
    | AcceptNext
    | OnEnd(id: u32, action: Action)
    | TakeNext
    | FinishNext
    | BeginGoAway
    | PostGoAway
    | BeginPing
    | PostPing(call: nat)

  predicate WorldCan(w: World, m: WorldMove) {
    && w.error.None?
    && match m
       case LoadId(_) => w.me.nextStreamID < U32 - 2
       case ClaimId(t) => t in w.me.loads
       case Register(id) => id in w.me.claimed
       case AcceptNext => w.me.acceptQ != [] && Enabled(EndOf(w.me, w.me.acceptQ[0]), Accept)
       case OnEnd(id, a) => !a.Open? && !a.Accept? && Enabled(EndOf(w.me, id), a)
       case TakeNext => w.me.busy.None? && w.incoming != []
       case FinishNext => w.me.busy.Some? && EndOf(w.me, w.me.busy.value).rx != []
       case BeginGoAway => true
       case PostGoAway => w.me.goAwaysDue > 0
       case BeginPing => true
       case PostPing(call) => call in w.me.pings.starting
  }

  /** incomingStream's choice. */
  function AdmissionOf(n: Node): Admission {
    if n.localGoAway then GoingAway else if |n.acceptQ| >= n.backlog then BacklogFull else Admit
  }

  function Wrap(id: u32, frames: seq<Frame>): seq<Packet> {
    seq(|frames|, i requires 0 <= i < |frames| => OnStream(id, frames[i]))
  }

  function Settle(w: World, id: u32, o: Outcome): World {
    match o
    case Failed(error) => w.(error := Some(error))
    case Moved(e, out) => w.(me := SetEnd(w.me, id, e), outgoing := w.outgoing + Wrap(id, out))
  }

  function TakePacket(w: World, p: Packet): World {
    match p
    case OnStream(id, f) =>
      var admission := AdmissionOf(w.me);
      var o := TakeFrame(EndOf(w.me, id), f, admission);
      var v := Settle(w, id, o);
      if o.Failed? then v else
      v.(me := v.me.(busy := if o.e.rx == [] then None else Some(id),
                     acceptQ := if f.flags.syn && admission.Admit? then w.me.acceptQ + [id] else w.me.acceptQ))
    case PingPacket(ack, id) =>
      if !ack then
        w.(outgoing := w.outgoing + [PingPacket(true, id)])
      else
        w.(me := w.me.(pings := DoPing(w.me.pings.(replies := [id]), TakeReply)))
    case GoAwayPacket(code) =>
      if code == GO_AWAY_NORMAL then w.(me := w.me.(remoteGoAway := true)) else w.(error := Some(RemoteError))
  }

  function WorldDo(w: World, m: WorldMove): World
    requires WorldCan(w, m)
  {
    match m
    case LoadId(t) => w.(me := w.me.(loads := w.me.loads[t := w.me.nextStreamID]))
    case ClaimId(t) =>
      var id := w.me.loads[t];
      var n := w.me.(loads := w.me.loads - {t});
      if w.me.nextStreamID == id then
        w.(me := n.(nextStreamID := Add32(id, 2), claimed := w.me.claimed + {id}))
      else w.(me := n)
    case Register(id) =>
      Settle(w.(me := w.me.(claimed := w.me.claimed - {id})), id, Apply(FreshEnd(Opener, w.me.max), Open))
    case AcceptNext =>
      var id := w.me.acceptQ[0];
      Settle(w.(me := w.me.(acceptQ := w.me.acceptQ[1..])), id, Apply(EndOf(w.me, id), Accept))
    case OnEnd(id, a) => Settle(w, id, Apply(EndOf(w.me, id), a))
    case TakeNext => TakePacket(w.(incoming := w.incoming[1..]), w.incoming[0])
    case FinishNext =>
      var id := w.me.busy.value;
      Settle(w.(me := w.me.(busy := None)), id, FinishFrame(EndOf(w.me, id)))
    case BeginGoAway => w.(me := w.me.(localGoAway := true, goAwaysDue := w.me.goAwaysDue + 1))
    case PostGoAway =>
      w.(me := w.me.(goAwaysDue := w.me.goAwaysDue - 1), outgoing := w.outgoing + [GoAwayPacket(GO_AWAY_NORMAL)])
    case BeginPing => w.(me := w.me.(pings := DoPing(w.me.pings, StartPing)))
    case PostPing(call) =>
      w.(me := w.me.(pings := DoPing(w.me.pings, SendPing(call)).(requests := [])),
         outgoing := w.outgoing + [PingPacket(false, IdOf(call))])
  }

  datatype WorldStep = WorldStep(byClient: bool, move: WorldMove)

  /** A world is written as the client sees it. */
  function Facing(w: World, client: bool): World {
    if client then w else Turn(w)
  }

  predicate WorldRuns(w: World, steps: seq<WorldStep>)
    decreases |steps|
  {
    steps == [] ||
    (WorldCan(Facing(w, steps[0].byClient), steps[0].move) && WorldRuns(WorldStepped(w, steps[0]), steps[1..]))
  }

  function WorldStepped(w: World, s: WorldStep): World
    requires WorldCan(Facing(w, s.byClient), s.move)
  {
    Facing(WorldDo(Facing(w, s.byClient), s.move), s.byClient)
  }

  function WorldAfter(w: World, steps: seq<WorldStep>): World
    requires WorldRuns(w, steps)
    decreases |steps|
  {
    if steps == [] then w else WorldAfter(WorldStepped(w, steps[0]), steps[1..])
  }

  function NewNode(client: bool, max: u32, backlog: nat): Node {
    Node(client, max, backlog, if client then 1 else 2, map[], {}, map[], None, [], false, false, 0, NO_PINGS)
  }

  function NewWorld(clientMax: u32, clientBacklog: nat, serverMax: u32, serverBacklog: nat): World {
    World(NewNode(true, clientMax, clientBacklog), NewNode(false, serverMax, serverBacklog), [], [], None)
  }

  // ---- one stream of a world ----

  function FramesOf(q: seq<Packet>, id: u32): seq<Frame> {
    if q == [] then []
    else (if q[0].OnStream? && q[0].id == id then [q[0].frame] else []) + FramesOf(q[1..], id)
  }

  function LinkOf(w: World, id: u32): Link {
    Link(EndOf(w.me, id), EndOf(w.peer, id), FramesOf(w.outgoing, id), FramesOf(w.incoming, id), w.error)
  }

  /** The link of stream `id`, as its opener sees it. */
  function StreamView(w: World, id: u32): Link {
    if RoleOf(w.me.client, id).Opener? then LinkOf(w, id) else Flip(LinkOf(w, id))
  }

  lemma {:induction false} FramesAppend(q: seq<Packet>, p: Packet, id: u32)
    ensures FramesOf(q + [p], id) == FramesOf(q, id) + (if p.OnStream? && p.id == id then [p.frame] else [])
  {
    if q == [] {
      assert q + [p] == [p] && [p][1..] == [];
    } else {
      FramesAppend(q[1..], p, id);
      assert (q + [p])[1..] == q[1..] + [p];
      var first := if q[0].OnStream? && q[0].id == id then [q[0].frame] else [];
      var last := if p.OnStream? && p.id == id then [p.frame] else [];
      assert first + (FramesOf(q[1..], id) + last) == (first + FramesOf(q[1..], id)) + last;
    }
  }

  lemma FramesPosted(q: seq<Packet>, from: u32, out: seq<Frame>, id: u32)
    requires |out| <= 1
    ensures FramesOf(q + Wrap(from, out), id) == FramesOf(q, id) + (if from == id then out else [])
  {
    if out == [] {
      assert q + Wrap(from, out) == q;
      assert FramesOf(q, id) + [] == FramesOf(q, id);
    } else {
      assert Wrap(from, out) == [OnStream(from, out[0])];
      assert out == [out[0]];
      FramesAppend(q, OnStream(from, out[0]), id);
    }
  }
}
