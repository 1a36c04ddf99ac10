/** Every run of a link is the run of a stream of two real sessions, so what links can reach, sessions can. */
module YamuxRealized {
  import opened Options
  import opened YamuxTypes
  import opened YamuxEnd
  import opened YamuxLink
  import opened YamuxInv
  import opened YamuxKept
  import opened YamuxGap
  import opened YamuxSession
  import opened YamuxMux
  import opened YamuxWorld

  /** The first stream that the client opens. */
  const ID: u32 := 1

  // ---- sessions with one stream ----

  predicate OnlyOne(q: seq<Packet>) {
    forall i :: 0 <= i < |q| ==> q[i].OnStream? && q[i].id == ID
  }

  /** A session that admits streams, and has claimed the id before its stream is registered. */
  ghost predicate SoloNode(n: Node) {
    && !n.localGoAway && n.backlog > 0
    && n.busy in {None, Some(ID)}
    && n.acceptQ == (if Waiting(EndOf(n, ID)) then [ID] else [])
    && (RoleOf(n.client, ID).Opener? && EndOf(n, ID).phase.Fresh? ==> ID in n.claimed)
  }

  ghost predicate Solo(w: World) {
    WorldInv(w) && SoloNode(w.me) && SoloNode(w.peer) && OnlyOne(w.outgoing) && OnlyOne(w.incoming)
  }

  lemma SoloTurned(w: World)
    requires Solo(w)
    ensures Solo(Turn(w))
  {
    TurnKeepsInv(w);
  }

  // ---- one move ----

  /** The session step that makes a move of the stream. */
  function Lifted(m: Move): WorldMove {
    match m
    case Local(a) => if a.Open? then Register(ID) else if a.Accept? then AcceptNext else OnEnd(ID, a)
    case Take(_) => TakeNext
    case Finish => FinishNext
  }

  lemma OwnEnd(w: World)
    requires Solo(w)
    ensures PhaseOk(EndOf(w.me, ID)) && HandedOk(EndOf(w.me, ID)) && EndOf(w.me, ID).role == RoleOf(w.me.client, ID)
    ensures w.me.busy == Some(ID) <==> EndOf(w.me, ID).rx != []
  {
    ViewedEnd(w, ID);
  }

  /** Wherever the stream can move, its session can. */
  lemma CanBeLifted(w: World, m: Move)
    requires Solo(w) && Can(LinkOf(w, ID), m)
    ensures WorldCan(w, Lifted(m))
  {
    OwnEnd(w);
  }

  /** Only a SYN asks for admission, and a session that meets one has room for the stream. */
  lemma AdmissionIsGiven(w: World, m: Move)
    requires Solo(w) && Can(LinkOf(w, ID), m) && Admits(m)
    ensures WorldCan(w, Lifted(m)) && MoveOf(w, Lifted(m), ID).Some?
    ensures var move := MoveOf(w, Lifted(m), ID).value;
            Can(LinkOf(w, ID), move) && Result(LinkOf(w, ID), move) == Result(LinkOf(w, ID), m) && move.Take? == m.Take?
  {
    CanBeLifted(w, m);
    if m.Take? {
      ViewedEnd(w, ID);
    }
  }

  lemma LiftMoves(w: World, m: Move)
    requires Solo(w) && Can(LinkOf(w, ID), m) && Admits(m)
    ensures WorldCan(w, Lifted(m)) && LinkOf(WorldDo(w, Lifted(m)), ID) == Do(LinkOf(w, ID), m)
  {
    AdmissionIsGiven(w, m);
    var wm := Lifted(m);
    if WorldDo(w, wm).error.None? {
      SessionSimulates(w, wm, ID);
    } else {
      WorldErrs(w, wm);
    }
  }

  // ---- the session stays a session with one stream ----

  lemma WaitsNoLonger(e: End, a: Action)
    requires PhaseOk(e) && HandedOk(e) && Enabled(e, a) && Apply(e, a).Moved?
    ensures !Waiting(Apply(e, a).e) && !Apply(e, a).e.phase.Fresh?
  {
  }

  lemma OnlyOneGrows(q: seq<Packet>, out: seq<Frame>)
    requires OnlyOne(q)
    ensures OnlyOne(q + Wrap(ID, out))
  {
  }

  lemma LocalStaysSolo(w: World, a: Action)
    requires Solo(w) && Can(LinkOf(w, ID), Local(a))
    requires WorldCan(w, Lifted(Local(a))) && WorldDo(w, Lifted(Local(a))).error.None?
    ensures SoloNode(WorldDo(w, Lifted(Local(a))).me) && OnlyOne(WorldDo(w, Lifted(Local(a))).outgoing)
  {
    OwnEnd(w);
    var e := EndOf(w.me, ID);
    OnlyOneGrows(w.outgoing, Apply(e, a).out);
    WaitsNoLonger(e, a);
    if Waiting(e) {
      WaitingIsIdle(e, a);
    }
  }

  /** Taking a frame makes an end wait for AcceptStream if it was waiting, or if the frame is a SYN. */
  lemma TakeAndWait(l: Link, admission: Admission)
    requires PhaseOk(l.me) && HandedOk(l.me) && HeadOk(l)
    requires Can(l, Take(admission)) && Result(l, Take(admission)).Moved?
    requires admission.Admit? || !l.incoming[0].flags.syn
    ensures var e := Result(l, Take(admission)).e;
            && (Waiting(e) <==> Waiting(l.me) || l.incoming[0].flags.syn) && !e.phase.Fresh?
            && (l.incoming[0].flags.syn ==> !Waiting(l.me) && l.me.role.Acceptor?)
  {
    if l.incoming[0].flags.syn {
      SynArrives(l, admission);
    } else if Waiting(l.me) {
      WaitingSurvivesTake(l, admission);
    }
  }

  /** The frame that recv takes next, as the link sees it. */
  lemma OwnHead(w: World)
    requires Solo(w) && WorldCan(w, TakeNext)
    ensures var l, f := LinkOf(w, ID), w.incoming[0].frame;
            && PhaseOk(l.me) && HandedOk(l.me) && HeadOk(l) && l.me.rx == []
            && l.incoming != [] && l.incoming[0] == f
            && (f.flags.syn ==> AdmissionOf(w.me).Admit?)
  {
    OwnEnd(w);
    ViewedEnd(w, ID);
  }

  lemma TakeStaysSolo(w: World)
    requires Solo(w) && WorldCan(w, TakeNext) && WorldDo(w, TakeNext).error.None?
    ensures SoloNode(WorldDo(w, TakeNext).me) && OnlyOne(WorldDo(w, TakeNext).outgoing)
  {
    OwnHead(w);
    var o := Result(LinkOf(w, ID), Take(AdmissionOf(w.me)));
    TakeAndWait(LinkOf(w, ID), AdmissionOf(w.me));
    OnlyOneGrows(w.outgoing, o.out);
  }

  lemma FinishLeaves(e: End)
    requires e.rx != [] && FinishFrame(e).Moved?
    ensures var e' := FinishFrame(e).e;
            FinishFrame(e).out == [] && Waiting(e') == Waiting(e) && e'.phase == e.phase
  {
  }

  lemma FinishStaysSolo(w: World)
    requires Solo(w) && WorldCan(w, FinishNext) && WorldDo(w, FinishNext).error.None?
    ensures SoloNode(WorldDo(w, FinishNext).me) && OnlyOne(WorldDo(w, FinishNext).outgoing)
  {
    FinishLeaves(EndOf(w.me, ID));
    OnlyOneGrows(w.outgoing, []);
  }

  lemma NodeStaysSolo(w: World, m: Move)
    requires Solo(w) && Can(LinkOf(w, ID), m)
    requires WorldCan(w, Lifted(m)) && WorldDo(w, Lifted(m)).error.None?
    ensures SoloNode(WorldDo(w, Lifted(m)).me) && OnlyOne(WorldDo(w, Lifted(m)).outgoing)
  {
    match m
    case Local(a) => LocalStaysSolo(w, a);
    case Take(_) => TakeStaysSolo(w);
    case Finish => FinishStaysSolo(w);
  }

  lemma PeerStaysSolo(w: World, m: WorldMove)
    requires SoloNode(w.peer) && OnlyOne(w.incoming) && WorldCan(w, m)
    ensures SoloNode(WorldDo(w, m).peer) && OnlyOne(WorldDo(w, m).incoming)
  {
    ClientsKept(w, m);
  }

  lemma StaysSolo(w: World, m: Move)
    requires Solo(w) && Can(LinkOf(w, ID), m)
    requires WorldCan(w, Lifted(m)) && WorldDo(w, Lifted(m)).error.None?
    ensures Solo(WorldDo(w, Lifted(m)))
  {
    StepKeepsWorld(w, Lifted(m));
    PeerStaysSolo(w, Lifted(m));
    NodeStaysSolo(w, m);
  }

  // ---- whole runs ----

  function LiftedStep(s: Step): WorldStep {
    WorldStep(s.who.Opener?, Lifted(s.move))
  }

  function LiftedRun(steps: seq<Step>): seq<WorldStep> {
    if steps == [] then [] else [LiftedStep(steps[0])] + LiftedRun(steps[1..])
  }

  /** A move of this session's end, made by this session. */
  lemma LiftOwn(w: World, m: Move)
    requires Solo(w) && Can(LinkOf(w, ID), m) && Admits(m)
    ensures WorldCan(w, Lifted(m))
    ensures var v := WorldDo(w, Lifted(m));
            && v.me.client == w.me.client && LinkOf(v, ID) == Do(LinkOf(w, ID), m)
            && (v.error.None? ==> Solo(v))
  {
    LiftMoves(w, m);
    ClientsKept(w, Lifted(m));
    if WorldDo(w, Lifted(m)).error.None? {
      StaysSolo(w, m);
    }
  }

  lemma LiftPeers(w: World, m: Move)
    requires Solo(w) && Can(LinkOf(Turn(w), ID), m) && Admits(m)
    ensures WorldCan(Turn(w), Lifted(m))
    ensures var v := Turn(WorldDo(Turn(w), Lifted(m)));
            && v.me.client == w.me.client && LinkOf(Turn(v), ID) == Do(LinkOf(Turn(w), ID), m)
            && (v.error.None? ==> Solo(v))
  {
    SoloTurned(w);
    LiftOwn(Turn(w), m);
    ClientsKept(Turn(w), Lifted(m));
    var v := WorldDo(Turn(w), Lifted(m));
    if v.error.None? {
      SoloTurned(v);
    }
  }

  lemma LiftSteps(w: World, s: Step)
    requires Solo(w) && w.me.client && CanStep(LinkOf(w, ID), s) && Admits(s.move)
    ensures WorldCan(Facing(w, s.who.Opener?), Lifted(s.move))
    ensures var v := WorldStepped(w, LiftedStep(s));
            && v.me.client && LinkOf(v, ID) == DoStep(LinkOf(w, ID), s)
            && (v.error.None? ==> Solo(v))
  {
    if s.who.Opener? {
      LiftOwn(w, s.move);
    } else {
      LiftPeers(w, s.move);
    }
  }

  lemma WorldThen(w: World, t: WorldStep, rest: seq<WorldStep>)
    requires WorldCan(Facing(w, t.byClient), t.move) && WorldRuns(WorldStepped(w, t), rest)
    ensures WorldRuns(w, [t] + rest) && WorldAfter(w, [t] + rest) == WorldAfter(WorldStepped(w, t), rest)
  {
    assert ([t] + rest)[1..] == rest;
  }

  /** The session steps `ws` can be taken from `w`, and lead the stream to `k`. */
  predicate Realizes(w: World, ws: seq<WorldStep>, k: Link) {
    WorldRuns(w, ws) && LinkOf(WorldAfter(w, ws), ID) == k
  }

  lemma RealizesThen(w: World, t: WorldStep, ws: seq<WorldStep>, k: Link)
    requires WorldCan(Facing(w, t.byClient), t.move) && Realizes(WorldStepped(w, t), ws, k)
    ensures Realizes(w, [t] + ws, k)
  {
    WorldThen(w, t, ws);
  }

  lemma RealizesNothing(w: World, l: Link, steps: seq<Step>)
    requires l == LinkOf(w, ID) && l.error.Some? && Runs(l, steps)
    ensures steps == [] && Realizes(w, [], After(l, steps))
  {
  }

  lemma {:induction false} LiftRuns(w: World, l: Link, steps: seq<Step>, end: Link)
    requires Solo(w) && w.me.client && l == LinkOf(w, ID) && Runs(l, steps) && Admitting(steps)
    requires end == After(l, steps)
    ensures Realizes(w, LiftedRun(steps), end)
    decreases |steps|
  {
    if steps != [] {
      var s, rest := steps[0], steps[1..];
      RunsTail(l, steps);
      LiftSteps(w, s);
      var v, k := WorldStepped(w, LiftedStep(s)), DoStep(l, s);
      if v.error.None? {
        LiftRuns(v, k, rest, end);
      } else {
        RealizesNothing(v, k, rest);
      }
      RealizesThen(w, LiftedStep(s), LiftedRun(rest), end);
    }
  }

  const CLAIM: seq<WorldStep> := [WorldStep(true, LoadId(0)), WorldStep(true, ClaimId(0))]

  /** The client has won the first id. */
  function Claimed(clientMax: u32, clientBacklog: nat, serverMax: u32, serverBacklog: nat): World {
    var w := NewWorld(clientMax, clientBacklog, serverMax, serverBacklog);
    w.(me := w.me.(nextStreamID := 3, claimed := {ID}))
  }

  lemma ClaimRuns(clientMax: u32, clientBacklog: nat, serverMax: u32, serverBacklog: nat)
    requires Verified(clientMax, clientBacklog, serverMax, serverBacklog)
    ensures var w := NewWorld(clientMax, clientBacklog, serverMax, serverBacklog);
            var v := Claimed(clientMax, clientBacklog, serverMax, serverBacklog);
            && WorldRuns(w, CLAIM) && WorldAfter(w, CLAIM) == v
            && Solo(v) && LinkOf(v, ID) == Start(clientMax, serverMax)
  {
    var w := NewWorld(clientMax, clientBacklog, serverMax, serverBacklog);
    NewWorldInv(clientMax, clientBacklog, serverMax, serverBacklog);
    var u := WorldStepped(w, CLAIM[0]);
    WorldStepKeepsInv(w, CLAIM[0]);
    var v := WorldStepped(u, CLAIM[1]);
    WorldStepKeepsInv(u, CLAIM[1]);
    assert v.me.loads == map[];
    assert CLAIM[1..] == [CLAIM[1]] && CLAIM[1..][1..] == [];
  }

  lemma {:induction false} WorldRunsJoin(w: World, first: seq<WorldStep>, second: seq<WorldStep>)
    requires WorldRuns(w, first) && WorldRuns(WorldAfter(w, first), second)
    ensures WorldRuns(w, first + second) && WorldAfter(w, first + second) == WorldAfter(WorldAfter(w, first), second)
    decreases |first|
  {
    if first == [] {
      assert first + second == second;
    } else {
      WorldRunsJoin(WorldStepped(w, first[0]), first[1..], second);
      WorldThen(w, first[0], first[1..] + second);
      assert first + second == [first[0]] + (first[1..] + second);
    }
  }

  /** Links do not allow more than sessions do: two new sessions with verified configurations can run any
      run of a link in which streams are admitted, on their first stream. */
  lemma EveryLinkRunIsRealized(
      clientMax: u32, clientBacklog: nat, serverMax: u32, serverBacklog: nat, steps: seq<Step>)
    requires Verified(clientMax, clientBacklog, serverMax, serverBacklog)
    requires Runs(Start(clientMax, serverMax), steps) && Admitting(steps)
    ensures var w := NewWorld(clientMax, clientBacklog, serverMax, serverBacklog);
            var all := CLAIM + LiftedRun(steps);
            WorldRuns(w, all) && LinkOf(WorldAfter(w, all), ID) == After(Start(clientMax, serverMax), steps)
  {
    ClaimRuns(clientMax, clientBacklog, serverMax, serverBacklog);
    var v := Claimed(clientMax, clientBacklog, serverMax, serverBacklog);
    LiftRuns(v, Start(clientMax, serverMax), steps, After(Start(clientMax, serverMax), steps));
    WorldRunsJoin(NewWorld(clientMax, clientBacklog, serverMax, serverBacklog), CLAIM, LiftedRun(steps));
  }

  /** Two honest sessions, under any configurations that pass verification, the default ones included, can
      end in the receive window check. */
  lemma SessionsCanFailTheWindowCheck(clientMax: u32, clientBacklog: nat, serverMax: u32, serverBacklog: nat)
    requires Verified(clientMax, clientBacklog, serverMax, serverBacklog)
    ensures var w := NewWorld(clientMax, clientBacklog, serverMax, serverBacklog);
            exists steps :: WorldRuns(w, steps) && WorldAfter(w, steps).error == Some(RecvWindowExceeded)
  {
    TheGapIsReal(clientMax, serverMax);
    var steps :| && Runs(Start(clientMax, serverMax), steps) && Admitting(steps)
                 && After(Start(clientMax, serverMax), steps).error == Some(RecvWindowExceeded);
    EveryLinkRunIsRealized(clientMax, clientBacklog, serverMax, serverBacklog, steps);
    var w, all := NewWorld(clientMax, clientBacklog, serverMax, serverBacklog), CLAIM + LiftedRun(steps);
    assert WorldRuns(w, all) && LinkOf(WorldAfter(w, all), ID).error == WorldAfter(w, all).error;
  }
}
