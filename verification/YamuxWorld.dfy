/** What holds after every run of two honest sessions over one connection. */
module YamuxWorld {
  import opened Options
  import opened YamuxTypes
  import opened YamuxEnd
  import opened YamuxLink
  import opened YamuxKept
  import opened YamuxRuns
  import opened YamuxSession
  import opened YamuxMux

  // ---- all runs ----

  lemma FacingInv(w: World, client: bool)
    requires WorldInv(w)
    ensures WorldInv(Facing(w, client))
  {
    if !client {
      TurnKeepsInv(w);
    }
  }

  lemma WorldStepKeepsInv(w: World, s: WorldStep)
    requires WorldInv(w) && WorldCan(Facing(w, s.byClient), s.move) && WorldStepped(w, s).error.None?
    ensures WorldInv(WorldStepped(w, s))
  {
    FacingInv(w, s.byClient);
    var v := WorldDo(Facing(w, s.byClient), s.move);
    StepKeepsWorld(Facing(w, s.byClient), s.move);
    FacingInv(v, s.byClient);
  }

  lemma {:induction false} WorldRunsKeepInv(w: World, steps: seq<WorldStep>)
    requires WorldInv(w) && WorldRuns(w, steps)
    ensures WorldAfter(w, steps).error.None? ==> WorldInv(WorldAfter(w, steps))
    decreases |steps|
  {
    if steps != [] {
      var v := WorldStepped(w, steps[0]);
      if v.error.None? {
        WorldStepKeepsInv(w, steps[0]);
        WorldRunsKeepInv(v, steps[1..]);
      } else {
        assert steps[1..] == [];
      }
    }
  }

  predicate Verified(clientMax: u32, clientBacklog: nat, serverMax: u32, serverBacklog: nat) {
    && INITIAL_STREAM_WINDOW <= clientMax && INITIAL_STREAM_WINDOW <= serverMax
    && clientBacklog > 0 && serverBacklog > 0
  }

  lemma NewWorldInv(clientMax: u32, clientBacklog: nat, serverMax: u32, serverBacklog: nat)
    requires Verified(clientMax, clientBacklog, serverMax, serverBacklog)
    ensures WorldInv(NewWorld(clientMax, clientBacklog, serverMax, serverBacklog))
  {
    var w := NewWorld(clientMax, clientBacklog, serverMax, serverBacklog);
    forall id: u32 ensures StreamOk(w, id) {
      NewView(clientMax, clientBacklog, serverMax, serverBacklog, id);
      StartInv(OpenerMax(w, id), AcceptorMax(w, id));
    }
  }

  function OpenerMax(w: World, id: u32): u32 {
    if RoleOf(w.me.client, id).Opener? then w.me.max else w.peer.max
  }

  function AcceptorMax(w: World, id: u32): u32 {
    if RoleOf(w.me.client, id).Opener? then w.peer.max else w.me.max
  }

  lemma NewView(clientMax: u32, clientBacklog: nat, serverMax: u32, serverBacklog: nat, id: u32)
    ensures var w := NewWorld(clientMax, clientBacklog, serverMax, serverBacklog);
            StreamView(w, id) == Start(OpenerMax(w, id), AcceptorMax(w, id))
  {
  }

  // ---- each stream on its own ----

  /** The steps that a run of the world takes on stream `id`. */
  ghost function StepsOf(w: World, steps: seq<WorldStep>, id: u32): seq<Step>
    requires WorldRuns(w, steps)
    decreases |steps|
  {
    if steps == [] then [] else
    var s := StepOf(Facing(w, steps[0].byClient), steps[0].move, id);
    (if s.Some? then [s.value] else []) + StepsOf(WorldStepped(w, steps[0]), steps[1..], id)
  }

  lemma FacingView(w: World, client: bool, id: u32)
    requires w.me.client != w.peer.client
    ensures StreamView(Facing(w, client), id) == StreamView(w, id)
  {
  }

  lemma FacedLeads(f: World, v: World, client: bool, s: Option<Step>, id: u32)
    requires f.me.client != f.peer.client && v.me.client != v.peer.client
    requires Leads(StreamView(f, id), s, StreamView(v, id))
    ensures Leads(StreamView(Facing(f, client), id), s, StreamView(Facing(v, client), id))
  {
    FacingView(f, client, id);
    FacingView(v, client, id);
  }

  lemma SteppedView(w: World, s: WorldStep, id: u32)
    requires w.me.client != w.peer.client && IdsOk(Facing(w, s.byClient).me) && BusyOk(Facing(w, s.byClient).me)
    requires WorldCan(Facing(w, s.byClient), s.move) && WorldStepped(w, s).error.None?
    ensures Leads(StreamView(w, id), StepOf(Facing(w, s.byClient), s.move, id), StreamView(WorldStepped(w, s), id))
  {
    var f := Facing(w, s.byClient);
    ViewSimulates(f, s.move, id);
    ClientsKept(f, s.move);
    FacedLeads(f, WorldDo(f, s.move), s.byClient, StepOf(f, s.move, id), id);
    assert Facing(f, s.byClient) == w;
  }

  lemma StepThen(l: Link, s: Option<Step>, k: Link, rest: seq<Step>)
    requires Leads(l, s, k)
    requires Runs(k, rest)
    ensures var steps := (if s.Some? then [s.value] else []) + rest;
            Runs(l, steps) && After(l, steps) == After(k, rest)
  {
    if s.Some? {
      assert ([s.value] + rest)[1..] == rest;
    } else {
      assert [] + rest == rest;
    }
  }

  lemma NoErrorOnTheWay(w: World, steps: seq<WorldStep>)
    requires WorldRuns(w, steps) && WorldAfter(w, steps).error.None? && steps != []
    ensures WorldStepped(w, steps[0]).error.None?
  {
    if WorldStepped(w, steps[0]).error.Some? {
      assert steps[1..] == [];
    }
  }

  /** Whatever the other streams, pings and go-aways do, the world's run is on each stream a run of that
      stream's link alone; so all that holds of links holds of every multiplexed stream. */
  lemma {:induction false} StreamsAreLinks(w: World, steps: seq<WorldStep>, id: u32)
    requires WorldInv(w) && WorldRuns(w, steps) && WorldAfter(w, steps).error.None?
    ensures var ss := StepsOf(w, steps, id);
            Runs(StreamView(w, id), ss) && After(StreamView(w, id), ss) == StreamView(WorldAfter(w, steps), id)
    decreases |steps|
  {
    if steps != [] {
      NoErrorOnTheWay(w, steps);
      WorldStepKeepsInv(w, steps[0]);
      FacingInv(w, steps[0].byClient);
      SteppedView(w, steps[0], id);
      var v := WorldStepped(w, steps[0]);
      StreamsAreLinks(v, steps[1..], id);
      StepThen(StreamView(w, id), StepOf(Facing(w, steps[0].byClient), steps[0].move, id), StreamView(v, id),
               StepsOf(v, steps[1..], id));
    }
  }

  /** A state that some run of two sessions with verified configurations reaches without an error. */
  ghost predicate WorldReachable(w: World) {
    && w.error.None?
    && exists clientMax: u32, clientBacklog: nat, serverMax: u32, serverBacklog: nat, steps ::
         && Verified(clientMax, clientBacklog, serverMax, serverBacklog)
         && WorldRuns(NewWorld(clientMax, clientBacklog, serverMax, serverBacklog), steps)
         && WorldAfter(NewWorld(clientMax, clientBacklog, serverMax, serverBacklog), steps) == w
  }

  lemma WorldReachableInv(w: World)
    requires WorldReachable(w)
    ensures WorldInv(w)
  {
    var clientMax: u32, clientBacklog: nat, serverMax: u32, serverBacklog: nat, steps :|
         && Verified(clientMax, clientBacklog, serverMax, serverBacklog)
         && WorldRuns(NewWorld(clientMax, clientBacklog, serverMax, serverBacklog), steps)
         && WorldAfter(NewWorld(clientMax, clientBacklog, serverMax, serverBacklog), steps) == w;
    NewWorldInv(clientMax, clientBacklog, serverMax, serverBacklog);
    WorldRunsKeepInv(NewWorld(clientMax, clientBacklog, serverMax, serverBacklog), steps);
  }

  lemma EveryStreamIsReachable(w: World, id: u32)
    requires WorldReachable(w)
    ensures Reachable(StreamView(w, id))
  {
    var clientMax: u32, clientBacklog: nat, serverMax: u32, serverBacklog: nat, steps :|
         && Verified(clientMax, clientBacklog, serverMax, serverBacklog)
         && WorldRuns(NewWorld(clientMax, clientBacklog, serverMax, serverBacklog), steps)
         && WorldAfter(NewWorld(clientMax, clientBacklog, serverMax, serverBacklog), steps) == w;
    var w0 := NewWorld(clientMax, clientBacklog, serverMax, serverBacklog);
    NewWorldInv(clientMax, clientBacklog, serverMax, serverBacklog);
    NewView(clientMax, clientBacklog, serverMax, serverBacklog, id);
    StreamsAreLinks(w0, steps, id);
    assert ReachedFrom(OpenerMax(w0, id), AcceptorMax(w0, id), StreamView(w, id));
  }

  // ---- what that says of the sessions ----

  /** Bytes read from a stream are a prefix of the bytes written to it at the other side, however many
      streams share the connection. */
  lemma MultiplexedDelivery(w: World, id: u32)
    requires WorldReachable(w)
    ensures EndOf(w.peer, id).read <= EndOf(w.me, id).sent
    ensures EndOf(w.me, id).read <= EndOf(w.peer, id).sent
  {
    EveryStreamIsReachable(w, id);
    InOrderDelivery(StreamView(w, id), Opener);
    InOrderDelivery(StreamView(w, id), Acceptor);
  }

  /** With the wires empty and no call part-way, a stream is in both session tables or in neither. */
  lemma TablesAgree(w: World, id: u32)
    requires WorldReachable(w) && w.outgoing == [] && w.incoming == []
    requires Idles(EndOf(w.me, id)) && Idles(EndOf(w.peer, id))
    ensures EndOf(w.me, id).phase.Live? <==> EndOf(w.peer, id).phase.Live?
  {
    EveryStreamIsReachable(w, id);
    CloseAgreement(StreamView(w, id));
  }

  /** An id won by compare-and-swap is new, belongs to this side, and the counter does not wrap. */
  lemma ClaimedIdsAreNew(w: World, routine: nat)
    requires WorldReachable(w) && WorldCan(w, ClaimId(routine)) && w.me.loads[routine] == w.me.nextStreamID
    ensures var id := w.me.nextStreamID;
            && id !in w.me.claimed && id !in w.me.streams
            && EndOf(w.peer, id).phase.Fresh?
            && RoleOf(w.me.client, id).Opener?
            && WorldDo(w, ClaimId(routine)).me.nextStreamID == id + 2
  {
    WorldReachableInv(w);
    var id := w.me.nextStreamID;
    NextIdOk(w.me.client, id);
    assert StreamOk(w, id);
  }

  /** The accept queue stays within the backlog and its head can always be accepted. */
  lemma AcceptIsNeverStuck(w: World)
    requires WorldReachable(w) && w.me.acceptQ != []
    ensures WorldCan(w, AcceptNext) && |w.me.acceptQ| <= w.me.backlog
  {
    WorldReachableInv(w);
    assert Waiting(EndOf(w.me, w.me.acceptQ[0]));
  }

  /** Apart from the window check, an honest peer cannot make a session fail. */
  lemma SessionsFailOnlyTheWindowCheck(w: World, m: WorldMove)
    requires WorldReachable(w) && WorldCan(w, m) && WorldDo(w, m).error.Some?
    ensures m.FinishNext? && WorldDo(w, m).error == Some(RecvWindowExceeded)
    ensures Overruns(EndOf(w.me, w.me.busy.value))
  {
    WorldReachableInv(w);
    WorldErrs(w, m);
  }

  lemma WorldErrs(w: World, m: WorldMove)
    requires WorldInv(w) && WorldCan(w, m) && WorldDo(w, m).error.Some?
    ensures m.FinishNext? && WorldDo(w, m).error == Some(RecvWindowExceeded)
    ensures Overruns(EndOf(w.me, w.me.busy.value))
  {
    match m
    case OnEnd(id, a) => LinkErrs(w, id, Local(a));
    case TakeNext =>
      var p := w.incoming[0];
      if p.OnStream? {
        ViewedEnd(w, p.id);
        LinkErrs(w, p.id, Take(AdmissionOf(w.me)));
      }
    case FinishNext => LinkErrs(w, w.me.busy.value, Finish);
    case AcceptNext => LinkErrs(w, w.me.acceptQ[0], Local(Accept));
    case _ =>
  }

  lemma LinkErrs(w: World, id: u32, m: Move)
    requires StreamsOk(w) && w.error.None? && w.me.client != w.peer.client && Can(LinkOf(w, id), m)
    ensures Result(LinkOf(w, id), m).Failed? ==>
              m.Finish? && Result(LinkOf(w, id), m).error == RecvWindowExceeded && Overruns(EndOf(w.me, id))
  {
    assert StreamOk(w, id);
    HeadsOk(StreamView(w, id));
    if Result(LinkOf(w, id), m).Failed? {
      MoveErrs(LinkOf(w, id), m);
    }
  }
}
