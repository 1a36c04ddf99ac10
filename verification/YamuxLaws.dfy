/** Laws of yamux in plain numbers and fields, none of them by the name of the function it is about. */
module YamuxLaws {
  import opened Options
  import opened Bytes
  import opened YamuxHeader
  import opened YamuxTypes
  import opened YamuxEnd
  import opened YamuxLink
  import opened YamuxInv
  import opened YamuxKept
  import opened YamuxSession
  import opened YamuxMux
  import opened YamuxWorld
  import opened YamuxWire
  import Calls = YamuxStream

  // ---- what is on the wire ----

  /** SYN, ACK, FIN and RST have the values 1, 2, 4 and 8, and combine by or. */
  lemma FlagValues(f: Flags)
    ensures FlagBits(SYN) == 1 && FlagBits(ACK) == 2 && FlagBits(FIN) == 4 && FlagBits(RST) == 8
    ensures FlagBits(f) ==
              (if f.syn then 1 else 0) + (if f.ack then 2 else 0) + (if f.fin then 4 else 0) + (if f.rst then 8 else 0)
  {
  }

  /** The header of each kind of packet: version 0, types 0 to 3, and the flags that go with them. */
  lemma HeaderFields(p: Packet)
    ensures HeaderOf(p).version == 0
    ensures p.OnStream? ==>
              && HeaderOf(p).streamId == p.id && HeaderOf(p).flags == FlagBits(p.frame.flags)
              && HeaderOf(p).msgType == (if p.frame.Data? then 0 else 1)
              && HeaderOf(p).length == if p.frame.Data? then |p.frame.payload| else p.frame.delta
    ensures p.PingPacket? ==> HeaderOf(p) == Header(0, 2, if p.ack then 2 else 1, 0, p.pingId)
    ensures p.GoAwayPacket? ==> HeaderOf(p) == Header(0, 3, 0, 0, p.code)
  {
  }

  /** All bytes of a packet on a stream. */
  lemma PacketBytes(id: u32, frame: Frame)
    ensures var s := EncodePacket(OnStream(id, frame));
            && |s| >= 12 && s[0] == 0 && s[1] == (if frame.Data? then 0 else 1) && s[2] == 0
            && s[3] == FlagBits(frame.flags) && Join4(s[4], s[5], s[6], s[7]) == id
            && Join4(s[8], s[9], s[10], s[11]) == (if frame.Data? then |frame.payload| else frame.delta)
            && s[12..] == if frame.Data? then frame.payload else []
  {
    var h, s := HeaderOf(OnStream(id, frame)), EncodePacket(OnStream(id, frame));
    HeaderLayout(h);
    assert s[..12] == Encode(h) && s[12..] == BodyOf(OnStream(id, frame));
    SmallFlags(h.flags, s[2], s[3]);
  }

  lemma SmallFlags(n: nat, high: byte, low: byte)
    requires n < 16 && Join2(high, low) == n
    ensures high == 0 && low == n
  {
  }

  /** recv stops at a header of another version or of an unknown type. */
  lemma BadHeadersEndIt(s: seq<byte>)
    requires |s| >= 12
    ensures s[0] != 0 ==> ParseAll(s) == Parsed([], BadVersion)
    ensures s[0] == 0 && s[1] > 3 ==> ParseAll(s) == Parsed([], BadType)
    ensures s[0] == 0 && s[1] <= 3 ==> ParseAll(s).frames != []
  {
    FirstFields(s[..HEADER_SIZE]);
  }

  lemma FirstFields(s: seq<byte>)
    requires |s| == HEADER_SIZE
    ensures Decode(s).version == s[0] && Decode(s).msgType == s[1]
  {
  }

  // ---- a new stream ----

  /** Before any update has come in, a new stream may send 256 KB. */
  lemma NewStreamMaySend(role: Role, max: u32, b: seq<byte>)
    requires |b| < 0x1_0000_0000
    ensures var e := FreshEnd(role, max).(phase := Live, handed := true, state := Established);
            var w := Calls.WriteRun(e, b, []);
            && w.total == (if |b| <= 262144 then |b| else 262144)
            && w.result == (if |b| <= 262144 then Calls.WriteResult.Done else Calls.TimedOut)
  {
    var e := FreshEnd(role, max).(phase := Live, handed := true, state := Established);
    FirstWrite(e, b, Calls.WriteRun(e, b, []));
  }

  lemma FirstWrite(e: End, b: seq<byte>, w: Calls.Written)
    requires e.handed && e.writer.Idle? && e.state.Established? && e.sendWindow == INITIAL_STREAM_WINDOW
    requires w == Calls.WriteRun(e, b, []) && |b| < 0x1_0000_0000
    ensures w.total == (if |b| <= 262144 then |b| else 262144)
    ensures w.result == (if |b| <= 262144 then Calls.WriteResult.Done else Calls.TimedOut)
  {
    Calls.RunSends(e, b, [], w);
  }

  // ---- window updates over whole runs ----

  /** Every update that was sent for its own sake grants at least half of the window. */
  predicate GrantsAreLarge(q: seq<Frame>, max: u32) {
    forall i :: 0 <= i < |q| && q[i].WindowUpdate? && q[i].flags == NONE ==> 2 * q[i].delta >= max - max % 2
  }

  predicate BothLarge(l: Link) {
    GrantsAreLarge(l.outgoing, l.me.max) && GrantsAreLarge(l.incoming, l.peer.max)
  }

  lemma MovesAreLarge(l: Link, m: Move)
    requires Can(l, m) && Result(l, m).Moved?
    ensures GrantsAreLarge(Result(l, m).out, l.me.max) && Result(l, m).e.max == l.me.max
  {
  }

  lemma MoveKeepsLarge(l: Link, m: Move)
    requires BothLarge(l) && Can(l, m)
    ensures BothLarge(Do(l, m))
  {
    if Result(l, m).Moved? {
      MovesAreLarge(l, m);
    }
  }

  lemma {:induction false} RunsSendLargeUpdates(l: Link, steps: seq<Step>)
    requires BothLarge(l) && Runs(l, steps)
    ensures BothLarge(YamuxLink.After(l, steps))
    decreases |steps|
  {
    if steps != [] {
      RunsTail(l, steps);
      if steps[0].who.Opener? {
        MoveKeepsLarge(l, steps[0].move);
      } else {
        MoveKeepsLarge(Flip(l), steps[0].move);
      }
      RunsSendLargeUpdates(DoStep(l, steps[0]), steps[1..]);
    }
  }

  /** Whatever the two ends do, only updates that grant at least half of the window are on the wires, besides those
      that carry flags: the number of updates is bounded by the amount of data. */
  lemma UpdatesAreWorthIt(openerMax: u32, acceptorMax: u32, steps: seq<Step>)
    requires Runs(Start(openerMax, acceptorMax), steps)
    ensures BothLarge(YamuxLink.After(Start(openerMax, acceptorMax), steps))
  {
    RunsSendLargeUpdates(Start(openerMax, acceptorMax), steps);
  }

  // ---- incoming streams ----

  /** A SYN for a stream is admitted if and only if this side has not announced to go away and its accept queue has
      room; then the stream enters the table and the queue, and otherwise RST is the answer. */
  lemma SynIsAdmittedIff(w: World)
    requires WorldReachable(w) && WorldCan(w, TakeNext)
    requires w.incoming[0].OnStream? && w.incoming[0].frame.flags.syn
    ensures var id, v := w.incoming[0].id, WorldDo(w, TakeNext);
            && v.error.None? && !EndOf(w.me, id).phase.Live?
            && if !w.me.localGoAway && |w.me.acceptQ| < w.me.backlog then
                 && v.me.acceptQ == w.me.acceptQ + [id] && EndOf(v.me, id).phase.Live?
                 && v.outgoing == w.outgoing
               else
                 && v.me.acceptQ == w.me.acceptQ && EndOf(v.me, id).phase.Refused?
                 && v.outgoing == w.outgoing + [OnStream(id, WindowUpdate(RST, 0))]
  {
    WorldReachableInv(w);
    var id := w.incoming[0].id;
    ViewedEnd(w, id);
    HeadOfSyn(LinkOf(w, id));
    SynIsTaken(w, id);
  }

  lemma SynIsTaken(w: World, id: u32)
    requires WorldCan(w, TakeNext) && w.incoming[0].OnStream? && w.incoming[0].id == id
    requires w.incoming[0].frame.flags == SYN && EndOf(w.me, id).phase.Fresh?
    ensures var v := WorldDo(w, TakeNext);
            && v.error.None?
            && if !w.me.localGoAway && |w.me.acceptQ| < w.me.backlog then
                 && v.me.acceptQ == w.me.acceptQ + [id] && EndOf(v.me, id).phase.Live?
                 && v.outgoing == w.outgoing
               else
                 && v.me.acceptQ == w.me.acceptQ && EndOf(v.me, id).phase.Refused?
                 && v.outgoing == w.outgoing + [OnStream(id, WindowUpdate(RST, 0))]
  {
    assert w.outgoing + [] == w.outgoing;
  }

  lemma HeadOfSyn(l: Link)
    requires HeadOk(l) && PhaseOk(l.me) && l.me.rx == [] && l.incoming != [] && l.incoming[0].flags.syn
    ensures l.me.phase.Fresh? && l.incoming[0].flags == SYN && l.me == FreshEnd(l.me.role, l.me.max)
  {
  }

  // ---- going away ----

  /** GoAway shuts the door here at once, and a normal go-away from the peer is remembered; any other code ends the
      session. */
  lemma GoAwayIsHeeded(w: World)
    ensures w.error.None? ==> WorldDo(w, BeginGoAway).me.localGoAway
    ensures WorldCan(w, PostGoAway) ==> WorldDo(w, PostGoAway).outgoing == w.outgoing + [GoAwayPacket(0)]
    ensures WorldCan(w, TakeNext) && w.incoming[0].GoAwayPacket? ==>
              if w.incoming[0].code == 0
              then WorldDo(w, TakeNext).error.None? && WorldDo(w, TakeNext).me.remoteGoAway
              else WorldDo(w, TakeNext).error == Some(RemoteError)
  {
  }

  /** A ping is answered with an ACK of the same id, and changes nothing else. */
  lemma PingsAreAnswered(w: World)
    requires WorldCan(w, TakeNext) && w.incoming[0].PingPacket? && !w.incoming[0].ack
    ensures WorldDo(w, TakeNext) ==
            w.(incoming := w.incoming[1..], outgoing := w.outgoing + [PingPacket(true, w.incoming[0].pingId)])
  {
  }

  lemma GoAwayStays(w: World, m: WorldMove)
    requires WorldCan(w, m)
    ensures w.me.localGoAway ==> WorldDo(w, m).me.localGoAway
    ensures w.me.remoteGoAway ==> WorldDo(w, m).me.remoteGoAway
    ensures WorldDo(w, m).peer == w.peer
  {
    if m.TakeNext? {
      TakeKeepsGoAway(w.(incoming := w.incoming[1..]), w.incoming[0]);
    }
  }

  lemma TakeKeepsGoAway(w: World, p: Packet)
    ensures w.me.localGoAway ==> TakePacket(w, p).me.localGoAway
    ensures w.me.remoteGoAway ==> TakePacket(w, p).me.remoteGoAway
    ensures TakePacket(w, p).peer == w.peer
  {
  }

  /** So from the first GoAway of a side on, it refuses every stream, whatever happens. */
  lemma {:induction false} GoAwayIsForGood(w: World, steps: seq<WorldStep>, client: bool)
    requires WorldRuns(w, steps) && Facing(w, client).me.localGoAway
    ensures Facing(WorldAfter(w, steps), client).me.localGoAway
    decreases |steps|
  {
    if steps != [] {
      GoAwayStays(Facing(w, steps[0].byClient), steps[0].move);
      GoAwayIsForGood(WorldStepped(w, steps[0]), steps[1..], client);
    }
  }
}
