/** Ping: matching replies to the calls that wait for them, with 32-bit ids that are used again. */
module YamuxPing {
  import opened YamuxTypes

  /** One session's pings, the peer's echo, and the ping frames on the two wires.  A call is known by its
      serial number; the id it uses on the wire is the serial modulo 2^32. */
  datatype Pings = Pings(
    pingID: u32,
    pings: map<u32, nat>,       // which call waits under which id
    starting: set<nat>,         // calls that are registered and have not sent their request yet
    requests: seq<u32>,         // on the wire to the peer
    replies: seq<u32>,          // on the wire back
    // history
    serial: nat,                // calls so far
    sent: seq<nat>,             // calls in the order of their requests
    closed: seq<nat>            // calls whose channel has been closed, in that order
  )

  datatype PingMove = StartPing | SendPing(call: nat) | Echo | TakeReply

  const NO_PINGS := Pings(0, map[], {}, [], [], 0, [], [])

  function IdOf(call: nat): u32 {
    call % U32
  }

  predicate CanPing(p: Pings, m: PingMove) {
    match m
    case StartPing => true
    case SendPing(call) => call in p.starting
    case Echo => p.requests != []
    case TakeReply => p.replies != []
  }

  function DoPing(p: Pings, m: PingMove): Pings
    requires CanPing(p, m)
  {
    match m
    case StartPing =>
      p.(pingID := Add32(p.pingID, 1), pings := p.pings[p.pingID := p.serial],
         starting := p.starting + {p.serial}, serial := p.serial + 1)
    case SendPing(call) =>
      p.(starting := p.starting - {call}, requests := p.requests + [IdOf(call)], sent := p.sent + [call])
    case Echo => p.(requests := p.requests[1..], replies := p.replies + [p.requests[0]])
    case TakeReply =>
      var id := p.replies[0];
      var q := p.(replies := p.replies[1..]);
      if id in p.pings then q.(pings := p.pings - {id}, closed := p.closed + [p.pings[id]]) else q
  }

  function Ids(calls: seq<nat>): (ids: seq<u32>)
    ensures |ids| == |calls| && forall i :: 0 <= i < |ids| ==> ids[i] == IdOf(calls[i])
  {
    seq(|calls|, i requires 0 <= i < |calls| => IdOf(calls[i]))
  }

  /** The calls whose request is on the wire, or whose reply is still to come or to be taken. */
  function Unanswered(p: Pings): seq<nat> {
    if |p.closed| <= |p.sent| then p.sent[|p.closed|..] else []
  }

  predicate Outstanding(p: Pings, call: nat) {
    call in p.starting || call in Unanswered(p)
  }

  /** Requests and replies travel in order, so each reply answers the oldest call without one. */
  ghost predicate OrderOk(p: Pings) {
    && p.pingID == IdOf(p.serial)
    && p.closed <= p.sent
    && p.replies + p.requests == Ids(Unanswered(p))
    && (forall i, j :: 0 <= i < j < |p.sent| ==> p.sent[i] != p.sent[j])
    && (forall c :: c in p.sent ==> c !in p.starting && c < p.serial)
    && (forall c :: c in p.starting ==> c < p.serial)
  }

  /** The pending table holds the outstanding calls, each under its own id, and nothing else. */
  ghost predicate TableOk(p: Pings) {
    && (forall id :: id in p.pings ==> Outstanding(p, p.pings[id]) && IdOf(p.pings[id]) == id)
    && (forall c :: Outstanding(p, c) ==> IdOf(c) in p.pings && p.pings[IdOf(c)] == c)
  }

  ghost predicate PingInv(p: Pings) {
    OrderOk(p) && TableOk(p)
  }

  lemma SendPingKeepsInv(p: Pings, call: nat)
    requires PingInv(p) && call in p.starting
    ensures PingInv(DoPing(p, SendPing(call)))
  {
    var q := DoPing(p, SendPing(call));
    assert Unanswered(q) == Unanswered(p) + [call];
    assert Ids(Unanswered(q)) == Ids(Unanswered(p)) + [IdOf(call)];
    assert q.replies + q.requests == (p.replies + p.requests) + [IdOf(call)];
    forall c ensures Outstanding(q, c) <==> Outstanding(p, c) {
      assert c in Unanswered(q) <==> c in Unanswered(p) || c == call;
    }
  }

  lemma Shift(a: seq<u32>, b: seq<u32>)
    requires b != []
    ensures (a + [b[0]]) + b[1..] == a + b
  {
  }

  lemma EchoKeepsInv(p: Pings)
    requires PingInv(p) && p.requests != []
    ensures PingInv(DoPing(p, Echo))
  {
    var q := DoPing(p, Echo);
    assert OrderOk(q) by {
      Shift(p.replies, p.requests);
      assert Unanswered(q) == Unanswered(p);
    }
    assert TableOk(q) by {
      assert forall c :: Outstanding(q, c) <==> Outstanding(p, c);
    }
  }

  /** The oldest unanswered call is the one the next reply closes. */
  lemma ReplyClosesOldest(p: Pings)
    requires PingInv(p) && p.replies != []
    ensures Unanswered(p) != []
    ensures var call := Unanswered(p)[0];
            && p.replies[0] == IdOf(call)
            && DoPing(p, TakeReply) ==
                 p.(replies := p.replies[1..], pings := p.pings - {IdOf(call)}, closed := p.closed + [call])
  {
    assert (p.replies + p.requests)[0] == p.replies[0];
    assert Outstanding(p, Unanswered(p)[0]);
  }

  lemma DropFirst(a: seq<u32>, b: seq<u32>, calls: seq<nat>)
    requires a != [] && calls != [] && a + b == Ids(calls)
    ensures a[1..] + b == Ids(calls[1..])
  {
    assert a[1..] + b == (a + b)[1..];
    assert Ids(calls)[1..] == Ids(calls[1..]);
  }

  lemma PrefixGrows(closed: seq<nat>, sent: seq<nat>)
    requires closed <= sent && |closed| < |sent|
    ensures closed + [sent[|closed|]] <= sent
  {
  }

  lemma TakeReplyKeepsOrder(p: Pings)
    requires PingInv(p) && p.replies != []
    ensures OrderOk(DoPing(p, TakeReply))
    ensures Unanswered(DoPing(p, TakeReply)) == Unanswered(p)[1..]
  {
    ReplyClosesOldest(p);
    var q := DoPing(p, TakeReply);
    PrefixGrows(p.closed, p.sent);
    assert Unanswered(q) == Unanswered(p)[1..];
    DropFirst(p.replies, p.requests, Unanswered(p));
  }

  lemma TakeReplyKeepsInv(p: Pings)
    requires PingInv(p) && p.replies != []
    ensures PingInv(DoPing(p, TakeReply))
  {
    TakeReplyKeepsOrder(p);
    TakeReplyRemovesOldest(p);
    ReplyClosesOldest(p);
    var q := DoPing(p, TakeReply);
    var oldest := Unanswered(p)[0];
    assert TableOk(q) by {
      forall id | id in q.pings ensures Outstanding(q, q.pings[id]) && IdOf(q.pings[id]) == id {
        assert Outstanding(p, p.pings[id]) && id != IdOf(oldest);
      }
      forall c | Outstanding(q, c) ensures IdOf(c) in q.pings && q.pings[IdOf(c)] == c {
        assert Outstanding(p, c) && Outstanding(p, oldest) && c != oldest;
      }
    }
  }

  lemma TakeReplyRemovesOldest(p: Pings)
    requires PingInv(p) && p.replies != []
    ensures Unanswered(p) != []
    ensures forall c :: Outstanding(DoPing(p, TakeReply), c) <==> Outstanding(p, c) && c != Unanswered(p)[0]
  {
    ReplyClosesOldest(p);
    TakeReplyKeepsOrder(p);
    var rest := Unanswered(p);
    assert forall c :: c in rest <==> c == rest[0] || c in rest[1..];
    assert rest[0] in p.sent;
    forall i | 0 < i < |rest| ensures rest[i] != rest[0] {
      assert rest[i] == p.sent[|p.closed| + i] && rest[0] == p.sent[|p.closed|];
    }
  }

  lemma NextId(n: nat)
    ensures IdOf(n + 1) == Add32(IdOf(n), 1)
  {
  }

  lemma StartPingAddsCall(p: Pings, c: nat)
    ensures Outstanding(DoPing(p, StartPing), c) <==> Outstanding(p, c) || c == p.serial
  {
  }

  lemma FreshIdKeepsInv(p: Pings)
    requires PingInv(p) && p.pingID !in p.pings
    ensures PingInv(DoPing(p, StartPing))
  {
    var q := DoPing(p, StartPing);
    NextId(p.serial);
    forall c ensures Outstanding(q, c) <==> Outstanding(p, c) || c == p.serial {
      StartPingAddsCall(p, c);
    }
  }

  /** A new call keeps the matching exactly when no outstanding call still uses its id. */
  lemma StartPingKeepsInvIff(p: Pings)
    requires PingInv(p)
    ensures PingInv(DoPing(p, StartPing)) <==> p.pingID !in p.pings
  {
    if p.pingID in p.pings {
      var earlier := p.pings[p.pingID];
      StartPingAddsCall(p, earlier);
      assert DoPing(p, StartPing).pings[IdOf(earlier)] == p.serial != earlier;
    } else {
      FreshIdKeepsInv(p);
    }
  }

  lemma NearbyIdsDiffer(c: nat, n: nat)
    requires c < n && n - c < U32
    ensures IdOf(c) != IdOf(n)
  {
  }

  /** In particular when every outstanding call is one of the last 2^32 - 1. */
  lemma RecentCallsDoNotCollide(p: Pings)
    requires PingInv(p)
    requires forall c :: Outstanding(p, c) ==> p.serial - c < U32
    ensures p.pingID !in p.pings
  {
    if p.pingID in p.pings {
      var c := p.pings[p.pingID];
      assert Outstanding(p, c);
      NearbyIdsDiffer(c, p.serial);
    }
  }

  lemma PingMoveKeepsInv(p: Pings, m: PingMove)
    requires PingInv(p) && CanPing(p, m) && (m.StartPing? ==> p.pingID !in p.pings)
    ensures PingInv(DoPing(p, m))
  {
    match m
    case StartPing => StartPingKeepsInvIff(p);
    case SendPing(call) => SendPingKeepsInv(p, call);
    case Echo => EchoKeepsInv(p);
    case TakeReply => TakeReplyKeepsInv(p);
  }

  // ---- all runs ----

  /** A run in which no call takes an id that is still in use. */
  predicate PingRuns(p: Pings, moves: seq<PingMove>)
    decreases |moves|
  {
    moves == [] ||
    (&& CanPing(p, moves[0]) && (moves[0].StartPing? ==> p.pingID !in p.pings)
     && PingRuns(DoPing(p, moves[0]), moves[1..]))
  }

  function AfterPings(p: Pings, moves: seq<PingMove>): Pings
    requires PingRuns(p, moves)
    decreases |moves|
  {
    if moves == [] then p else AfterPings(DoPing(p, moves[0]), moves[1..])
  }

  lemma {:induction false} PingRunsKeepInv(p: Pings, moves: seq<PingMove>)
    requires PingInv(p) && PingRuns(p, moves)
    ensures PingInv(AfterPings(p, moves))
    decreases |moves|
  {
    if moves != [] {
      PingMoveKeepsInv(p, moves[0]);
      PingRunsKeepInv(DoPing(p, moves[0]), moves[1..]);
    }
  }

  /** What a session can rely on: its calls succeed in the order of their requests, each once, and only
      after as many echoes; and its table holds the outstanding calls, each under its own id. */
  ghost predicate Matched(p: Pings) {
    && p.closed <= p.sent
    && (forall i, j :: 0 <= i < j < |p.closed| ==> p.closed[i] != p.closed[j])
    && |p.closed| + |p.replies| + |p.requests| == |p.sent|
    && (forall id :: id in p.pings ==> Outstanding(p, p.pings[id]) && IdOf(p.pings[id]) == id)
    && (forall c :: Outstanding(p, c) ==> IdOf(c) in p.pings && p.pings[IdOf(c)] == c)
  }

  lemma InvIsMatched(p: Pings)
    requires PingInv(p)
    ensures Matched(p)
  {
  }

  /** In every run without collisions: the k-th channel closed is that of the k-th request. */
  lemma PingsAreMatched(moves: seq<PingMove>)
    requires PingRuns(NO_PINGS, moves)
    ensures Matched(AfterPings(NO_PINGS, moves))
  {
    PingRunsKeepInv(NO_PINGS, moves);
    InvIsMatched(AfterPings(NO_PINGS, moves));
  }

  // ---- losing a call ----

  /** A call that the table has forgotten is never answered: its Ping waits until the session ends. */
  lemma ForgottenCallsStayForgotten(p: Pings, m: PingMove, call: nat)
    requires CanPing(p, m) && call < p.serial && call !in p.pings.Values && call !in p.closed
    ensures var q := DoPing(p, m); call < q.serial && call !in q.pings.Values && call !in q.closed
  {
  }

  /** A call that takes an id in use forgets the call that used it. */
  lemma CollisionForgets(p: Pings)
    requires PingInv(p) && p.pingID in p.pings
    ensures var earlier := p.pings[p.pingID];
            && Outstanding(DoPing(p, StartPing), earlier)
            && earlier !in DoPing(p, StartPing).pings.Values && earlier !in DoPing(p, StartPing).closed
  {
    var earlier := p.pings[p.pingID];
    var q := DoPing(p, StartPing);
    assert forall c :: Outstanding(q, c) <==> Outstanding(p, c) || c == p.serial;
    assert Outstanding(p, earlier) && earlier < p.serial;
  }

  /** Call 0 has not sent its request yet, and the `n` calls after it have all been answered. */
  function Delayed(n: nat): Pings {
    var later := seq(n, i requires 0 <= i < n => i + 1);
    Pings(IdOf(n + 1), map[0 := 0], {0}, [], [], n + 1, later, later)
  }

  lemma PingThen(p: Pings, m: PingMove, rest: seq<PingMove>)
    requires CanPing(p, m) && (m.StartPing? ==> p.pingID !in p.pings) && PingRuns(DoPing(p, m), rest)
    ensures PingRuns(p, [m] + rest) && AfterPings(p, [m] + rest) == AfterPings(DoPing(p, m), rest)
  {
    assert ([m] + rest)[1..] == rest;
  }

  function Round(call: nat): seq<PingMove> {
    [StartPing] + ([SendPing(call)] + ([Echo] + ([TakeReply] + [])))
  }

  lemma OneRound(n: nat)
    requires n + 1 < U32
    ensures PingRuns(Delayed(n), Round(n + 1)) && AfterPings(Delayed(n), Round(n + 1)) == Delayed(n + 1)
  {
    var call := n + 1;
    assert IdOf(call) == call;
    var p := Delayed(n);
    var a := DoPing(p, StartPing);
    assert a.pings == map[0 := 0, call := call];
    var b := DoPing(a, SendPing(call));
    assert b.starting == {0} && b.requests == [call];
    var c := DoPing(b, Echo);
    assert c.requests == [] && c.replies == [call];
    var d := DoPing(c, TakeReply);
    assert d.pings == map[0 := 0] && d.replies == [];
    assert d == Delayed(n + 1);
    PingThen(c, TakeReply, []);
    PingThen(b, Echo, [TakeReply] + []);
    PingThen(a, SendPing(call), [Echo] + ([TakeReply] + []));
    PingThen(p, StartPing, [SendPing(call)] + ([Echo] + ([TakeReply] + [])));
  }

  lemma {:induction false} PingRunsJoin(p: Pings, first: seq<PingMove>, second: seq<PingMove>)
    requires PingRuns(p, first) && PingRuns(AfterPings(p, first), second)
    ensures PingRuns(p, first + second)
    ensures AfterPings(p, first + second) == AfterPings(AfterPings(p, first), second)
    decreases |first|
  {
    if first == [] {
      assert first + second == second;
    } else {
      PingRunsJoin(DoPing(p, first[0]), first[1..], second);
      assert (first + second)[1..] == first[1..] + second;
    }
  }

  lemma {:induction false} DelayedIsReached(n: nat)
    requires n < U32
    ensures exists moves :: PingRuns(NO_PINGS, moves) && AfterPings(NO_PINGS, moves) == Delayed(n)
  {
    if n == 0 {
      assert [StartPing][1..] == [];
      assert AfterPings(NO_PINGS, [StartPing]) == Delayed(0);
    } else {
      DelayedIsReached(n - 1);
      var moves :| PingRuns(NO_PINGS, moves) && AfterPings(NO_PINGS, moves) == Delayed(n - 1);
      OneRound(n - 1);
      PingRunsJoin(NO_PINGS, moves, Round(n));
    }
  }

  /** Keeping few pings outstanding is not enough: one call that is slow to send, and 2^32 - 1 answered
      calls after it, bring its id round again while it is the only one outstanding. */
  lemma CollisionIsReached()
    ensures exists moves ::
              && PingRuns(NO_PINGS, moves)
              && AfterPings(NO_PINGS, moves).pingID in AfterPings(NO_PINGS, moves).pings
              && forall c :: Outstanding(AfterPings(NO_PINGS, moves), c) ==> c == 0
  {
    DelayedIsReached(U32 - 1);
    var moves :| PingRuns(NO_PINGS, moves) && AfterPings(NO_PINGS, moves) == Delayed(U32 - 1);
    assert Delayed(U32 - 1).pingID == 0;
    assert Unanswered(Delayed(U32 - 1)) == [];
  }
}
