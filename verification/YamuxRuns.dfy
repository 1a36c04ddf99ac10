/** What holds after every run of one stream between two honest sessions. */
module YamuxRuns {
  import opened Options
  import opened YamuxTypes
  import opened YamuxEnd
  import opened YamuxLink
  import opened YamuxInv
  import opened YamuxKept

  // ---- all runs ----

  /** A state that some run reaches, without an error, from a link whose sessions have the given limits. */
  ghost predicate ReachedFrom(openerMax: u32, acceptorMax: u32, l: Link) {
    && l.error.None?
    && exists steps :: Runs(Start(openerMax, acceptorMax), steps) && After(Start(openerMax, acceptorMax), steps) == l
  }

  /** ... from a link whose sessions have verified configurations. */
  ghost predicate Reachable(l: Link) {
    exists openerMax: u32, acceptorMax: u32 ::
      && INITIAL_STREAM_WINDOW <= openerMax && INITIAL_STREAM_WINDOW <= acceptorMax
      && ReachedFrom(openerMax, acceptorMax, l)
  }

  lemma {:induction false} RunsKeepInv(l: Link, steps: seq<Step>)
    requires OpenerInv(l) && l.error.None? && Runs(l, steps)
    ensures After(l, steps).error.None? ==> OpenerInv(After(l, steps))
    ensures After(l, steps).error.Some? ==> After(l, steps).error.value == RecvWindowExceeded
    decreases |steps|
  {
    if steps != [] {
      RunsTail(l, steps);
      var k := DoStep(l, steps[0]);
      if k.error.None? {
        StepKeepsInv(l, steps[0]);
        RunsKeepInv(k, steps[1..]);
      } else {
        StepErrs(l, steps[0]);
        assert steps[1..] == [];
      }
    }
  }

  lemma StartInv(openerMax: u32, acceptorMax: u32)
    requires INITIAL_STREAM_WINDOW <= openerMax && INITIAL_STREAM_WINDOW <= acceptorMax
    ensures OpenerInv(Start(openerMax, acceptorMax))
  {
  }

  /** Duplicate streams, unexpected flags and the unhandled state of Close are out of reach: a run of
      honest ends can fail only the receive window check. */
  lemma HonestRunsFailOnlyTheWindowCheck(openerMax: u32, acceptorMax: u32, steps: seq<Step>)
    requires INITIAL_STREAM_WINDOW <= openerMax && INITIAL_STREAM_WINDOW <= acceptorMax
    requires Runs(Start(openerMax, acceptorMax), steps)
    ensures After(Start(openerMax, acceptorMax), steps).error in {None, Some(RecvWindowExceeded)}
  {
    StartInv(openerMax, acceptorMax);
    RunsKeepInv(Start(openerMax, acceptorMax), steps);
  }

  lemma ReachedInv(openerMax: u32, acceptorMax: u32, l: Link)
    requires INITIAL_STREAM_WINDOW <= openerMax && INITIAL_STREAM_WINDOW <= acceptorMax
    requires ReachedFrom(openerMax, acceptorMax, l)
    ensures OpenerInv(l)
  {
    var start := Start(openerMax, acceptorMax);
    var steps :| Runs(start, steps) && After(start, steps) == l;
    StartInv(openerMax, acceptorMax);
    RunsKeepInv(start, steps);
  }

  lemma ReachableInv(l: Link)
    requires Reachable(l)
    ensures OpenerInv(l) && l.error.None?
  {
    var openerMax: u32, acceptorMax: u32 :|
      && INITIAL_STREAM_WINDOW <= openerMax && INITIAL_STREAM_WINDOW <= acceptorMax
      && ReachedFrom(openerMax, acceptorMax, l);
    ReachedInv(openerMax, acceptorMax, l);
  }

  /** The link as one of its ends sees it. */
  function Seen(l: Link, who: Role): Link {
    if who.Opener? then l else Flip(l)
  }

  // ---- credit ----

  lemma SeenOk(l: Link, who: Role)
    requires Reachable(l)
    ensures var v := Seen(l, who);
            && WindowOk(v.me) && WindowOk(v.peer)
            && CreditOk(v.me, v.peer, v.outgoing, v.incoming)
            && DeliveryOk(v.me, v.peer, v.outgoing) && FinOk(v.me, v.peer, v.outgoing)
  {
    ReachableInv(l);
  }

  lemma CreditBalance(s: End, r: End, data: seq<Frame>, back: seq<Frame>)
    requires WindowOk(s) && WindowOk(r) && CreditOk(s, r, data, back)
    ensures r.recvWindow + Pending(r) <= r.max
    ensures 0 <= s.credit <= r.recvWindow + Pending(r)
    ensures !s.writer.Sent? ==> s.sendWindow == s.credit
    ensures s.writer.Sent? ==> AtomicSub(s.sendWindow, s.writer.n) == s.credit
  {
    if s.writer.Sent? {
      ReduceUnwraps(s.credit, s.writer.n);
    } else {
      assert s.sendWindow == s.credit % U32;
    }
  }

  /** The balance of one direction: what `r` allows is what `s` has left, what is on the wires, and what
      was dropped. */
  predicate Balanced(s: End, r: End, data: nat, deltas: nat) {
    var dropped := s.lostGrant + r.lostBytes;
    && r.recvWindow + Pending(r) <= r.max
    && data + deltas + dropped <= r.recvWindow + Pending(r)
    && s.sendWindow == (r.recvWindow + Pending(r) - data - deltas - dropped + Unreduced(s)) % U32
    && (!s.writer.Sent? ==> s.sendWindow + data + deltas + dropped == r.recvWindow + Pending(r))
    && (Attached(s) ==> s.lostGrant == 0) && (Attached(r) ==> r.lostBytes == 0)
  }

  lemma EndsBalance(s: End, r: End, data: seq<Frame>, back: seq<Frame>)
    requires WindowOk(s) && WindowOk(r) && CreditOk(s, r, data, back) && PhaseOk(s) && PhaseOk(r)
    ensures Balanced(s, r, DataBytes(data) + DataBytes(r.rx), Deltas(back) + Deltas(s.rx))
  {
    CreditBalance(s, r, data, back);
  }

  lemma RecvWindowIsExact(e: End)
    requires RecvWindowOk(e)
    ensures UpdateDelta(e.max, e.recvWindow) == e.max - e.recvWindow
    ensures e.updater.Posted? ==> Add32(e.recvWindow, e.updater.delta) == e.recvWindow + e.updater.delta <= e.max
  {
  }

  /** Whatever the two ends are in the middle of, the stored send window is what the receiver still
      allows, less what is on the wires or was dropped by an end that had left the table, plus a write
      that has been sent but not subtracted.  An end that holds the stream drops nothing. */
  lemma CreditConservation(l: Link, who: Role)
    requires Reachable(l)
    ensures BalancedLink(Seen(l, who))
  {
    ReachableInv(l);
    InvBalances(Seen(l, who));
  }

  predicate BalancedLink(v: Link) {
    Balanced(v.me, v.peer, DataBytes(v.outgoing) + DataBytes(v.peer.rx), Deltas(v.incoming) + Deltas(v.me.rx))
  }

  lemma InvBalances(v: Link)
    requires Inv(v)
    ensures BalancedLink(v)
  {
    EndsBalance(v.me, v.peer, v.outgoing, v.incoming);
  }

  /** No 32-bit operation on a window loses anything: the delta is max minus the window, adding it stays
      within the maximum, and outside a write the send window is its unbounded value. */
  lemma WindowsAreExact(l: Link, who: Role)
    requires Reachable(l)
    ensures var e := Seen(l, who).me;
            && UpdateDelta(e.max, e.recvWindow) == e.max - e.recvWindow
            && (e.updater.Posted? ==> Add32(e.recvWindow, e.updater.delta) == e.recvWindow + e.updater.delta <= e.max)
            && (!e.writer.Sent? ==> e.sendWindow == e.credit)
            && (e.writer.Sent? ==> AtomicSub(e.sendWindow, e.writer.n) == e.credit)
            && 0 <= e.credit <= Seen(l, who).peer.max
  {
    SeenOk(l, who);
    var v := Seen(l, who);
    CreditBalance(v.me, v.peer, v.outgoing, v.incoming);
    RecvWindowIsExact(v.me);
  }

  // ---- delivery ----

  /** What Read has returned is a prefix of what Write has sent, and while the receiver holds the stream
      nothing is lost, repeated or reordered on the way. */
  lemma InOrderDelivery(l: Link, who: Role)
    requires Reachable(l)
    ensures var v := Seen(l, who); var s, r := v.me, v.peer;
            && r.read + r.buf + Text(r.rx) <= s.sent
            && r.read <= s.sent
            && (Attached(r) ==> r.read + r.buf + Text(r.rx) + Text(v.outgoing) == s.sent)
  {
    ReachableInv(l);
    var v := Seen(l, who);
    var s, r := v.me, v.peer;
    assert Delivered(r) <= s.sent by {
      if Attached(r) {
        assert s.sent == Delivered(r) + Text(v.outgoing);
      }
    }
    assert r.read <= Delivered(r);
  }

  /** Where Read returns io.EOF, every byte that the peer sent before its FIN has been returned. */
  lemma EofIsComplete(l: Link, who: Role)
    requires Reachable(l)
    requires var r := Seen(l, who).peer; (r.state.RemoteClose? || r.state.Closed?) && r.buf == []
    ensures var s, r := Seen(l, who).me, Seen(l, who).peer;
            && s.finMark.Some? && s.finMark.value <= |s.sent|
            && s.sent[..s.finMark.value] <= r.read
  {
    SeenOk(l, who);
    InOrderDelivery(l, who);
  }

  // ---- closing ----

  predicate Idles(e: End) {
    e.rx == [] && e.updater.Free? && e.writer.Idle? && e.owing == 0 && !e.finDue
  }

  predicate Quiet(l: Link) {
    l.outgoing == [] && l.incoming == [] && Idles(l.me) && Idles(l.peer)
  }

  /** With nothing in flight and no call part-way, the ends agree on what is open, and on whether the
      stream is in the session tables; a stream the acceptor refused is gone at the opener. */
  lemma CloseAgreement(l: Link)
    requires Reachable(l) && Quiet(l)
    ensures Agree(l.me, l.peer)
  {
    ReachableInv(l);
    QuietAgrees(l);
  }

  predicate Agree(opener: End, acceptor: End) {
    && (opener.phase.Live? <==> acceptor.phase.Live?)
    && (acceptor.phase.Refused? <==> opener.state.Reset?)
    && (!acceptor.phase.Refused? ==>
          (opener.phase.Fresh? && acceptor.phase.Fresh?) ||
          (opener.state, acceptor.state) in {
            (SynSent, SynReceived), (Established, Established), (LocalClose, RemoteClose),
            (RemoteClose, LocalClose), (Closed, Closed) })
  }

  lemma QuietAgrees(l: Link)
    requires OpenerInv(l) && Quiet(l)
    ensures Agree(l.me, l.peer)
  {
  }

  /** Each end sends at most one FIN, and has sent just one, or is about to, when it has closed its half; and
      at most one is due, on the wire or processed. */
  lemma OneFin(l: Link, who: Role)
    requires Reachable(l)
    ensures var v := Seen(l, who);
            && One(v.me.finDue) + v.me.finsSent <= 1
            && (!v.me.state.Reset? ==> One(v.me.finDue) + v.me.finsSent == One(ClosedHalf(v.me)))
            && One(v.me.finDue) + Fins(v.outgoing) + One(GotFin(v.peer)) <= 1
  {
    ReachableInv(l);
  }

  // ---- stalls ----

  lemma StalledReceiver(s: End, r: End)
    requires CreditOk(s, r, [], []) && SendWindowOk(s) && PhaseOk(s) && EndOk(r) && Idles(s) && Idles(r)
    requires Attached(s) && Attached(r) && r.handed && s.sendWindow == 0 && s.credit < U32
    ensures r.recvWindow == 0 && r.buf != []
  {
    assert s.sendWindow == s.credit % U32 == s.credit;
  }

  /** A writer with no window left faces a receiver that still has unread data, so the next Read will
      grant window again; the stream cannot be stuck with both sides waiting. */
  lemma FlowControlNeverStalls(l: Link, who: Role)
    requires Reachable(l) && Quiet(l)
    requires var v := Seen(l, who); v.me.phase.Live? && v.peer.phase.Live? && v.peer.handed && v.me.sendWindow == 0
    ensures Seen(l, who).peer.buf != []
    ensures Seen(l, who).peer.recvWindow == 0
  {
    SeenOk(l, who);
    SeenEndsOk(l, who);
    var v := Seen(l, who);
    CreditBalance(v.me, v.peer, v.outgoing, v.incoming);
    StalledReceiver(v.me, v.peer);
  }

  lemma SeenEndsOk(l: Link, who: Role)
    requires Reachable(l)
    ensures EndOk(Seen(l, who).me) && EndOk(Seen(l, who).peer)
  {
    ReachableInv(l);
  }
}
