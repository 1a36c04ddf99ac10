/** What every reachable state of a link satisfies. */
module YamuxInv {
  import opened Bytes
  import opened YamuxTypes
  import opened YamuxEnd
  import opened YamuxLink

  function One(b: bool): nat {
    if b then 1 else 0
  }

  /** This end will send no more data, and has sent its FIN or is about to. */
  predicate ClosedHalf(e: End) {
    e.state.LocalClose? || e.state.Closed?
  }

  /** This end has processed the peer's FIN. */
  predicate GotFin(e: End) {
    e.state.RemoteClose? || e.state.Closed?
  }

  /** Frames for this end still reach the stream, or will once the SYN has arrived. */
  predicate Attached(e: End) {
    e.phase.Fresh? || e.phase.Live?
  }

  /** Sent but not yet subtracted from sendWindow. */
  function Unreduced(e: End): u32 {
    if e.writer.Sent? then e.writer.n else 0
  }

  /** Sent in a window update but not yet added to recvWindow. */
  function Pending(e: End): u32 {
    if e.updater.Posted? then e.updater.delta else 0
  }

  /** The delta of an update that is under way. */
  function UnderWay(e: End): u32 {
    if e.updater.Free? || e.updater.Held? then 0 else e.updater.delta
  }

  predicate First(u: Updater) {
    !u.Free? && u.first
  }

  predicate BeforeFlags(u: Updater) {
    u.Held? || u.Computed?
  }

  // ---- one end ----

  /** An incoming stream that was refused has no history but what was dropped since. */
  predicate NeverWas(e: End) {
    e == FreshEnd(Acceptor, e.max).(phase := Refused, lostGrant := e.lostGrant, lostBytes := e.lostBytes)
  }

  predicate PhaseOk(e: End) {
    && |e.rx| <= 1
    && (e.phase.Fresh? ==> e == FreshEnd(e.role, e.max))
    && (e.phase.Refused? ==> NeverWas(e))
    && (e.phase.Live? ==> e.lostGrant == 0 && e.lostBytes == 0)
    && (e.rx != [] ==> e.lostBytes == 0)
    && (e.phase.Live? ==> !e.state.Closed? && !e.state.Reset?)
    && (e.phase.Gone? ==> e.state.Closed? || e.state.Reset?)
    && (e.state.Init? || e.state.SynSent? || e.state.Reset? ==> e.role.Opener?)
    && (e.state.SynReceived? ==> e.role.Acceptor?)
  }

  /** Before OpenStream or AcceptStream has returned, only that call works on the stream. */
  predicate HandedOk(e: End) {
    && (e.handed ==> Started(e) && !e.state.Init? && !e.state.SynReceived? && !First(e.updater))
    && (!e.handed ==>
          && e.owing == 0 && e.writer.Idle? && !e.finDue && e.finMark.None?
          && e.sent == [] && e.read == [] && !ClosedHalf(e)
          && (e.updater.Free? || e.updater.first)
          && (e.phase.Live? && e.role.Opener? ==> !e.updater.Free?))
    && (Started(e) && e.role.Opener? ==> (e.state.Init? <==> First(e.updater) && BeforeFlags(e.updater)))
    && (e.state.SynReceived? ==> e.updater.Free? || BeforeFlags(e.updater))
    && (e.finDue ==> ClosedHalf(e) || e.state.Reset?)
  }

  predicate FlagsOk(e: End) {
    && (e.writer.Flagged? ==> e.writer.flags == NONE)
    && (e.updater.Announced? ==>
          if e.updater.first && e.role.Opener? then e.updater.flags == SYN
          else if e.updater.first then e.updater.flags == NONE || e.updater.flags == ACK
          else e.updater.flags == NONE)
  }

  /** The receive window never passes the configured one, not even with the update under way. */
  predicate RecvWindowOk(e: End) {
    INITIAL_STREAM_WINDOW <= e.max && e.recvWindow + UnderWay(e) <= e.max
  }

  /** The send window holds its unbounded value, modulo 2^32, plus a write that is not subtracted yet. */
  predicate SendWindowOk(e: End) {
    && e.credit >= 0
    && e.sendWindow == (e.credit + Unreduced(e)) % U32
    && (e.writer.Loaded? || e.writer.Flagged? ==> 0 < e.writer.window <= e.credit)
  }

  predicate WindowOk(e: End) {
    RecvWindowOk(e) && SendWindowOk(e)
  }

  /** An end whose buffer has been emptied is granting all of it back, or has granted more than half. */
  predicate GenerousOk(e: End) {
    e.buf == [] && e.owing == 0 ==>
      match e.updater
      case Free => e.handed ==> e.max - e.recvWindow < e.max / 2
      case Held(_) => true
      case _ => e.recvWindow + e.updater.delta == e.max
  }

  /** An end that has closed its half has sent its FIN, or is about to, and never sends another. */
  predicate FinsSentOk(e: End) {
    var fins := One(e.finDue) + e.finsSent;
    if e.state.Reset? then fins <= 1 else fins == One(ClosedHalf(e))
  }

  predicate EndOk(e: End) {
    PhaseOk(e) && HandedOk(e) && FlagsOk(e) && WindowOk(e) && GenerousOk(e) && FinsSentOk(e)
  }

  // ---- data from `s` to `r` on `data`, window updates from `r` to `s` on `back` ----

  /** All window that `r` has granted is accounted for, whatever has become of the stream at either end. */
  predicate CreditOk(s: End, r: End, data: seq<Frame>, back: seq<Frame>) {
    var granted := s.credit + Deltas(s.rx) + Deltas(back) + s.lostGrant;
    granted + DataBytes(r.rx) + DataBytes(data) + r.lostBytes == r.recvWindow + Pending(r)
  }

  /** The bytes that have come off the wire into this stream, in order. */
  function Delivered(r: End): seq<byte> {
    r.read + r.buf + Text(r.rx)
  }

  predicate DeliveryOk(s: End, r: End, data: seq<Frame>) {
    && (Attached(r) ==> Delivered(r) + Text(data) == s.sent)
    && (!Attached(r) ==> Delivered(r) <= s.sent)
  }

  /** The FINs of `s` that are due, on the wire, or processed by `r`. */
  function FinsFrom(s: End, r: End, data: seq<Frame>): nat {
    One(s.finDue) + Fins(data) + One(GotFin(r))
  }

  predicate FinOk(s: End, r: End, data: seq<Frame>) {
    && FinsFrom(s, r, data) <= 1
    && (!s.state.Reset? ==> FinsFrom(s, r, data) <= One(ClosedHalf(s)))
    && (!r.phase.Refused? && !s.state.Reset? ==> FinsFrom(s, r, data) == One(ClosedHalf(s)))
    && (s.finMark.Some? ==> s.finMark.value <= |s.sent|)
    && (ClosedHalf(s) && !s.finDue ==> s.finMark.Some?)
    && (Fins(data) > 0 && Attached(r) ==>
          && s.finMark.Some?
          && |Delivered(r)| + BytesBeforeFin(data) == s.finMark.value)
    && (GotFin(r) ==>
          && s.finMark.Some?
          && s.finMark.value <= |r.read| + |r.buf|)
  }

  predicate DirectionOk(s: End, r: End, data: seq<Frame>, back: seq<Frame>) {
    CreditOk(s, r, data, back) && DeliveryOk(s, r, data) && FinOk(s, r, data)
  }

  // ---- opening, acknowledging and refusing ----

  predicate SynUnsent(o: End) {
    o.phase.Fresh? || o.state.Init? || (First(o.updater) && o.updater.Announced?)
  }

  predicate AckUnsent(a: End) {
    a.updater.Announced? && a.updater.flags == ACK
  }

  predicate HasAck(q: seq<Frame>) {
    exists i :: 0 <= i < |q| && q[i].flags.ack
  }

  const REFUSAL := WindowUpdate(RST, 0)

  predicate SynOk(o: End, a: End, fwd: seq<Frame>, back: seq<Frame>) {
    && (SynUnsent(o) ==> fwd == [] && a.phase.Fresh?)
    && (a.phase.Fresh? ==>
          back == [] && o.rx == [] && (SynUnsent(o) || (fwd != [] && fwd[0].flags == SYN)))
  }

  predicate ForwardFlagsOk(a: End, fwd: seq<Frame>) {
    forall i :: 0 <= i < |fwd| ==>
      if i == 0 && a.phase.Fresh? then fwd[i].flags == SYN
      else fwd[i].flags == NONE || fwd[i].flags == FIN
  }

  predicate BackwardFlagsOk(a: End, back: seq<Frame>) {
    if a.phase.Refused? then back == [] || back == [REFUSAL]
    else forall i :: 0 <= i < |back| ==> back[i].flags == NONE || back[i].flags == FIN || back[i].flags == ACK
  }

  predicate RefusalOk(o: End, a: End, back: seq<Frame>) {
    && (a.phase.Refused? ==> (o.phase.Live? && back == [REFUSAL] && o.rx == []) || (o.state.Reset? && back == []))
    && (o.state.Reset? ==> a.phase.Refused?)
  }

  predicate AckOk(o: End, a: End, back: seq<Frame>) {
    && (o.state.SynSent? && a.state.Established? ==> AckUnsent(a) || HasAck(back))
    && (a.state.SynReceived? ==> !HasAck(back) && !AckUnsent(a) && !o.state.Established?)
  }

  predicate OpeningOk(o: End, a: End, fwd: seq<Frame>, back: seq<Frame>) {
    && o.role.Opener? && a.role.Acceptor?
    && SynOk(o, a, fwd, back)
    && ForwardFlagsOk(a, fwd) && BackwardFlagsOk(a, back)
    && RefusalOk(o, a, back)
    && AckOk(o, a, back)
  }

  predicate Inv(l: Link) {
    && EndOk(l.me) && EndOk(l.peer)
    && DirectionOk(l.me, l.peer, l.outgoing, l.incoming)
    && DirectionOk(l.peer, l.me, l.incoming, l.outgoing)
  }

  /** The invariant of a link as the opener sees it. */
  predicate OpenerInv(l: Link) {
    Inv(l) && OpeningOk(l.me, l.peer, l.outgoing, l.incoming)
  }
}
