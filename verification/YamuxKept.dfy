/** One move of one end keeps the invariants of the link. */
module YamuxKept {
  import opened Options
  import opened Bytes
  import opened YamuxTypes
  import opened YamuxEnd
  import opened YamuxLink
  import opened YamuxInv

  /** What the opening invariant says of the frame that recv takes next. */
  predicate HeadOk(l: Link) {
    && (l.peer.state.Reset? ==> l.me.phase.Refused?)
    && (l.me.state.Reset? ==> l.peer.phase.Refused?)
    && (l.incoming != [] && l.me.rx == [] ==>
      var f := l.incoming[0].flags;
      && f in {NONE, SYN, ACK, FIN, RST}
      && (f == SYN <==> l.me.phase.Fresh?)
      && (f == SYN ==> l.me.role.Acceptor?)
      && (f == ACK ==> l.me.role.Opener?)
      && (f == RST ==> l.me.role.Opener? && l.peer.phase.Refused?)
      && (l.me.phase.Live? ==> !l.me.state.Init?)
      && (l.me.phase.Refused? ==> f != RST))
  }

  lemma HeadsOk(l: Link)
    requires OpenerInv(l)
    ensures HeadOk(l) && HeadOk(Flip(l))
  {
  }

  // ---- errors ----

  lemma LocalMovesSucceed(l: Link, a: Action)
    requires HandedOk(l.me) && Can(l, Local(a))
    ensures Result(l, Local(a)).Moved?
  {
  }

  /** A FIN still on the wire has not been processed, so the receiver is in a state that expects it. */
  lemma TakesSucceed(l: Link, admission: Admission)
    requires PhaseOk(l.me) && FinOk(l.peer, l.me, l.incoming) && HeadOk(l) && Can(l, Take(admission))
    ensures Result(l, Take(admission)).Moved?
  {
    assert Fins(l.incoming) >= One(l.incoming[0].flags.fin);
  }

  /** The receive window check fails only for a frame that has eaten into a delta which was announced
      but not yet added. */
  lemma FinishFailsOnlyInTheGap(l: Link)
    requires PhaseOk(l.me) && WindowOk(l.peer) && CreditOk(l.peer, l.me, l.incoming, l.outgoing) && Can(l, Finish)
    ensures Result(l, Finish).Failed? ==> Pending(l.me) > 0
    ensures Size(l.me.rx[0]) <= l.me.recvWindow + Pending(l.me)
  {
    assert DataBytes(l.me.rx) >= Size(l.me.rx[0]);
  }

  // ---- each end ----

  /** Only the writer's own fields, and the state where flags are due. */
  lemma WritesLeave(e: End, a: Action)
    requires ByWriter(a) && Enabled(e, a)
    ensures Apply(e, a).Moved?
    ensures var e' := Apply(e, a).e;
            && e' == e.(writer := e'.writer, state := e'.state, sendWindow := e'.sendWindow, sent := e'.sent,
                        credit := e'.credit)
            && e'.state in {e.state, SendFlags(e.state).1}
  {
  }

  lemma WritesKeepPhase(e: End, a: Action)
    requires PhaseOk(e) && HandedOk(e) && Enabled(e, a) && ByWriter(a)
    ensures Apply(e, a).Moved? && PhaseOk(Apply(e, a).e)
  {
    WritesLeave(e, a);
  }

  lemma OthersKeepPhase(e: End, a: Action)
    requires PhaseOk(e) && HandedOk(e) && Enabled(e, a) && Apply(e, a).Moved? && !ByWriter(a)
    ensures PhaseOk(Apply(e, a).e)
  {
  }

  lemma LocalKeepsPhase(e: End, a: Action)
    requires PhaseOk(e) && HandedOk(e) && Enabled(e, a) && Apply(e, a).Moved?
    ensures PhaseOk(Apply(e, a).e)
  {
    if ByWriter(a) {
      WritesKeepPhase(e, a);
    } else {
      OthersKeepPhase(e, a);
    }
  }

  lemma LocalKeepsHanded(e: End, a: Action)
    requires PhaseOk(e) && HandedOk(e) && Enabled(e, a) && Apply(e, a).Moved?
    ensures HandedOk(Apply(e, a).e)
  {
  }

  lemma LocalKeepsFlags(e: End, a: Action)
    requires PhaseOk(e) && HandedOk(e) && FlagsOk(e) && Enabled(e, a) && Apply(e, a).Moved?
    ensures FlagsOk(Apply(e, a).e)
  {
  }

  lemma LocalKeepsRecvWindow(e: End, a: Action)
    requires RecvWindowOk(e) && Enabled(e, a) && Apply(e, a).Moved?
    ensures RecvWindowOk(Apply(e, a).e)
  {
  }

  predicate ByWriter(a: Action) {
    a.WriteCheck? || a.WriteLoad? || a.WriteFlags? || a.WritePost? || a.WriteReduce?
  }

  lemma OthersLeaveSendWindow(e: End, a: Action)
    requires Enabled(e, a) && Apply(e, a).Moved? && !ByWriter(a)
    ensures var e' := Apply(e, a).e; e'.sendWindow == e.sendWindow && e'.credit == e.credit && e'.writer == e.writer
  {
  }

  lemma LocalKeepsSendWindow(e: End, a: Action)
    requires SendWindowOk(e) && e.credit < U32 && Enabled(e, a) && Apply(e, a).Moved?
    ensures SendWindowOk(Apply(e, a).e)
  {
    match a
    case WritePost(b) => PostKeepsSendWindow(e, b);
    case WriteReduce => ReduceUnwraps(e.credit, e.writer.n);
    case _ =>
      if !ByWriter(a) {
        OthersLeaveSendWindow(e, a);
      }
  }

  lemma PostKeepsSendWindow(e: End, b: seq<byte>)
    requires SendWindowOk(e) && Enabled(e, WritePost(b))
    ensures SendWindowOk(Apply(e, WritePost(b)).e)
  {
  }

  lemma LocalKeepsGenerous(e: End, a: Action)
    requires HandedOk(e) && RecvWindowOk(e) && GenerousOk(e) && Enabled(e, a) && Apply(e, a).Moved?
    ensures GenerousOk(Apply(e, a).e)
  {
    if ByWriter(a) {
      WritesLeave(e, a);
    } else {
      OthersKeepGenerous(e, a);
    }
  }

  lemma OthersKeepGenerous(e: End, a: Action)
    requires HandedOk(e) && RecvWindowOk(e) && GenerousOk(e) && Enabled(e, a) && Apply(e, a).Moved? && !ByWriter(a)
    ensures GenerousOk(Apply(e, a).e)
  {
  }

  lemma LocalKeepsEnd(e: End, a: Action)
    requires EndOk(e) && e.credit < U32 && Enabled(e, a) && Apply(e, a).Moved?
    ensures EndOk(Apply(e, a).e)
  {
    LocalKeepsPhase(e, a);
    LocalKeepsHanded(e, a);
    LocalKeepsFlags(e, a);
    LocalKeepsRecvWindow(e, a);
    LocalKeepsSendWindow(e, a);
    LocalKeepsGenerous(e, a);
    LocalKeepsFinsSent(e, a);
  }

  lemma LocalKeepsFinsSent(e: End, a: Action)
    requires HandedOk(e) && FinsSentOk(e) && Enabled(e, a) && Apply(e, a).Moved?
    ensures FinsSentOk(Apply(e, a).e)
  {
  }

  lemma TakeKeepsFinsSent(l: Link, admission: Admission)
    requires PhaseOk(l.me) && FinsSentOk(l.me) && HeadOk(l)
    requires Can(l, Take(admission)) && Result(l, Take(admission)).Moved?
    ensures FinsSentOk(Result(l, Take(admission)).e)
  {
  }

  lemma TakeKeepsPhase(l: Link, admission: Admission)
    requires PhaseOk(l.me) && HeadOk(l) && Can(l, Take(admission)) && Result(l, Take(admission)).Moved?
    ensures PhaseOk(Result(l, Take(admission)).e)
  {
  }

  lemma TakeKeepsHanded(l: Link, admission: Admission)
    requires PhaseOk(l.me) && HandedOk(l.me) && FlagsOk(l.me)
    requires HeadOk(l) && Can(l, Take(admission)) && Result(l, Take(admission)).Moved?
    ensures HandedOk(Result(l, Take(admission)).e) && FlagsOk(Result(l, Take(admission)).e)
  {
  }

  lemma TakeKeepsWindows(l: Link, admission: Admission)
    requires PhaseOk(l.me) && WindowOk(l.me) && GenerousOk(l.me)
    requires HeadOk(l) && Can(l, Take(admission)) && Result(l, Take(admission)).Moved?
    ensures WindowOk(Result(l, Take(admission)).e) && GenerousOk(Result(l, Take(admission)).e)
  {
    TakeHasEffect(l, admission);
  }

  lemma TakeKeepsEnd(l: Link, admission: Admission)
    requires EndOk(l.me) && HeadOk(l) && Can(l, Take(admission)) && Result(l, Take(admission)).Moved?
    ensures EndOk(Result(l, Take(admission)).e)
  {
    TakeKeepsPhase(l, admission);
    TakeKeepsHanded(l, admission);
    TakeKeepsWindows(l, admission);
    TakeKeepsFinsSent(l, admission);
  }

  lemma FinishKeepsWindows(e: End)
    requires PhaseOk(e) && WindowOk(e) && GenerousOk(e) && e.rx != [] && FinishFrame(e).Moved?
    ensures WindowOk(FinishFrame(e).e) && GenerousOk(FinishFrame(e).e)
  {
    if e.rx[0].Data? && |e.rx[0].payload| > 0 {
      AtomicSubIsSubtraction(e.recvWindow, |e.rx[0].payload|);
    }
  }

  lemma FinishKeepsRest(e: End)
    requires PhaseOk(e) && HandedOk(e) && FlagsOk(e) && e.rx != [] && FinishFrame(e).Moved?
    ensures PhaseOk(FinishFrame(e).e) && HandedOk(FinishFrame(e).e) && FlagsOk(FinishFrame(e).e)
    ensures FinsSentOk(e) ==> FinsSentOk(FinishFrame(e).e)
  {
  }

  lemma FinishKeepsEnd(e: End)
    requires EndOk(e) && e.rx != [] && FinishFrame(e).Moved?
    ensures EndOk(FinishFrame(e).e)
  {
    FinishKeepsWindows(e);
    FinishKeepsRest(e);
  }

  // ---- what a local action may do to the two directions ----

  predicate CreditEffect(e: End, e': End, out: seq<Frame>) {
    && |out| <= 1
    && e'.rx == e.rx
    && e'.credit == e.credit - DataBytes(out)
    && e'.recvWindow + Pending(e') == e.recvWindow + Pending(e) + Deltas(out)
    && e'.lostGrant == e.lostGrant && e'.lostBytes == e.lostBytes
  }

  predicate TextEffect(e: End, e': End, out: seq<Frame>) {
    && |out| <= 1
    && Delivered(e') == Delivered(e)
    && e'.sent == e.sent + Text(out)
    && (Attached(e') ==> Attached(e))
  }

  /** Close and sendClose between them send one FIN, after all payload sent before it. */
  predicate FinEffect(e: End, e': End, out: seq<Frame>) {
    && One(e'.finDue) + Fins(out) + One(ClosedHalf(e)) == One(e.finDue) + One(ClosedHalf(e'))
    && (Fins(out) > 0 ==> e'.finMark == Some(|e.sent|))
    && (Fins(out) == 0 ==> e'.finMark == e.finMark)
    && |e.read| + |e.buf| == |e'.read| + |e'.buf|
    && GotFin(e') == GotFin(e)
  }

  lemma Single(f: Frame)
    ensures DataBytes([f]) == Size(f) && Deltas([f]) == Grant(f) && Text([f]) == TextOf(f)
    ensures Fins([f]) == One(f.flags.fin) && BytesBeforeFin([f]) == if f.flags.fin then 0 else Size(f)
  {
    assert [f][1..] == [];
    assert TextOf(f) + [] == TextOf(f);
  }

  lemma LocalHasCreditEffect(e: End, a: Action)
    requires RecvWindowOk(e) && Enabled(e, a) && Apply(e, a).Moved?
    requires e.phase.Fresh? ==> !e.handed && !e.finDue && e.updater.Free?
    ensures CreditEffect(e, Apply(e, a).e, Apply(e, a).out)
  {
    var Moved(e', out) := Apply(e, a);
    if out != [] {
      Single(out[0]);
      assert out == [out[0]];
    }
  }

  lemma LocalHasTextEffect(e: End, a: Action)
    requires Enabled(e, a) && Apply(e, a).Moved?
    ensures TextEffect(e, Apply(e, a).e, Apply(e, a).out)
  {
    var Moved(e', out) := Apply(e, a);
    if out != [] {
      Single(out[0]);
      assert out == [out[0]];
    } else {
      assert e.sent + [] == e.sent;
    }
    match a
    case Read(k) => assert e.read + e.buf[..k] + e.buf[k..] == e.read + e.buf;
    case _ =>
  }

  lemma LocalLeavesFin(e: End, a: Action)
    requires FlagsOk(e) && Enabled(e, a) && Apply(e, a).Moved? && !a.Close? && !a.PostFin?
    ensures var Moved(e', out) := Apply(e, a);
            && e'.finDue == e.finDue && e'.finMark == e.finMark && e'.phase.Refused? == e.phase.Refused?
            && |e.read| + |e.buf| == |e'.read| + |e'.buf|
            && (e'.state == e.state || e'.state == SendFlags(e.state).1)
            && |out| <= 1 && (out != [] ==> !out[0].flags.fin)
  {
  }

  lemma LocalHasFinEffect(e: End, a: Action)
    requires HandedOk(e) && FlagsOk(e) && !e.state.Reset? && Enabled(e, a) && Apply(e, a).Moved?
    ensures FinEffect(e, Apply(e, a).e, Apply(e, a).out)
    ensures !Apply(e, a).e.state.Reset? && Apply(e, a).e.phase.Refused? == e.phase.Refused?
  {
    var Moved(e', out) := Apply(e, a);
    if out != [] {
      Single(out[0]);
      assert out == [out[0]];
    }
    match a
    case PostFin =>
    case Close =>
    case _ => LocalLeavesFin(e, a);
  }

  lemma Appended(q: seq<Frame>, out: seq<Frame>)
    requires |out| <= 1
    ensures DataBytes(q + out) == DataBytes(q) + DataBytes(out) && Deltas(q + out) == Deltas(q) + Deltas(out)
    ensures Fins(q + out) == Fins(q) + Fins(out)
  {
    if out == [] {
      assert q + out == q;
    } else {
      assert out == [out[0]];
      Single(out[0]);
      WireAppend(q, out[0]);
    }
  }

  lemma TextAppended(q: seq<Frame>, out: seq<Frame>)
    requires |out| <= 1
    ensures Text(q + out) == Text(q) + Text(out)
  {
    if out == [] {
      assert q + out == q;
      assert Text(q) + [] == Text(q);
    } else {
      assert out == [out[0]];
      Single(out[0]);
      TextAppend(q, out[0]);
    }
  }

  lemma BeforeFinAppended(q: seq<Frame>, out: seq<Frame>)
    requires |out| <= 1
    ensures Fins(q) > 0 ==> BytesBeforeFin(q + out) == BytesBeforeFin(q)
    ensures Fins(q) == 0 && Fins(out) > 0 ==> BytesBeforeFin(q + out) == DataBytes(q)
  {
    if out == [] {
      assert q + out == q;
    } else {
      assert out == [out[0]];
      Single(out[0]);
      BeforeFinAppend(q, out[0]);
    }
  }

  lemma EffectKeepsCredit(s: End, r: End, s': End, data: seq<Frame>, back: seq<Frame>, out: seq<Frame>)
    requires CreditEffect(s, s', out)
    ensures CreditOk(s, r, data, back) ==> CreditOk(s', r, data + out, back)
    ensures CreditOk(r, s, back, data) ==> CreditOk(r, s', back, data + out)
  {
    Appended(data, out);
  }

  lemma EffectKeepsDelivery(s: End, r: End, s': End, data: seq<Frame>, back: seq<Frame>, out: seq<Frame>)
    requires TextEffect(s, s', out)
    ensures DeliveryOk(s, r, data) ==> DeliveryOk(s', r, data + out)
    ensures DeliveryOk(r, s, back) ==> DeliveryOk(r, s', back)
  {
    TextAppended(data, out);
    Regroup(Delivered(r), Text(data), Text(out));
  }

  lemma EffectKeepsFin(s: End, s': End, r: End, data: seq<Frame>, out: seq<Frame>)
    requires TextEffect(s, s', out) && FinEffect(s, s', out) && !s.state.Reset? && !s'.state.Reset?
    requires FinOk(s, r, data) && DeliveryOk(s, r, data) && PhaseOk(r)
    ensures FinOk(s', r, data + out)
  {
    Appended(data, out);
    BeforeFinAppended(data, out);
    assert |s'.sent| >= |s.sent|;
  }

  lemma EffectKeepsPeerFin(s: End, r: End, r': End, data: seq<Frame>, out: seq<Frame>)
    requires TextEffect(r, r', out) && FinEffect(r, r', out)
    requires r'.phase.Refused? == r.phase.Refused?
    requires FinOk(s, r, data)
    ensures FinOk(s, r', data)
  {
  }

  lemma ResetStays(e: End, a: Action)
    requires FlagsOk(e) && e.state.Reset? && Enabled(e, a) && Apply(e, a).Moved?
    ensures var e' := Apply(e, a).e;
            e'.state.Reset? && e'.phase.Refused? == e.phase.Refused? && e'.finMark in {e.finMark, Some(|e.sent|)}
            && |Apply(e, a).out| <= 1 && One(e'.finDue) + Fins(Apply(e, a).out) <= One(e.finDue)
  {
    var out := Apply(e, a).out;
    if out != [] {
      Single(out[0]);
      assert out == [out[0]];
    }
  }

  /** A stream that was reset has a peer that refused it, and nothing more is owed either way. */
  lemma ResetKeepsFin(s: End, s': End, r: End, data: seq<Frame>, data': seq<Frame>, back: seq<Frame>)
    requires s.state.Reset? && s'.state.Reset? && NeverWas(r)
    requires !s'.phase.Refused? && !s.phase.Refused?
    requires s'.finMark in {s.finMark, Some(|s.sent|)} && |s.sent| <= |s'.sent|
    requires One(s'.finDue) + Fins(data') <= One(s.finDue) + Fins(data)
    requires FinOk(s, r, data) && FinOk(r, s, back)
    ensures FinOk(s', r, data') && FinOk(r, s', back)
  {
  }

  lemma LocalKeepsFin(l: Link, a: Action)
    requires PhaseOk(l.me) && HandedOk(l.me) && FlagsOk(l.me) && PhaseOk(l.peer)
    requires FinOk(l.me, l.peer, l.outgoing) && FinOk(l.peer, l.me, l.incoming) && DeliveryOk(l.me, l.peer, l.outgoing)
    requires l.me.state.Reset? ==> l.peer.phase.Refused?
    requires Can(l, Local(a)) && Result(l, Local(a)).Moved?
    ensures var Moved(e, out) := Result(l, Local(a));
            FinOk(e, l.peer, l.outgoing + out) && FinOk(l.peer, e, l.incoming)
  {
    var Moved(e, out) := Result(l, Local(a));
    LocalHasTextEffect(l.me, a);
    if l.me.state.Reset? {
      ResetStays(l.me, a);
      Appended(l.outgoing, out);
      ResetKeepsFin(l.me, e, l.peer, l.outgoing, l.outgoing + out, l.incoming);
    } else {
      LocalHasFinEffect(l.me, a);
      EffectKeepsFin(l.me, e, l.peer, l.outgoing, out);
      EffectKeepsPeerFin(l.peer, l.me, e, l.incoming, out);
    }
  }

  /** A local action of one end keeps both directions. */
  lemma LocalKeepsDirections(l: Link, a: Action)
    requires Inv(l) && HeadOk(Flip(l)) && Can(l, Local(a)) && Result(l, Local(a)).Moved?
    ensures var k := Do(l, Local(a));
            && DirectionOk(k.me, k.peer, k.outgoing, k.incoming)
            && DirectionOk(k.peer, k.me, k.incoming, k.outgoing)
  {
    var Moved(e, out) := Apply(l.me, a);
    LocalHasCreditEffect(l.me, a);
    LocalHasTextEffect(l.me, a);
    EffectKeepsCredit(l.me, l.peer, e, l.outgoing, l.incoming, out);
    EffectKeepsDelivery(l.me, l.peer, e, l.outgoing, l.incoming, out);
    LocalKeepsFin(l, a);
  }

  // ---- recv: taking a frame ----

  /** All but the phase, the state, the frame in hand and what was dropped is as before. */
  predicate Settled(e: End, e': End) {
    e' == e.(phase := e'.phase, state := e'.state, rx := e'.rx, lostGrant := e'.lostGrant, lostBytes := e'.lostBytes)
  }

  /** processFlags and the table lookup leave windows, buffers and history alone; a frame that is kept
      moves from the wire to `rx`. */
  lemma TakeHasEffect(l: Link, admission: Admission)
    requires PhaseOk(l.me) && HeadOk(l) && Can(l, Take(admission)) && Result(l, Take(admission)).Moved?
    ensures var Moved(e, reply) := Result(l, Take(admission));
            && Settled(l.me, e)
            && e.lostGrant == l.me.lostGrant + (if e.rx == [] then Grant(l.incoming[0]) else 0)
            && e.lostBytes == l.me.lostBytes + (if e.rx == [] then Size(l.incoming[0]) else 0)
            && e.rx == (if Attached(l.me) && !e.phase.Refused? then [l.incoming[0]] else [])
            && (Attached(e) ==> Attached(l.me))
            && (reply == [] || reply == [REFUSAL])
            && (reply != [] || e.phase.Refused? ==> !Attached(e) && e.state == l.me.state && l.me.role.Acceptor?)
            && (reply == [] ==> e.phase.Refused? == l.me.phase.Refused?)
  {
  }

  /** A frame leaves the wire for `rx`, or for good; either way its bytes and its grant are accounted for. */
  lemma TakeAccounts(l: Link, admission: Admission)
    requires PhaseOk(l.me) && HeadOk(l) && Can(l, Take(admission)) && Result(l, Take(admission)).Moved?
    ensures var Moved(e, reply) := Result(l, Take(admission));
            && DataBytes(e.rx) + DataBytes(l.incoming[1..]) + e.lostBytes == DataBytes(l.incoming) + l.me.lostBytes
            && Deltas(e.rx) + Deltas(l.incoming[1..]) + e.lostGrant == Deltas(l.incoming) + l.me.lostGrant
            && DataBytes(l.outgoing + reply) == DataBytes(l.outgoing)
            && Deltas(l.outgoing + reply) == Deltas(l.outgoing)
            && e.credit == l.me.credit && e.recvWindow == l.me.recvWindow && Pending(e) == Pending(l.me)
  {
    TakeHasEffect(l, admission);
    Appended(l.outgoing, Result(l, Take(admission)).out);
    Single(REFUSAL);
    Single(l.incoming[0]);
  }

  lemma TakeKeepsCredit(l: Link, admission: Admission)
    requires PhaseOk(l.me) && HeadOk(l) && Can(l, Take(admission)) && Result(l, Take(admission)).Moved?
    requires CreditOk(l.me, l.peer, l.outgoing, l.incoming)
    requires CreditOk(l.peer, l.me, l.incoming, l.outgoing)
    ensures var k := Do(l, Take(admission));
            && CreditOk(k.me, k.peer, k.outgoing, k.incoming)
            && CreditOk(k.peer, k.me, k.incoming, k.outgoing)
  {
    TakeAccounts(l, admission);
  }

  lemma TakeKeepsDelivery(l: Link, admission: Admission)
    requires PhaseOk(l.me) && HeadOk(l) && Can(l, Take(admission)) && Result(l, Take(admission)).Moved?
    requires DeliveryOk(l.me, l.peer, l.outgoing) && DeliveryOk(l.peer, l.me, l.incoming)
    ensures var k := Do(l, Take(admission));
            DeliveryOk(k.me, k.peer, k.outgoing) && DeliveryOk(k.peer, k.me, k.incoming)
  {
    TakeHasEffect(l, admission);
    var Moved(e, reply) := Result(l, Take(admission));
    TextAppended(l.outgoing, reply);
    Single(REFUSAL);
    assert Text(l.outgoing) + [] == Text(l.outgoing);
    TakeMovesText(l.me, e, l.incoming);
  }

  lemma TakeMovesText(me: End, e: End, incoming: seq<Frame>)
    requires incoming != [] && me.rx == [] && Settled(me, e)
    ensures e.rx == [incoming[0]] ==> Delivered(e) + Text(incoming[1..]) == Delivered(me) + Text(incoming)
    ensures e.rx == [] ==> Delivered(e) == Delivered(me)
  {
    var f := incoming[0];
    var base := me.read + me.buf;
    Single(f);
    assert base + [] == base;
    assert base + (TextOf(f) + Text(incoming[1..])) == base + TextOf(f) + Text(incoming[1..]);
  }

  /** A frame taken off the wire is the peer's FIN, or leaves both half-closes as they are. */
  lemma TakeChangesState(l: Link, admission: Admission)
    requires PhaseOk(l.me) && PhaseOk(l.peer) && HeadOk(l) && FinOk(l.peer, l.me, l.incoming)
    requires Can(l, Take(admission)) && Result(l, Take(admission)).Moved?
    ensures var e := Result(l, Take(admission)).e;
            && (e.state.Reset? || ClosedHalf(e) == ClosedHalf(l.me))
            && (e.state.Reset? ==> l.me.state.Reset? || l.peer.phase.Refused?)
            && (!e.phase.Refused? ==> One(GotFin(e)) == One(GotFin(l.me)) + One(l.incoming[0].flags.fin))
            && (e.phase.Refused? ==> !GotFin(e))
  {
  }

  lemma TakeKeepsSentFin(l: Link, admission: Admission)
    requires PhaseOk(l.me) && PhaseOk(l.peer) && HeadOk(l) && FinOk(l.peer, l.me, l.incoming)
    requires Can(l, Take(admission)) && Result(l, Take(admission)).Moved?
    requires FinOk(l.me, l.peer, l.outgoing)
    ensures var k := Do(l, Take(admission)); FinOk(k.me, k.peer, k.outgoing)
  {
    TakeHasEffect(l, admission);
    TakeChangesState(l, admission);
    Appended(l.outgoing, Result(l, Take(admission)).out);
    BeforeFinAppended(l.outgoing, Result(l, Take(admission)).out);
    Single(REFUSAL);
  }

  lemma TakeKeepsReceivedFin(l: Link, admission: Admission)
    requires PhaseOk(l.me) && PhaseOk(l.peer) && HeadOk(l) && FinOk(l.peer, l.me, l.incoming)
    requires Can(l, Take(admission)) && Result(l, Take(admission)).Moved?
    ensures var k := Do(l, Take(admission)); FinOk(k.peer, k.me, k.incoming)
  {
    TakeHasEffect(l, admission);
    TakeChangesState(l, admission);
    Single(l.incoming[0]);
  }

  // ---- recv: applying the payload ----

  lemma FinishHasEffect(e: End)
    requires |e.rx| == 1 && FinishFrame(e).Moved?
    ensures var e' := FinishFrame(e).e;
            && FinishFrame(e).out == [] && e'.rx == []
            && e'.credit == e.credit + Deltas(e.rx)
            && e'.recvWindow + DataBytes(e.rx) == e.recvWindow
            && e'.phase == e.phase && e'.state == e.state && Pending(e') == Pending(e)
            && e'.lostGrant == e.lostGrant && e'.lostBytes == e.lostBytes
            && e'.sent == e.sent && e'.finMark == e.finMark && e'.finDue == e.finDue
            && Delivered(e') == Delivered(e)
            && |e.read| + |e.buf| <= |e'.read| + |e'.buf|
  {
    var f := e.rx[0];
    Single(f);
    assert e.rx == [f];
    assert e.read + (e.buf + TextOf(f)) + [] == e.read + e.buf + TextOf(f);
    if f.Data? {
      AtomicSubIsSubtraction(e.recvWindow, |f.payload|);
    }
  }

  lemma FinishKeepsCredit(l: Link, e: End)
    requires |l.me.rx| == 1 && FinishFrame(l.me) == Moved(e, [])
    ensures CreditOk(l.me, l.peer, l.outgoing, l.incoming) ==> CreditOk(e, l.peer, l.outgoing, l.incoming)
    ensures CreditOk(l.peer, l.me, l.incoming, l.outgoing) ==> CreditOk(l.peer, e, l.incoming, l.outgoing)
  {
    FinishHasEffect(l.me);
  }

  lemma FinishKeepsDelivery(l: Link, e: End)
    requires |l.me.rx| == 1 && FinishFrame(l.me) == Moved(e, [])
    ensures DeliveryOk(l.me, l.peer, l.outgoing) ==> DeliveryOk(e, l.peer, l.outgoing)
    ensures DeliveryOk(l.peer, l.me, l.incoming) ==> DeliveryOk(l.peer, e, l.incoming)
  {
    FinishHasEffect(l.me);
  }

  lemma FinishKeepsFin(l: Link, e: End)
    requires |l.me.rx| == 1 && FinishFrame(l.me) == Moved(e, [])
    ensures FinOk(l.me, l.peer, l.outgoing) ==> FinOk(e, l.peer, l.outgoing)
    ensures FinOk(l.peer, l.me, l.incoming) ==> FinOk(l.peer, e, l.incoming)
  {
    FinishHasEffect(l.me);
  }

  lemma FinishKeepsDirections(l: Link)
    requires Inv(l) && Can(l, Finish) && Result(l, Finish).Moved?
    ensures var k := Do(l, Finish);
            && DirectionOk(k.me, k.peer, k.outgoing, k.incoming)
            && DirectionOk(k.peer, k.me, k.incoming, k.outgoing)
  {
    FinishHasEffect(l.me);
    var e := FinishFrame(l.me).e;
    FinishKeepsCredit(l, e);
    FinishKeepsDelivery(l, e);
    FinishKeepsFin(l, e);
    assert l.outgoing + [] == l.outgoing;
  }

  // ---- opening ----

  lemma AckAppended(q: seq<Frame>, out: seq<Frame>)
    requires |out| <= 1
    ensures HasAck(q + out) <==> HasAck(q) || (out != [] && out[0].flags.ack)
  {
    if HasAck(q) {
      var i :| 0 <= i < |q| && q[i].flags.ack;
      assert (q + out)[i].flags.ack;
    }
    if out != [] && out[0].flags.ack {
      assert (q + out)[|q|].flags.ack;
    }
  }

  lemma AckTaken(q: seq<Frame>)
    requires q != []
    ensures HasAck(q) <==> q[0].flags.ack || HasAck(q[1..])
  {
    if HasAck(q) && !q[0].flags.ack {
      var i :| 0 <= i < |q| && q[i].flags.ack;
      assert q[1..][i - 1].flags.ack;
    }
    if HasAck(q[1..]) {
      var i :| 0 <= i < |q| - 1 && q[1..][i].flags.ack;
      assert q[i + 1].flags.ack;
    }
  }

  function FlagsDue(e: End, a: Action): Flags {
    if e.role.Opener? && First(e.updater) && e.updater.Announced? then SYN
    else if AckUnsent(e) && a.PostUpdate? then ACK
    else if a.PostFin? then FIN
    else NONE
  }

  /** SYN goes out once, on the opener's first frame, and ACK only with AcceptStream's update. */
  lemma LocalFlags(e: End, a: Action)
    requires PhaseOk(e) && HandedOk(e) && FlagsOk(e) && Enabled(e, a) && Apply(e, a).Moved?
    ensures var Moved(e', out) := Apply(e, a);
            && (out != [] ==> |out| == 1 && out[0].flags == FlagsDue(e, a))
            && (e.role.Opener? && SynUnsent(e') ==> SynUnsent(e) && out == [])
            && (e.role.Opener? && SynUnsent(e) && !SynUnsent(e') ==> out != [])
            && (AckUnsent(e') ==> AckUnsent(e) || e.state.SynReceived?)
            && (AckUnsent(e) ==> AckUnsent(e') || (out != [] && out[0].flags == ACK))
  {
  }

  lemma LocalStates(e: End, a: Action)
    requires PhaseOk(e) && HandedOk(e) && FlagsOk(e) && Enabled(e, a) && Apply(e, a).Moved?
    ensures var Moved(e', out) := Apply(e, a);
            && e'.role == e.role && e'.rx == e.rx
            && (e'.phase.Fresh? ==> e.phase.Fresh?)
            && (e.role.Acceptor? && e.phase.Fresh? ==> e'.phase.Fresh? && out == [])
            && e'.phase.Refused? == e.phase.Refused?
            && (e.phase.Refused? ==> e' == e && out == [])
            && (e'.state.Reset? <==> e.state.Reset?)
            && (e'.state.SynReceived? ==> e.state.SynReceived? && out == [])
            && (e'.state.Established? ==> e.state.Established? || (e.state.SynReceived? && AckUnsent(e')))
            && (e'.state.SynSent? ==> e.state.SynSent? || e.state.Init?)
            && (e'.phase.Live? || !e.phase.Live? || GotFin(e))
  {
  }

  lemma OpenerLocalKeepsOpening(l: Link, a: Action)
    requires PhaseOk(l.me) && PhaseOk(l.peer) && HandedOk(l.me) && FlagsOk(l.me)
    requires FinOk(l.peer, l.me, l.incoming)
    requires OpeningOk(l.me, l.peer, l.outgoing, l.incoming)
    requires Can(l, Local(a)) && Result(l, Local(a)).Moved?
    ensures var k := Do(l, Local(a)); OpeningOk(k.me, k.peer, k.outgoing, k.incoming)
  {
    LocalFlags(l.me, a);
    LocalStates(l.me, a);
    var Moved(e, out) := Apply(l.me, a);
    assert l.outgoing + [] == l.outgoing;
  }

  lemma AcceptorLocalKeepsOpening(l: Link, a: Action)
    requires PhaseOk(l.me) && PhaseOk(l.peer) && HandedOk(l.me) && FlagsOk(l.me)
    requires OpeningOk(l.peer, l.me, l.incoming, l.outgoing)
    requires Can(l, Local(a)) && Result(l, Local(a)).Moved?
    ensures var k := Do(l, Local(a)); OpeningOk(k.peer, k.me, k.incoming, k.outgoing)
  {
    LocalFlags(l.me, a);
    LocalStates(l.me, a);
    var Moved(e, out) := Apply(l.me, a);
    assert l.outgoing + [] == l.outgoing;
    AckAppended(l.outgoing, out);
  }

  lemma OpenerTakeKeepsOpening(l: Link, admission: Admission)
    requires PhaseOk(l.me) && PhaseOk(l.peer)
    requires OpeningOk(l.me, l.peer, l.outgoing, l.incoming)
    requires Can(l, Take(admission)) && Result(l, Take(admission)).Moved?
    ensures var k := Do(l, Take(admission)); OpeningOk(k.me, k.peer, k.outgoing, k.incoming)
  {
    assert l.outgoing + [] == l.outgoing;
    AckTaken(l.incoming);
  }

  lemma AcceptorTakeKeepsOpening(l: Link, admission: Admission)
    requires PhaseOk(l.me) && PhaseOk(l.peer) && FinOk(l.me, l.peer, l.outgoing)
    requires OpeningOk(l.peer, l.me, l.incoming, l.outgoing)
    requires Can(l, Take(admission)) && Result(l, Take(admission)).Moved?
    ensures var k := Do(l, Take(admission)); OpeningOk(k.peer, k.me, k.incoming, k.outgoing)
  {
    assert l.outgoing + [] == l.outgoing;
    AckAppended(l.outgoing, Result(l, Take(admission)).out);
  }

  lemma FinishKeepsOpening(l: Link)
    requires Can(l, Finish) && Result(l, Finish).Moved?
    ensures var k := Do(l, Finish);
            && (OpeningOk(l.me, l.peer, l.outgoing, l.incoming) ==> OpeningOk(k.me, k.peer, k.outgoing, k.incoming))
            && (OpeningOk(l.peer, l.me, l.incoming, l.outgoing) ==> OpeningOk(k.peer, k.me, k.incoming, k.outgoing))
  {
    assert l.outgoing + [] == l.outgoing;
  }

  // ---- one move ----

  lemma MoveKeepsInv(l: Link, m: Move)
    requires Inv(l) && HeadOk(l) && HeadOk(Flip(l)) && Can(l, m) && Result(l, m).Moved?
    ensures Inv(Do(l, m))
  {
    match m
    case Local(a) =>
      LocalKeepsEnd(l.me, a);
      LocalKeepsDirections(l, a);
    case Take(admission) =>
      TakeKeepsEnd(l, admission);
      TakeKeepsCredit(l, admission);
      TakeKeepsDelivery(l, admission);
      TakeKeepsSentFin(l, admission);
      TakeKeepsReceivedFin(l, admission);
    case Finish =>
      FinishKeepsEnd(l.me);
      FinishKeepsDirections(l);
  }

  lemma StepKeepsInv(l: Link, s: Step)
    requires OpenerInv(l) && CanStep(l, s) && DoStep(l, s).error.None?
    ensures OpenerInv(DoStep(l, s))
  {
    HeadsOk(l);
    if s.who.Opener? {
      MoveKeepsInv(l, s.move);
      match s.move
      case Local(a) => OpenerLocalKeepsOpening(l, a);
      case Take(admission) => OpenerTakeKeepsOpening(l, admission);
      case Finish => FinishKeepsOpening(l);
    } else {
      var r := Flip(l);
      MoveKeepsInv(r, s.move);
      match s.move
      case Local(a) => AcceptorLocalKeepsOpening(r, a);
      case Take(admission) => AcceptorTakeKeepsOpening(r, admission);
      case Finish => FinishKeepsOpening(r);
    }
  }

  /** The length of the frame recv is working on when the check of the receive window fails. */
  ghost predicate Overruns(me: End) {
    |me.rx| == 1 && me.recvWindow < Size(me.rx[0]) <= me.recvWindow + Pending(me)
  }

  lemma MoveErrs(l: Link, m: Move)
    requires Inv(l) && HeadOk(l) && Can(l, m) && Result(l, m).Failed?
    ensures m.Finish? && Result(l, m).error == RecvWindowExceeded && Overruns(l.me)
  {
    match m
    case Local(a) => LocalMovesSucceed(l, a);
    case Take(admission) => TakesSucceed(l, admission);
    case Finish => FinishFailsOnlyInTheGap(l);
  }

  /** The only error an honest pair can run into is the receive window check, and only in the gap
      between sending a window update and adding its delta. */
  lemma StepErrs(l: Link, s: Step)
    requires OpenerInv(l) && CanStep(l, s) && DoStep(l, s).error.Some?
    ensures s.move.Finish? && DoStep(l, s).error == Some(RecvWindowExceeded)
    ensures Overruns(if s.who.Opener? then l.me else l.peer)
  {
    HeadsOk(l);
    if s.who.Opener? {
      MoveErrs(l, s.move);
    } else {
      MoveErrs(Flip(l), s.move);
    }
  }
}
