/** The two ends of one stream and the frames of that stream on the two wires, as a transition system. */
module YamuxLink {
  import opened Options
  import opened Bytes
  import opened YamuxTypes
  import opened YamuxEnd

  /** Seen from one end: `outgoing` carries frames to the peer, `incoming` carries frames from it.  A frame
      is on a wire from the moment it enters the sender's queue until the receiver's recv takes it. */
  datatype Link = Link(me: End, peer: End, outgoing: seq<Frame>, incoming: seq<Frame>, error: Option<Error>)

  function Flip(l: Link): Link {
    Link(l.peer, l.me, l.incoming, l.outgoing, l.error)
  }

  datatype Move = Local(a: Action) | Take(admission: Admission) | Finish

  /** After an error the session is shut down, and its streams are not followed further. */
  predicate Can(l: Link, m: Move) {
    && l.error.None?
    && match m
       case Local(a) => Enabled(l.me, a)
       case Take(_) => l.me.rx == [] && l.incoming != []
       case Finish => l.me.rx != []
  }

  function Result(l: Link, m: Move): Outcome
    requires Can(l, m)
  {
    match m
    case Local(a) => Apply(l.me, a)
    case Take(admission) => TakeFrame(l.me, l.incoming[0], admission)
    case Finish => FinishFrame(l.me)
  }

  function Do(l: Link, m: Move): Link
    requires Can(l, m)
  {
    match Result(l, m)
    case Failed(error) => l.(error := Some(error))
    case Moved(e, out) =>
      Link(e, l.peer, l.outgoing + out, if m.Take? then l.incoming[1..] else l.incoming, None)
  }

  /** A step of the pair; the link is written as the opener sees it. */
  datatype Step = Step(who: Role, move: Move)

  predicate CanStep(l: Link, s: Step) {
    if s.who.Opener? then Can(l, s.move) else Can(Flip(l), s.move)
  }

  function DoStep(l: Link, s: Step): Link
    requires CanStep(l, s)
  {
    if s.who.Opener? then Do(l, s.move) else Flip(Do(Flip(l), s.move))
  }

  function Start(openerMax: u32, acceptorMax: u32): Link {
    Link(FreshEnd(Opener, openerMax), FreshEnd(Acceptor, acceptorMax), [], [], None)
  }

  /** `steps` can be taken one after the other from `l`. */
  predicate Runs(l: Link, steps: seq<Step>)
    decreases |steps|
  {
    steps == [] || (CanStep(l, steps[0]) && Runs(DoStep(l, steps[0]), steps[1..]))
  }

  function After(l: Link, steps: seq<Step>): Link
    requires Runs(l, steps)
    decreases |steps|
  {
    if steps == [] then l else After(DoStep(l, steps[0]), steps[1..])
  }

  lemma RunsThen(l: Link, s: Step, rest: seq<Step>)
    requires CanStep(l, s) && Runs(DoStep(l, s), rest)
    ensures Runs(l, [s] + rest) && After(l, [s] + rest) == After(DoStep(l, s), rest)
  {
    assert ([s] + rest)[1..] == rest;
  }

  lemma RunsTail(l: Link, steps: seq<Step>)
    requires steps != [] && Runs(l, steps)
    ensures CanStep(l, steps[0]) && Runs(DoStep(l, steps[0]), steps[1..])
    ensures After(l, steps) == After(DoStep(l, steps[0]), steps[1..])
  {
  }

  // ---- what a wire holds ----

  function DataBytes(q: seq<Frame>): nat {
    if q == [] then 0 else Size(q[0]) + DataBytes(q[1..])
  }

  function Deltas(q: seq<Frame>): nat {
    if q == [] then 0 else Grant(q[0]) + Deltas(q[1..])
  }

  function TextOf(f: Frame): seq<byte> {
    if f.Data? then f.payload else []
  }

  function Text(q: seq<Frame>): (t: seq<byte>)
    ensures |t| == DataBytes(q)
  {
    if q == [] then [] else TextOf(q[0]) + Text(q[1..])
  }

  function Fins(q: seq<Frame>): nat {
    if q == [] then 0 else (if q[0].flags.fin then 1 else 0) + Fins(q[1..])
  }

  /** How many payload bytes precede the first FIN. */
  function BytesBeforeFin(q: seq<Frame>): nat {
    if q == [] || q[0].flags.fin then 0 else Size(q[0]) + BytesBeforeFin(q[1..])
  }

  lemma {:induction false} WireAppend(q: seq<Frame>, f: Frame)
    ensures DataBytes(q + [f]) == DataBytes(q) + Size(f)
    ensures Deltas(q + [f]) == Deltas(q) + Grant(f)
    ensures Fins(q + [f]) == Fins(q) + (if f.flags.fin then 1 else 0)
  {
    if q == [] {
      assert q + [f] == [f] && [f][1..] == [];
    } else {
      WireAppend(q[1..], f);
      assert (q + [f])[1..] == q[1..] + [f];
    }
  }

  lemma {:induction false} TextAppend(q: seq<Frame>, f: Frame)
    ensures Text(q + [f]) == Text(q) + TextOf(f)
  {
    if q == [] {
      assert q + [f] == [f] && [f][1..] == [];
      assert Text([f]) == TextOf(f) + [] == TextOf(f);
    } else {
      TextAppend(q[1..], f);
      assert (q + [f])[1..] == q[1..] + [f];
      Regroup(TextOf(q[0]), Text(q[1..]), TextOf(f));
    }
  }

  lemma {:induction false} BeforeFinAppend(q: seq<Frame>, f: Frame)
    ensures BytesBeforeFin(q + [f]) ==
      if Fins(q) > 0 then BytesBeforeFin(q) else DataBytes(q) + (if f.flags.fin then 0 else Size(f))
  {
    if q == [] {
      assert q + [f] == [f] && [f][1..] == [];
    } else {
      BeforeFinAppend(q[1..], f);
      assert (q + [f])[1..] == q[1..] + [f];
    }
  }
}
