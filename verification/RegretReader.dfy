/** A reader that can push back what has been read since a mark. */
module RegretReader {
  import opened Options
  import opened Bytes
  import opened Source

  // ---- what the documentation promises: a position and a mark on one stream ----

  datatype Cursor = Cursor(mark: nat, pos: nat)

  datatype Event = Got(chunk: seq<byte>) | Regretted | Forgot

  function Moved(stream: seq<byte>, c: Cursor, e: Event): Option<Cursor> {
    match e
    case Got(chunk) =>
      var next := c.pos + |chunk|;
      if next <= |stream| && stream[c.pos..next] == chunk then Some(Cursor(c.mark, next)) else None
    case Regretted => Some(Cursor(c.mark, c.mark))
    case Forgot => Some(Cursor(c.pos, c.pos))
  }

  /** Where a cursor that starts at the beginning is after `events`, or None if they do not fit the stream. */
  function Replay(stream: seq<byte>, events: seq<Event>): Option<Cursor> {
    if events == [] then Some(Cursor(0, 0))
    else
      match Replay(stream, events[..|events| - 1])
      case None => None
      case Some(c) => Moved(stream, c, events[|events| - 1])
  }

  lemma ReplayOneMore(stream: seq<byte>, events: seq<Event>, e: Event)
    requires Replay(stream, events).Some?
    ensures Replay(stream, events + [e]) == Moved(stream, Replay(stream, events).value, e)
  {
    assert (events + [e])[..|events|] == events;
  }

  lemma After(stream: seq<byte>, from: nat, a: seq<byte>, b: seq<byte>)
    requires from <= |stream| && stream[from..] == a + b
    ensures from + |a| <= |stream| && stream[from..from + |a|] == a && stream[from + |a|..] == b
  {
    assert stream[from..][..|a|] == a && stream[from..][|a|..] == b;
  }

  lemma Within(stream: seq<byte>, from: nat, a: seq<byte>, b: seq<byte>, i: nat, j: nat)
    requires from <= |stream| && stream[from..] == a + b && i <= j <= |a|
    ensures from + |a| <= |stream| && stream[from + i..from + j] == a[i..j]
  {
    assert stream[from + i..from + j] == stream[from..][i..j] == (a + b)[i..j] == a[i..j];
  }

  class RegretableReader {
    const reader: FallibleReader
    const buf: array<byte>
    var overflow: bool
    var r: nat
    var w: nat

    ghost const stream: seq<byte>   // everything the underlying reader holds
    ghost var mark: nat             // where in it the first buffered byte stands
    ghost var pos: nat              // where the next byte to return stands

    ghost predicate Valid()
      reads this, reader, buf
    {
      && w <= buf.Length && mark <= |stream| && pos <= |stream|
      && (overflow ==> stream[pos..] == reader.data)
      && (!overflow ==> r <= w && pos == mark + r && stream[mark..] == buf[..w] + reader.data)
    }

    constructor (reader: FallibleReader, size: nat)
      ensures Valid() && stream == reader.data && mark == pos == 0 && !overflow
      ensures this.reader == reader && fresh(buf) && buf.Length == size && r == w == 0
    {
      this.reader := reader;
      buf := new byte[size];
      overflow, r, w := false, 0, 0;
      stream, mark, pos := reader.data, 0, 0;
      new;
      assert stream[0..] == stream == [] + stream;
    }

    /** Puts as much of `chunk` into the buffer as it has room for. */
    method Keep(chunk: seq<byte>)
      requires w <= buf.Length
      modifies this`r, this`w, this`overflow, buf
      ensures r == old(w) + |chunk| && w == (if r <= buf.Length then r else buf.Length)
      ensures overflow == (old(overflow) || r > buf.Length)
      ensures r <= buf.Length ==> buf[..w] == old(buf[..w]) + chunk
    {
      var n := |chunk|;
      var bn := if n <= buf.Length - w then n else buf.Length - w;
      forall i | 0 <= i < bn {
        buf[w + i] := chunk[i];
      }
      assert buf[..w + bn] == old(buf[..w]) + chunk[..bn];
      w, r := w + bn, w + n;
      if bn < n {
        overflow := true;
      }
    }

    method ReadBuffered(p: array<byte>) returns (n: nat)
      requires Valid() && p != buf && !overflow && r < w
      modifies this`r, this`pos, p
      ensures Valid() && n <= p.Length && r <= w
      ensures pos == old(pos) + n && p[..n] == stream[old(pos)..pos]
      ensures n == if p.Length <= old(w) - old(r) then p.Length else old(w) - old(r)
    {
      ghost var kept := buf[..w];
      n := if p.Length <= w - r then p.Length else w - r;
      forall i | 0 <= i < n {
        p[i] := buf[r + i];
      }
      assert forall i :: 0 <= i < n ==> p[i] == kept[r + i];
      assert buf[..w] == kept;
      assert p[..n] == kept[r..r + n];
      Within(stream, mark, kept, reader.data, r, r + n);
      assert p[..n] == stream[pos..pos + n];
      r, pos := r + n, pos + n;
    }

    method ReadAndKeep(p: array<byte>) returns (n: nat, failed: bool)
      requires Valid() && p != buf && !overflow && r == w
      modifies this`r, this`w, this`overflow, this`pos, reader, buf, p
      ensures Valid() && n <= p.Length
      ensures pos == old(pos) + n && p[..n] == stream[old(pos)..pos]
      ensures n == 0 ==> failed || p.Length == 0 || old(pos) == |stream|
      ensures overflow == (old(w) + n > buf.Length) && (!overflow ==> w == old(w) + n)
      ensures reader.calls == old(reader.calls) + [Call(p.Length, n, failed)] && (reader.reliable ==> !failed)
    {
      ghost var kept := buf[..w];
      n, failed := reader.Read(p);
      var chunk := p[..n];
      assert stream[mark..] == (kept + chunk) + reader.data;
      Within(stream, mark, kept + chunk, reader.data, w, w + n);
      After(stream, mark, kept + chunk, reader.data);
      assert buf[..w] == kept;
      Keep(chunk);
      pos := pos + n;
    }

    /** Read moves the position forward over bytes of the stream, whether they come from the buffer or not,
        and no matter whether the buffer has overflowed. What is buffered is returned as far as it fits; otherwise
        there is just one Read of the underlying reader, with the same room, whose count and error are passed on. */
    method Read(p: array<byte>) returns (n: nat, failed: bool)
      requires Valid() && p != buf
      modifies this`r, this`w, this`overflow, this`pos, reader, buf, p
      ensures Valid() && n <= p.Length
      ensures pos == old(pos) + n && p[..n] == stream[old(pos)..pos]
      ensures n == 0 ==> failed || p.Length == 0 || old(pos) == |stream|
      ensures if !old(overflow) && old(r) < old(w) then
                && !failed && reader.calls == old(reader.calls)
                && n == if p.Length <= old(w) - old(r) then p.Length else old(w) - old(r)
              else
                reader.calls == old(reader.calls) + [Call(p.Length, n, failed)] && (reader.reliable ==> !failed)
      ensures overflow == (old(overflow) || (old(r) == old(w) && old(w) + n > buf.Length))
      ensures !overflow ==> w == if old(r) < old(w) then old(w) else old(w) + n
    {
      if overflow {
        n, failed := reader.Read(p);
        After(stream, pos, p[..n], reader.data);
        pos := pos + n;
        return;
      }
      if r < w {
        n := ReadBuffered(p);
        return n, false;
      }
      n, failed := ReadAndKeep(p);
    }

    /** The next Read starts from the mark. After an overflow the original panics. */
    method Regret() returns (ok: bool)
      requires Valid()
      modifies this`r, this`pos
      ensures Valid() && ok == !overflow && pos == if ok then mark else old(pos)
    {
      if overflow {
        return false;
      }
      r, pos := 0, mark;
      return true;
    }

    /** The mark moves to the furthest position that was read, and the position with it. Just what was read is
        forgotten exactly when nothing that was regretted is left unread. */
    method Forget() returns (ok: bool)
      requires Valid()
      modifies this`r, this`w, this`mark, this`pos
      ensures Valid() && ok == !overflow
      ensures if ok then pos == mark == old(mark + w) else pos == old(pos) && mark == old(mark)
      ensures ok ==> (pos == old(pos) <==> old(r) == old(w))
    {
      if overflow {
        return false;
      }
      After(stream, mark, buf[..w], reader.data);
      mark := mark + w;
      r, w, pos := 0, 0, mark;
      assert buf[..w] + reader.data == reader.data;
      return true;
    }

    method Do(op: Op) returns (e: Event)
      requires Valid() && (op.Read? || !overflow) && (op.Forget? ==> r == w)
      modifies this`r, this`w, this`overflow, this`mark, this`pos, reader, buf
      ensures Valid() && Fits(e, op)
      ensures Moved(stream, old(Cursor(mark, pos)), e) == Some(Cursor(mark, pos))
      ensures reader.reliable && e == Got([]) ==> op.size == 0 || old(pos) == |stream|
    {
      match op
      case Read(size) =>
        var p := new byte[size];
        var n, failed := Read(p);
        e := Got(p[..n]);
      case Regret =>
        var _ := this.Regret();
        e := Regretted;
      case Forget =>
        var _ := this.Forget();
        e := Forgot;
    }

    /** Calls in any order, up to one that the documentation leaves no answer for: Regret or Forget after an
        overflow, and Forget with regretted bytes unread. All before it do what a cursor does; and if the underlying
        reader does not fail, reads that had room return nothing only at the end of the stream. */
    method Run(ops: seq<Op>) returns (events: seq<Event>)
      requires Valid() && mark == 0 && pos == 0
      modifies this`r, this`w, this`overflow, this`mark, this`pos, reader, buf
      ensures Valid() && Replay(stream, events) == Some(Cursor(mark, pos)) && AllFit(events, ops)
      ensures reader.reliable ==> EmptyOnlyAtEnd(stream, events, ops)
      ensures |events| < |ops| ==> !ops[|events|].Read? && (overflow || (ops[|events|].Forget? && r < w))
    {
      events := [];
      while |events| < |ops|
        invariant Valid() && Replay(stream, events) == Some(Cursor(mark, pos)) && AllFit(events, ops)
        invariant reader.reliable ==> EmptyOnlyAtEnd(stream, events, ops)
        decreases |ops| - |events|
      {
        var op := ops[|events|];
        if !op.Read? && (overflow || (op.Forget? && r < w)) {
          return;
        }
        var e := Do(op);
        ReplayOneMore(stream, events, e);
        if reader.reliable {
          EmptyOneMore(stream, events, ops, e);
        }
        events := events + [e];
      }
    }
  }

  datatype Op = Read(size: nat) | Regret | Forget

  predicate Fits(e: Event, op: Op) {
    match op
    case Read(size) => e.Got? && |e.chunk| <= size
    case Regret => e.Regretted?
    case Forget => e.Forgot?
  }

  predicate AllFit(events: seq<Event>, ops: seq<Op>) {
    |events| <= |ops| && forall i :: 0 <= i < |events| ==> Fits(events[i], ops[i])
  }

  /** Where a Read of this history that had room returned nothing, the stream had come to its end. */
  predicate EmptyOnlyAtEnd(stream: seq<byte>, events: seq<Event>, ops: seq<Op>)
    requires AllFit(events, ops)
  {
    forall i :: 0 <= i < |events| && events[i] == Got([]) ==>
      ops[i].size == 0 || (Replay(stream, events[..i]).Some? && Replay(stream, events[..i]).value.pos == |stream|)
  }

  lemma EmptyOneMore(stream: seq<byte>, events: seq<Event>, ops: seq<Op>, e: Event)
    requires AllFit(events, ops) && |events| < |ops| && Fits(e, ops[|events|]) && EmptyOnlyAtEnd(stream, events, ops)
    requires Replay(stream, events).Some?
    requires e == Got([]) ==> ops[|events|].size == 0 || Replay(stream, events).value.pos == |stream|
    ensures AllFit(events + [e], ops) && EmptyOnlyAtEnd(stream, events + [e], ops)
  {
    var more := events + [e];
    assert more[..|events|] == events;
    forall i | 0 <= i < |events| ensures more[i] == events[i] && more[..i] == events[..i] {
      assert more[..i] == events[..i];
    }
  }

  /** Reading one byte of 1, 2, 3, regretting and forgetting it loses it, although nothing counts as read. */
  method ForgetAfterRegretLoses() returns (before: seq<byte>, after: seq<byte>)
    ensures before == [1] && after == [2]
  {
    var source := new FallibleReader([1, 2, 3], true);
    var rb := new RegretableReader(source, 500);
    var p := new byte[1];
    var n, failed := rb.Read(p);
    before := p[..n];
    var _ := rb.Regret();
    var _ := rb.Forget();
    n, failed := rb.Read(p);
    after := p[..n];
  }
}
