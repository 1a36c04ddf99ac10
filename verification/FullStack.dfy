/** The whole way of a stream frame: through a session's send loop, WebSocket frames, Conn.Read and recv. */
module FullStack {
  import opened Options
  import opened Bytes
  import opened Source
  import opened HybiFrame
  import opened HybiFlow
  import opened HybiConn
  import Yamux = YamuxWire
  import opened YamuxSession
  import opened YamuxHeader

  // ---- on byte sequences ----

  lemma {:induction false} RawsAre(ps: seq<Packet>)
    ensures |Yamux.RawsOf(ps)| == |ps|
    ensures forall i :: 0 <= i < |ps| ==> Yamux.RawsOf(ps)[i] == Yamux.RawOf(ps[i])
  {
    if ps != [] {
      RawsAre(ps[1..]);
      assert forall i :: 0 < i < |ps| ==>
               Yamux.RawsOf(ps)[i] == Yamux.RawsOf(ps[1..])[i - 1] && ps[i] == ps[1..][i - 1];
    }
  }

  lemma RawsDecode(ps: seq<Packet>)
    ensures |Yamux.RawsOf(ps)| == |ps|
    ensures forall i :: 0 <= i < |ps| ==> Yamux.PacketOf(Yamux.RawsOf(ps)[i]) == Some(ps[i])
  {
    RawsAre(ps);
    forall i | 0 <= i < |ps| ensures Yamux.PacketOf(Yamux.RawsOf(ps)[i]) == Some(ps[i]) {
      Yamux.PacketRoundTrip(ps[i]);
    }
  }

  /** However the bytes of the packets were split into WebSocket frames, and whatever pings were sent in
      between, recv finds exactly those packets, and the pings are answered. */
  lemma PacketsCrossTheTunnel(ps: seq<Packet>, fs: seq<Frame>, server: bool, last: byte)
    requires AllPlain(fs, server) && DataOf(fs) == Yamux.EncodeAll(ps)
    ensures var got := Flow(PrintAll(fs), server, last);
            var found := Yamux.ParseAll(Text(got.messages));
            && got.pongs == PongsFor(fs) && found.ending == Yamux.CleanEnd && |found.frames| == |ps|
            && forall i :: 0 <= i < |ps| ==> Yamux.PacketOf(found.frames[i]) == Some(ps[i])
  {
    ReadingFlattens(fs, server, last);
    Yamux.ParseEncodeAll(ps);
    RawsDecode(ps);
  }

  lemma PrefixParses(ps: seq<Packet>, got: seq<byte>)
    requires got <= Yamux.EncodeAll(ps)
    ensures Yamux.PartOf(Yamux.ParseAll(got), ps)
    ensures got == Yamux.EncodeAll(ps) ==> Yamux.ParseAll(got) == Yamux.Parsed(Yamux.RawsOf(ps), Yamux.CleanEnd)
  {
    assert got == Yamux.EncodeAll(ps)[..|got|];
    Yamux.ParsePrefix(ps, |got|);
    Yamux.ParseEncodeAll(ps);
  }

  /** At any time before, recv has found the first of those packets, and perhaps part of one more. */
  lemma PartCrossesTheTunnel(ps: seq<Packet>, fs: seq<Frame>, n: nat, server: bool, last: byte)
    requires AllPlain(fs, server) && DataOf(fs) == Yamux.EncodeAll(ps) && n <= |PrintAll(fs)|
    ensures var found := Yamux.ParseAll(Text(Flow(PrintAll(fs)[..n], server, last).messages));
            && Yamux.PartOf(found, ps)
            && forall i :: 0 <= i < |found.frames| - 1 ==> Yamux.PacketOf(found.frames[i]) == Some(ps[i])
  {
    ReadingFlattens(fs, server, last);
    FlowOfPrefix(PrintAll(fs), n, server, last);
    var got := Text(Flow(PrintAll(fs)[..n], server, last).messages);
    PrefixParses(ps, got);
    PartDecodes(Yamux.ParseAll(got), ps);
  }

  lemma PartDecodes(q: Yamux.Parsed, ps: seq<Packet>)
    requires Yamux.PartOf(q, ps)
    ensures forall i :: 0 <= i < |q.frames| - 1 ==> Yamux.PacketOf(q.frames[i]) == Some(ps[i])
  {
    forall i | 0 <= i < |q.frames| - 1 ensures Yamux.PacketOf(q.frames[i]) == Some(ps[i]) {
      Yamux.PacketRoundTrip(ps[i]);
      assert q.frames[i] == Yamux.RawOf(ps[i]);
    }
  }

  // ---- the two ends as programs ----

  lemma {:induction false} DataOneMore(fs: seq<Frame>, f: Frame)
    requires f.header.opCode != PING
    ensures DataOf(fs + [f]) == DataOf(fs) + f.payload
  {
    if fs == [] {
      assert [] + [f] == [f] && [f][1..] == [];
    } else {
      DataOneMore(fs[1..], f);
      assert (fs + [f])[1..] == fs[1..] + [f] && (fs + [f])[0] == fs[0];
      Regroup(if fs[0].header.opCode == PING then [] else fs[0].payload, DataOf(fs[1..]), f.payload);
    }
  }

  /** A connection that has only been written to, by a session. */
  ghost predicate Carries(conn: Conn, data: seq<byte>)
    reads conn
  {
    conn.Valid() && conn.payloadType == TEXT && AllPlain(conn.written, !conn.server) && DataOf(conn.written) == data
  }

  method WritePiece(conn: Conn, piece: seq<byte>, ghost before: seq<byte>)
    requires Carries(conn, before) && |piece| < I63
    modifies conn`wire, conn`written, conn`frames
    ensures Carries(conn, before + piece)
  {
    var n, f := conn.Write(piece);
    ghost var fs := old(conn.written);
    assert conn.written[..|fs|] == fs && conn.written[|fs|] == f;
    assert conn.HasHeader(f, |fs|);
    DataOneMore(fs, f);
  }

  /** What is on the connection when the header and `n` bytes of the body have been written. */
  ghost function Upto(before: seq<byte>, hdr: seq<byte>, body: seq<byte>, n: nat): seq<byte>
    requires n <= |body|
  {
    before + (hdr + body[..n])
  }

  lemma UptoStep(before: seq<byte>, hdr: seq<byte>, body: seq<byte>, n: nat, k: nat)
    requires n + k <= |body|
    ensures Upto(before, hdr, body, n + k) == Upto(before, hdr, body, n) + body[n..n + k]
  {
    assert body[..n + k] == body[..n] + body[n..n + k];
  }

  lemma UptoEnds(before: seq<byte>, hdr: seq<byte>, body: seq<byte>)
    ensures Upto(before, hdr, body, 0) == before + hdr
    ensures Upto(before, hdr, body, |body|) == before + (hdr + body)
  {
    assert hdr + body[..0] == hdr;
    assert body[..|body|] == body;
  }

  /** One turn of the send loop: the header, then the body in pieces of any size. */
  method Send(conn: Conn, p: Packet, ghost before: seq<byte>)
    requires Carries(conn, before)
    modifies conn`wire, conn`written, conn`frames
    ensures Carries(conn, before + Yamux.EncodePacket(p))
  {
    var hdr, body := Encode(Yamux.HeaderOf(p)), Yamux.BodyOf(p);
    UptoEnds(before, hdr, body);
    WritePiece(conn, hdr, before);
    SendBody(conn, body, before, hdr);
  }

  method SendBody(conn: Conn, body: seq<byte>, ghost before: seq<byte>, ghost hdr: seq<byte>)
    requires |body| < I63 && Carries(conn, Upto(before, hdr, body, 0))
    modifies conn`wire, conn`written, conn`frames
    ensures Carries(conn, Upto(before, hdr, body, |body|))
  {
    var sent := 0;
    while sent < |body|
      invariant sent <= |body| && Carries(conn, Upto(before, hdr, body, sent))
    {
      var k :| 1 <= k <= |body| - sent;
      UptoStep(before, hdr, body, sent, k);
      WritePiece(conn, body[sent..sent + k], Upto(before, hdr, body, sent));
      sent := sent + k;
    }
  }

  method SendAll(conn: Conn, ps: seq<Packet>)
    requires Carries(conn, [])
    modifies conn`wire, conn`written, conn`frames
    ensures Carries(conn, Yamux.EncodeAll(ps))
  {
    for i := 0 to |ps|
      invariant Carries(conn, Yamux.EncodeAll(ps[..i]))
    {
      EncodeUpto(ps, i);
      Send(conn, ps[i], Yamux.EncodeAll(ps[..i]));
    }
    assert ps[..|ps|] == ps;
  }

  lemma {:induction false} EncodeOneMore(ps: seq<Packet>, p: Packet)
    ensures Yamux.EncodeAll(ps + [p]) == Yamux.EncodeAll(ps) + Yamux.EncodePacket(p)
  {
    if ps == [] {
      assert [] + [p] == [p] && [p][1..] == [];
    } else {
      EncodeOneMore(ps[1..], p);
      assert (ps + [p])[1..] == ps[1..] + [p] && (ps + [p])[0] == ps[0];
      Regroup(Yamux.EncodePacket(ps[0]), Yamux.EncodeAll(ps[1..]), Yamux.EncodePacket(p));
    }
  }

  lemma EncodeUpto(ps: seq<Packet>, i: nat)
    requires i < |ps|
    ensures Yamux.EncodeAll(ps[..i + 1]) == Yamux.EncodeAll(ps[..i]) + Yamux.EncodePacket(ps[i])
  {
    EncodeOneMore(ps[..i], ps[i]);
    assert ps[..i] + [ps[i]] == ps[..i + 1];
  }

  /** One session writes packets to its connection, and the session at the other end reads with buffers of
      any sizes: it has part of those packets, or all of them once it meets the end. */
  method Tunnel(ps: seq<Packet>, server: bool, keys: nat -> Key, sizes: seq<nat>) returns (got: seq<byte>, ended: bool)
    ensures got <= Yamux.EncodeAll(ps)
    ensures Yamux.PartOf(Yamux.ParseAll(got), ps)
    ensures ended ==> Yamux.ParseAll(got) == Yamux.Parsed(Yamux.RawsOf(ps), Yamux.CleanEnd)
  {
    var nothing := new Reader([]);
    var sender := new Conn(nothing, !server, keys);
    SendAll(sender, ps);
    var wire := new Reader(sender.wire);
    var receiver := new Conn(wire, server, keys);
    ReadingFlattens(sender.written, server, CONTINUATION);
    assert receiver.Rest() == [] + Yamux.EncodeAll(ps) == Yamux.EncodeAll(ps);
    var err;
    got, err := receiver.ReadMany(sizes);
    ended := err.Some?;
    PrefixParses(ps, got);
  }

  // ---- the recv loop on top of Conn.Read ----

  /** The session's bufio.Reader on its WebSocket connection. */
  class Buffered {
    const conn: Conn
    var ahead: seq<byte>   // read from the connection and not yet handed out
    var stopped: bool      // Conn.Read has reported an error

    constructor (conn: Conn)
      ensures this.conn == conn && ahead == [] && !stopped
    {
      this.conn, ahead, stopped := conn, [], false;
    }

    /** What reads are still to return. */
    ghost function Left(): seq<byte>
      reads this, conn, conn.source, conn.frame
      requires conn.Valid()
    {
      if stopped then ahead else ahead + conn.Rest()
    }

    /** One Conn.Read with the whole buffer. */
    method Fill()
      requires conn.Valid() && ahead == [] && !stopped
      modifies this, conn`frame, conn`last, conn`wire, conn`written, conn`frames, conn.frame, conn.source
      ensures conn.Valid() && Left() == old(Left()) && (stopped || ahead != [])
      ensures conn.frame == old(conn.frame) || conn.frame == null || fresh(conn.frame)
    {
      var buf := new byte[4096];
      var n, err := conn.Read(buf);
      if err.Some? {
        stopped := true;
      } else {
        ahead := buf[..n];
      }
    }

    /** Hands out what is there, up to `n` bytes. */
    method TakeAhead(n: nat) returns (chunk: seq<byte>)
      requires conn.Valid() && ahead != [] && n > 0
      modifies this`ahead
      ensures old(Left()) == chunk + Left() && 0 < |chunk| <= n
    {
      var k := if n <= |ahead| then n else |ahead|;
      ghost var rest := conn.Rest();
      SplitAhead(ahead, k, rest);
      chunk, ahead := ahead[..k], ahead[k..];
      assert conn.Rest() == rest;
    }

    /** io.ReadFull, and io.CopyN for a body. */
    method ReadUpTo(n: nat) returns (got: seq<byte>)
      requires conn.Valid()
      modifies this, conn`frame, conn`last, conn`wire, conn`written, conn`frames, conn.frame, conn.source
      ensures conn.Valid() && old(Left()) == got + Left()
      ensures |got| == n || (|got| < n && Left() == [])
      ensures conn.frame == old(conn.frame) || conn.frame == null || fresh(conn.frame)
    {
      got := [];
      assert [] + Left() == Left();
      while |got| < n && !(stopped && ahead == [])
        invariant conn.Valid() && |got| <= n && old(Left()) == got + Left()
        invariant conn.frame == old(conn.frame) || conn.frame == null || fresh(conn.frame)
        decreases n - |got|, !stopped, if ahead == [] then 1 else 0
      {
        if ahead == [] {
          Fill();
        } else {
          var chunk := TakeAhead(n - |got|);
          Regroup(got, chunk, Left());
          got := got + chunk;
        }
      }
    }
  }

  lemma SplitAhead(ahead: seq<byte>, k: nat, rest: seq<byte>)
    requires k <= |ahead|
    ensures ahead + rest == ahead[..k] + (ahead[k..] + rest)
    ensures ahead == ahead[..k] + ahead[k..]
  {
  }

  method RecvFrame(b: Buffered) returns (r: Option<Yamux.Raw>, ending: Option<Yamux.Ending>)
    requires b.conn.Valid()
    modifies b, b.conn`frame, b.conn`last, b.conn`wire, b.conn`written, b.conn`frames, b.conn.frame, b.conn.source
    ensures b.conn.Valid() && Yamux.Turned(old(b.Left()), r, ending, b.Left())
    ensures b.conn.frame == old(b.conn.frame) || b.conn.frame == null || fresh(b.conn.frame)
  {
    ghost var before := b.Left();
    var hdr := b.ReadUpTo(HEADER_SIZE);
    match Yamux.BeginningOf(hdr) {
      case Ends(e) =>
        Yamux.NoFrame(before, hdr, b.Left());
        return None, Some(e);
      case Begins(h) =>
        var body := b.ReadUpTo(Yamux.BodyLength(h));
        if |body| < Yamux.BodyLength(h) {
          assert body + [] == body;
          Yamux.CutFrame(before, hdr, body);
          return Some(Yamux.Raw(h, body)), Some(Yamux.CutShort);
        }
        Yamux.OneFrame(before, hdr, body, b.Left());
        return Some(Yamux.Raw(h, body)), None;
    }
  }

  /** One turn of the loop: a frame is read and handled. */
  method Turn(b: Buffered, receiver: Yamux.Receiver) returns (s: Option<Yamux.Stop>)
    requires b.conn.Valid() && receiver.Expects(Yamux.ParseAll(b.Left()))
    modifies receiver`log, receiver`done
    modifies b, b.conn`frame, b.conn`last, b.conn`wire, b.conn`written, b.conn`frames, b.conn.frame, b.conn.source
    ensures b.conn.Valid() && (b.conn.frame == old(b.conn.frame) || b.conn.frame == null || fresh(b.conn.frame))
    ensures if s.None? then |b.Left()| < old(|b.Left()|) && receiver.Expects(Yamux.ParseAll(b.Left()))
            else Yamux.Received(receiver.log, s.value, receiver.all, receiver.hs)
  {
    ghost var before := b.Left();
    var r, e := RecvFrame(b);
    s := receiver.Account(r, e, before, b.Left());
  }

  /** recv as it is in this program: over a buffered WebSocket connection, with short reads at every level. */
  method Recv(conn: Conn, hs: Yamux.Handlers) returns (log: seq<Yamux.Handled>, stop: Yamux.Stop)
    requires conn.Valid()
    modifies conn`frame, conn`last, conn`wire, conn`written, conn`frames, conn.frame, conn.source
    ensures conn.Valid() && Yamux.Received(log, stop, Yamux.ParseAll(old(conn.Rest())), hs)
  {
    var b := new Buffered(conn);
    ghost var all := Yamux.ParseAll(conn.Rest());
    assert b.Left() == [] + conn.Rest() == conn.Rest();
    var receiver := new Yamux.Receiver(hs, all);
    while true
      invariant fresh(b) && fresh(receiver) && b.conn == conn && conn.Valid()
      invariant conn.frame == old(conn.frame) || conn.frame == null || fresh(conn.frame)
      invariant receiver.hs == hs && receiver.all == all
      invariant receiver.Expects(Yamux.ParseAll(b.Left()))
      decreases |b.Left()|
    {
      var s := Turn(b, receiver);
      if s.Some? {
        return receiver.log, s.value;
      }
    }
  }

  /** A session that has every stream and whose handlers do not fail. */
  ghost predicate Willing(hs: Yamux.Handlers) {
    && (forall before, id :: hs.known(before, id))
    && (forall before, r :: !hs.fails(before, r))
  }

  /** Every packet has reached its handler: with its payload if it holds data, and without a body otherwise. */
  predicate AllDelivered(log: seq<Yamux.Handled>, ps: seq<Packet>) {
    && |log| == |ps|
    && forall i :: 0 <= i < |ps| ==>
         && log[i].Delivered?
         && log[i].body == (if ps[i].OnStream? && ps[i].frame.Data? then ps[i].frame.payload else [])
         && Yamux.PacketOf(Yamux.Raw(log[i].header, log[i].body)) == Some(ps[i])
  }

  lemma WillingDeliver(log: seq<Yamux.Handled>, stop: Yamux.Stop, ps: seq<Packet>, hs: Yamux.Handlers)
    requires Yamux.Received(log, stop, Yamux.Parsed(Yamux.RawsOf(ps), Yamux.CleanEnd), hs) && Willing(hs)
    ensures stop == Yamux.AtEnd(Yamux.CleanEnd) && AllDelivered(log, ps)
  {
    var raws := Yamux.RawsOf(ps);
    RawsAre(ps);
    assert raws[..|log|] == raws;
    forall i | 0 <= i < |ps| ensures Yamux.PacketOf(Yamux.RawOf(ps[i])) == Some(ps[i]) {
      Yamux.PacketRoundTrip(ps[i]);
    }
    forall i | 0 <= i < |ps| ensures log[i] == Yamux.Delivered(raws[i].header, raws[i].body) {
      assert Yamux.HandledAs(log[i], raws[i], raws[..i], hs);
    }
  }

  /** The whole way as one program: one session's send loop writes packets, the other's recv loop reads them
      through its connection. It handles all of them, unless a handler fails. */
  method SendAndReceive(ps: seq<Packet>, server: bool, keys: nat -> Key, hs: Yamux.Handlers)
    returns (log: seq<Yamux.Handled>, stop: Yamux.Stop)
    ensures Yamux.Received(log, stop, Yamux.Parsed(Yamux.RawsOf(ps), Yamux.CleanEnd), hs)
    ensures Willing(hs) ==> stop == Yamux.AtEnd(Yamux.CleanEnd) && AllDelivered(log, ps)
  {
    var nothing := new Reader([]);
    var sender := new Conn(nothing, !server, keys);
    SendAll(sender, ps);
    var wire := new Reader(sender.wire);
    var receiver := new Conn(wire, server, keys);
    ReadingFlattens(sender.written, server, CONTINUATION);
    assert receiver.Rest() == [] + Yamux.EncodeAll(ps) == Yamux.EncodeAll(ps);
    Yamux.ParseEncodeAll(ps);
    log, stop := Recv(receiver, hs);
    if Willing(hs) {
      WillingDeliver(log, stop, ps, hs);
    }
  }
}
