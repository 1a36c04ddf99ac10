/** A WebSocket connection: Conn.Read, Conn.Write and Codec.Receive over the frames of HybiFrame. */
module HybiConn {
  import opened Options
  import opened Bytes
  import opened Source
  import opened HybiFrame
  import opened HybiFlow

  // ---- reading one frame ----

  class FrameReader {
    const conn: Reader
    const header: FrameHeader
    var opCode: byte
    var pos: nat    // how much has been unmasked
    var left: int   // what io.LimitReader still lets through

    constructor (conn: Reader, header: FrameHeader)
      ensures this.conn == conn && this.header == header
      ensures opCode == header.opCode && pos == 0 && left == header.length
    {
      this.conn, this.header := conn, header;
      opCode, pos, left := header.opCode, 0, header.length;
    }

    ghost function Size(): nat
      reads this, conn
    {
      BodySize(left, |conn.data|)
    }

    /** The part of the payload that has not been read. */
    ghost function Rest(): (r: seq<byte>)
      reads this, conn
      ensures |r| == Size()
    {
      Mask(conn.data[..Size()], header.key, pos)
    }

    ghost function Behind(): seq<byte>
      reads this, conn
    {
      conn.data[Size()..]
    }

    /** The bytes of `data` are those at the front of `wire`, each xor-ed with the byte of the key that its position
        in the frame selects. */
    ghost predicate Unmasked(data: seq<byte>, wire: seq<byte>, start: nat) {
      && |data| <= |wire|
      && forall i :: 0 <= i < |data| ==>
           data[i] == if header.key.Some? then XorBits(wire[i], header.key.value[(start + i) % 4]) else wire[i]
    }

    /** The exclusive-or loop over the buffer: byte `pos` of the frame meets byte `pos % 4` of the key. */
    method Unmask(msg: array<byte>, n: nat)
      requires n <= msg.Length
      modifies this`pos, msg
      ensures msg[..n] == Mask(old(msg[..n]), header.key, old(pos))
      ensures pos == if header.key.Some? then old(pos) + n else old(pos)
    {
      if header.key.Some? {
        for i := 0 to n
          invariant pos == old(pos) + i
          invariant forall j :: 0 <= j < i ==> msg[j] == MaskByte(old(msg[j]), header.key, old(pos) + j)
          invariant forall j :: i <= j < n ==> msg[j] == old(msg[j])
        {
          msg[i] := Xor(msg[i], header.key.value[pos % 4]);
          pos := pos + 1;
        }
      }
      assert forall j :: 0 <= j < n ==> old(msg[..n])[j] == old(msg[j]);
    }

    method Read(msg: array<byte>) returns (n: nat, eof: bool)
      modifies this`pos, this`left, conn, msg
      ensures n <= msg.Length && |conn.data| + n == |old(conn.data)|
      ensures old(Rest()) == msg[..n] + Rest()
      ensures Unmasked(msg[..n], old(conn.data), old(pos)) && (header.key.Some? ==> pos == old(pos) + n)
      ensures Behind() == old(Behind())
      ensures eof ==> n == 0 && old(Rest()) == [] == Rest()
      ensures n == 0 && msg.Length > 0 ==> eof
    {
      if left <= 0 {
        return 0, true;
      }
      var want := if msg.Length <= left then msg.Length else left;
      if want == 0 {
        return 0, false;
      }
      ghost var k := pos;
      var chunk := conn.Read(want);
      if chunk == [] {
        return 0, true;
      }
      n, eof := |chunk|, false;
      forall i | 0 <= i < n {
        msg[i] := chunk[i];
      }
      assert msg[..n] == chunk;
      left := left - n;
      Unmask(msg, n);
      ghost var tail := conn.data[..Size()];
      assert old(conn.data)[..old(Size())] == chunk + tail;
      MaskSplits(chunk, tail, header.key, k);
      PosMatters(tail, header.key, k + n, pos);
    }

    /** io.ReadFull with a buffer of `max` bytes. */
    method ReadUpTo(max: nat) returns (got: seq<byte>)
      modifies this`pos, this`left, conn
      ensures old(Rest()) == got + Rest()
      ensures |got| == max || (|got| < max && Rest() == [])
      ensures Behind() == old(Behind()) && |conn.data| <= |old(conn.data)|
    {
      got := [];
      while |got| < max
        invariant old(Rest()) == got + Rest() && |got| <= max
        invariant Behind() == old(Behind()) && |conn.data| <= |old(conn.data)|
        decreases max - |got|
      {
        var buf := new byte[max - |got|];
        var n, eof := Read(buf);
        if eof {
          return;
        }
        Regroup(got, buf[..n], Rest());
        got := got + buf[..n];
      }
    }

    /** ioutil.ReadAll, and io.Copy to ioutil.Discard when the result is dropped. */
    method ReadAll() returns (got: seq<byte>)
      modifies this`pos, this`left, conn
      ensures got == old(Rest()) && Rest() == []
      ensures Behind() == old(Behind()) == conn.data && |conn.data| <= |old(conn.data)|
    {
      got := [];
      while true
        invariant old(Rest()) == got + Rest()
        invariant Behind() == old(Behind()) && |conn.data| <= |old(conn.data)|
        decreases |conn.data|
      {
        var buf := new byte[512];
        var n, eof := Read(buf);
        if eof {
          return;
        }
        Regroup(got, buf[..n], Rest());
        got := got + buf[..n];
      }
    }
  }

  /** Without a key the position does not matter. */
  lemma PosMatters(data: seq<byte>, key: Option<Key>, p: nat, q: nat)
    requires key.Some? ==> p == q
    ensures Mask(data, key, p) == Mask(data, key, q)
  {
  }

  // ---- the header of the next frame ----

  lemma LengthStep(field: seq<byte>, b: byte)
    requires |field| < 8
    ensures Uint(field) < I63 && Uint(field + [b]) == Uint(field) * 256 + b < 2 * I63
  {
    UintBound(field);
    Pow256Grows(|field|, 7);
    assert Pow256(8) == 256 * Pow256(7);
    Pow256Values();
    assert (field + [b])[..|field|] == field;
  }

  /** The loop over the bytes of the length field; int64 may come out negative in the last of eight turns. */
  method ReadLength(source: Reader, fields: nat) returns (ok: bool, length: int, ghost field: seq<byte>)
    requires fields <= 8
    modifies source
    ensures ok <==> |old(source.data)| >= fields
    ensures ok ==> |field| == fields && old(source.data) == field + source.data
    ensures ok ==> Uint(field) < 2 * I63 && length == ToInt64(Uint(field))
  {
    length, field := 0, [];
    for i := 0 to fields
      invariant |field| == i && old(source.data) == field + source.data
      invariant Uint(field) < 2 * I63 && length == ToInt64(Uint(field))
    {
      var b := source.ReadByte();
      if b.None? {
        ok := false;
        return;
      }
      LengthStep(field, b.value);
      length := ToInt64(length * 256 + b.value);
      field := field + [b.value];
    }
    ok := true;
  }

  method ReadKey(source: Reader) returns (key: Option<Key>)
    modifies source
    ensures key.None? <==> |old(source.data)| < 4
    ensures key.Some? ==> old(source.data) == key.value + source.data
  {
    var got: seq<byte> := [];
    for i := 0 to 4
      invariant |got| == i && old(source.data) == got + source.data
    {
      var b := source.ReadByte();
      if b.None? {
        return None;
      }
      got := got + [b.value];
    }
    key := Some(got);
  }

  lemma ParseNothing(s: seq<byte>, first: byte, second: byte, rest: seq<byte>)
    requires s == [first, second] + rest
    requires |rest| < FieldsOf(second % 128) + if second >= 128 then 4 else 0
    ensures ParseHeader(s).None?
  {
  }

  method NewFrameReader(source: Reader) returns (frame: FrameReader?)
    modifies source
    ensures frame == null <==> ParseHeader(old(source.data)).None?
    ensures frame != null ==>
              && fresh(frame) && frame.conn == source
              && ParseHeader(old(source.data)) == Some((frame.header, source.data))
              && frame.opCode == frame.header.opCode && frame.pos == 0 && frame.left == frame.header.length
  {
    ghost var before := source.data;
    var b := source.ReadByte();
    if b.None? {
      return null;
    }
    var first := b.value;
    b := source.ReadByte();
    if b.None? {
      return null;
    }
    var second := b.value;
    assert before == [first, second] + source.data;
    ghost var behind := source.data;
    var masked, code := second >= 128, second % 128;
    var lengthFields := if code == 126 then 2 else if code == 127 then 8 else 0;
    var ok, length, field := ReadLength(source, lengthFields);
    if !ok {
      ParseNothing(before, first, second, behind);
      return null;
    }
    if lengthFields == 0 {
      length := code;
    }
    ghost var keyBytes: seq<byte> := [];
    var key: Option<Key> := None;
    if masked {
      key := ReadKey(source);
      if key.None? {
        ParseNothing(before, first, second, behind);
        return null;
      }
      keyBytes := key.value;
    }
    assert before == [first, second] + field + keyBytes + source.data;
    ParseParts(first, second, field, keyBytes, source.data);
    var rsv := (first / 64 % 2 == 1, first / 32 % 2 == 1, first / 16 % 2 == 1);
    frame := new FrameReader(source, FrameHeader(first / 128 % 2 == 1, rsv, first % 16, length, key));
  }

  // ---- the connection ----

  /** The payloads of the pongs among the frames written. */
  function Pongs(fs: seq<Frame>): seq<seq<byte>> {
    if fs == [] then []
    else
      var f := fs[|fs| - 1];
      Pongs(fs[..|fs| - 1]) + if f.header.opCode == PONG then [f.payload] else []
  }

  lemma PongsOneMore(fs: seq<Frame>, f: Frame)
    ensures Pongs(fs + [f]) == Pongs(fs) + if f.header.opCode == PONG then [f.payload] else []
  {
    assert (fs + [f])[..|fs|] == fs;
  }

  lemma FlowOfPing(c: Cut, server: bool, last: byte, sent: seq<seq<byte>>)
    requires c.header.opCode == PING && c.header.key.Some? == server && c.payload != []
    ensures var flow, more := FlowCut(c, server, last), Flow(c.after, server, last);
            && flow.messages == more.messages && flow.ending == more.ending
            && sent + flow.pongs == (sent + [PongFor(c.payload)]) + more.pongs
  {
  }

  /** The status code 1002, protocol error. */
  const PROTOCOL_ERROR: seq<byte> := [3, 234]

  /** One frame as bytes, to go after those of `before`. */
  method PrintFrame(h: FrameHeader, msg: seq<byte>, ghost before: seq<Frame>) returns (out: seq<byte>)
    requires h.length == |msg|
    ensures PrintAll(before + [Frame(h, msg)]) == PrintAll(before) + out
  {
    var o := WriteFrame(h.fin, h.rsv, h.opCode, h.key, msg);
    out := o.value;
    PrintOneMore(before, Frame(h, msg));
  }

  class Conn {
    const source: Reader
    const server: bool
    const keys: nat -> Key      // the masking key drawn for each frame written
    var frame: FrameReader?     // the frame that Read is in the middle of
    var last: byte              // the frame handler's payloadType
    var payloadType: byte
    var wire: seq<byte>         // everything written
    var frames: nat             // how many frames that was
    ghost var written: seq<Frame>

    constructor (source: Reader, server: bool, keys: nat -> Key)
      ensures Valid() && this.source == source && this.server == server && this.keys == keys
      ensures frame == null && last == 0 && payloadType == 1 && written == []
    {
      this.source, this.server, this.keys := source, server, keys;
      frame, last, payloadType, wire, frames, written := null, CONTINUATION, TEXT, [], 0, [];
    }

    ghost predicate Valid()
      reads this
    {
      && (frame != null ==> frame.conn == source)
      && wire == PrintAll(written) && frames == |written|
      && forall i :: 0 <= i < |written| ==> HasHeader(written[i], i)
    }

    /** The header that NewFrameWriter makes for the frame with index `i`. */
    ghost predicate HasHeader(f: Frame, i: nat) {
      && f.header.fin && f.header.rsv == (false, false, false)
      && f.header.key == (if server then None else Some(keys(i)))
    }

    /** What the wire behind the current frame holds. */
    ghost function Ahead(): Flowed
      reads this, source, frame
      requires Valid()
    {
      Flow(if frame == null then source.data else frame.Behind(), server, last)
    }

    /** The bytes that calls of Read are still to return. */
    ghost function Rest(): seq<byte>
      reads this, source, frame
      requires Valid()
    {
      (if frame == null then [] else frame.Rest()) + Text(Ahead().messages)
    }

    /** The pongs written so far, and those still to be written. */
    ghost function AllPongs(): seq<seq<byte>>
      reads this, source, frame
      requires Valid()
    {
      Pongs(written) + Ahead().pongs
    }

    /** What has been written since `before`: pongs, and perhaps one close frame after them. */
    ghost predicate Replied(before: seq<Frame>, closes: bool)
      reads this
    {
      && before <= written
      && |written| - |before| == |Pongs(written)| - |Pongs(before)| + (if closes then 1 else 0)
      && (closes ==>
            && written[|written| - 1].header.opCode == CLOSE
            && written[|written| - 1].payload == PROTOCOL_ERROR)
    }

    /** One frame, from NewFrameWriter to its last byte. */
    method PutFrame(payloadType: byte, msg: seq<byte>) returns (ghost f: Frame)
      requires Valid()
      modifies this`wire, this`written, this`frames
      ensures Valid() && written == old(written) + [f]
      ensures f.payload == msg && f.header.opCode == payloadType
    {
      var key: Option<Key> := if server then None else Some(keys(frames));
      var h := FrameHeader(true, (false, false, false), payloadType, |msg|, key);
      PutBytes(h, msg);
      f := Frame(h, msg);
    }

    method PutBytes(h: FrameHeader, msg: seq<byte>)
      requires Valid() && HasHeader(Frame(h, msg), frames) && h.length == |msg|
      modifies this`wire, this`written, this`frames
      ensures Valid() && written == old(written) + [Frame(h, msg)]
    {
      ghost var f := Frame(h, msg);
      var out := PrintFrame(h, msg, written);
      wire, frames, written := wire + out, frames + 1, written + [f];
      assert forall i :: 0 <= i < |written| ==> written[i] == if i < |written| - 1 then old(written[i]) else f;
    }

    method Write(msg: seq<byte>) returns (n: nat, ghost f: Frame)
      requires Valid()
      modifies this`wire, this`written, this`frames
      ensures Valid() && n == |msg|
      ensures written == old(written) + [f] && f.payload == msg && f.header.opCode == payloadType
    {
      f := PutFrame(payloadType, msg);
      n := |msg|;
    }

    /** The frame handler's branch for pings; io.ReadFull reports EOF when there is no payload at all. */
    method AnswerPing(f: FrameReader) returns (answered: bool)
      requires Valid() && f.conn == source
      modifies this`wire, this`written, this`frames, f, source
      ensures Valid() && answered == (old(f.Rest()) != []) && |source.data| <= |old(source.data)|
      ensures !answered ==> written == old(written)
      ensures answered ==>
                && source.data == old(f.Behind()) && Replied(old(written), false)
                && Pongs(written) == old(Pongs(written)) + [PongFor(old(f.Rest()))]
                && (var ping, f := old(f.Rest()), written[|written| - 1];
                    f.header.opCode == 10 && f.payload == if |ping| <= 125 then ping else ping[..125])
    {
      var pingMsg := f.ReadUpTo(MAX_CONTROL_PAYLOAD);
      if pingMsg == [] {
        return false;
      }
      assert pingMsg == PongFor(old(f.Rest()));
      var _ := f.ReadAll();
      ghost var pong := PutFrame(PONG, pingMsg);
      PongsOneMore(old(written), pong);
      return true;
    }

    /** Clients must mask their frames and servers must not; otherwise the connection is closed. */
    method CheckMask(f: FrameReader) returns (ok: bool)
      requires Valid()
      modifies this`wire, this`written, this`frames
      ensures Valid() && ok == (f.header.key.Some? == server)
      ensures Pongs(written) == old(Pongs(written)) && Replied(old(written), !ok)
      ensures !ok ==> written[|written| - 1].header.opCode == 8 && written[|written| - 1].payload == [3, 234]
    {
      if server {
        if f.header.key.None? {
          ghost var close := PutFrame(CLOSE, PROTOCOL_ERROR);
          PongsOneMore(old(written), close);
          return false;
        }
      } else {
        if f.header.key.Some? {
          ghost var close := PutFrame(CLOSE, PROTOCOL_ERROR);
          PongsOneMore(old(written), close);
          return false;
        }
      }
      ok := true;
    }

    /** The frame handler's switch, for a frame that is masked as it should be. */
    method Dispatch(f: FrameReader) returns (r: FrameReader?, err: Option<Ending>)
      requires Valid() && f.conn == source && f.opCode == f.header.opCode && f.header.key.Some? == server
      modifies this`last, this`wire, this`written, this`frames, f, source
      ensures Valid() && |source.data| <= |old(source.data)| && Replied(old(written), false)
      ensures err.Some? ==> r == null && err != Some(BadMask) && Pongs(written) == old(Pongs(written))
      ensures r != null ==>
                && r == f && err.None? && Pongs(written) == old(Pongs(written))
                && f.Rest() == old(f.Rest()) && f.Behind() == old(f.Behind()) && source.data == old(source.data)
      ensures Handled(old(Cut(f.header, f.Rest(), f.Behind())), old(last), old(Pongs(written)), r, err)
    {
      r, err := null, None;
      ghost var c, was := Cut(f.header, f.Rest(), f.Behind()), Pongs(written);
      if f.opCode == CONTINUATION {
        f.opCode := last;
      } else if f.opCode == TEXT || f.opCode == BINARY {
        last := f.opCode;
      } else if f.opCode == CLOSE {
        return null, Some(CloseSeen);
      } else if f.opCode == PING {
        var answered := AnswerPing(f);
        if answered {
          FlowOfPing(c, server, last, was);
          return null, None;
        }
        return null, Some(EmptyPing);
      } else if f.opCode == PONG {
        return null, Some(PongSeen);
      }
      r := f;
    }

    /** What has become of a frame is what it means: an error that ends the flow, a pong, or a message with
        the rest of the flow behind it. */
    ghost predicate Handled(c: Cut, was: byte, sent: seq<seq<byte>>, r: FrameReader?, err: Option<Ending>)
      reads this, source, r, if r == null then {} else {r.conn}
    {
      var flow := FlowCut(c, server, was);
      if err.Some? then flow == Flowed([], [], err.value)
      else if r == null then
        var more := Flow(source.data, server, last);
        && flow.messages == more.messages && flow.ending == more.ending
        && sent + flow.pongs == Pongs(written) + more.pongs
      else
        var more := Flow(r.Behind(), server, last);
        flow == more.(messages := [Message(r.opCode, r.Rest())] + more.messages)
    }

    /** The frame handler: the frame if it holds data, nothing if it was a ping, or an error. */
    method HandleFrame(f: FrameReader) returns (r: FrameReader?, err: Option<Ending>)
      requires Valid() && f.conn == source && f.opCode == f.header.opCode
      modifies this`last, this`wire, this`written, this`frames, f, source
      ensures Valid() && |source.data| <= |old(source.data)|
      ensures Replied(old(written), err == Some(BadMask))
      ensures err.Some? ==> r == null && Pongs(written) == old(Pongs(written))
      ensures r != null ==>
                && r == f && err.None? && Pongs(written) == old(Pongs(written))
                && f.Rest() == old(f.Rest()) && f.Behind() == old(f.Behind()) && source.data == old(source.data)
      ensures Handled(old(Cut(f.header, f.Rest(), f.Behind())), old(last), old(Pongs(written)), r, err)
    {
      var ok := CheckMask(f);
      if !ok {
        return null, Some(BadMask);
      }
      r, err := Dispatch(f);
    }

    /** NewFrameReader followed by the frame handler. */
    method NextFrame() returns (r: FrameReader?, err: Option<Ending>)
      requires Valid()
      modifies this`last, this`wire, this`written, this`frames, source
      ensures Valid() && Replied(old(written), err == Some(BadMask))
      ensures err.None? ==> |source.data| < |old(source.data)|
      ensures err.Some? ==> r == null && Pongs(written) == old(Pongs(written))
      ensures r != null ==> fresh(r) && r.conn == source
      ensures var flow := old(Flow(source.data, server, last));
              if err.Some? then flow == Flowed([], [], err.value)
              else
                var more := Flow(if r == null then source.data else r.Behind(), server, last);
                && flow.ending == more.ending && old(Pongs(written)) + flow.pongs == Pongs(written) + more.pongs
                && flow.messages == (if r == null then [] else [Message(r.opCode, r.Rest())]) + more.messages
    {
      var f := NewFrameReader(source);
      if f == null {
        return null, Some(EndOfWire);
      }
      r, err := HandleFrame(f);
    }

    /** The half of Conn.Read that looks for the next frame of data. */
    method Advance() returns (err: Option<Ending>)
      requires Valid() && frame == null
      modifies this`frame, this`last, this`wire, this`written, this`frames, source
      ensures Valid() && Replied(old(written), err == Some(BadMask))
      ensures frame != null ==> fresh(frame)
      ensures err.None? ==>
                && |source.data| < |old(source.data)|
                && Rest() == old(Rest()) && AllPongs() == old(AllPongs()) && Ahead().ending == old(Ahead().ending)
      ensures err.Some? ==>
                && frame == null && old(Rest()) == []
                && Pongs(written) == old(AllPongs()) && err.value == old(Ahead().ending)
    {
      frame, err := NextFrame();
      ghost var more := Ahead().messages;
      if frame != null {
        TextCons(Message(frame.opCode, frame.Rest()), more);
      } else {
        assert [] + more == more;
      }
      assert [] + Text(old(Ahead().messages)) == Text(old(Ahead().messages));
    }

    /** The half of Conn.Read that reads from the current frame. */
    method ReadFrame(msg: array<byte>) returns (n: nat, eof: bool)
      requires Valid() && frame != null
      modifies this`frame, frame, source, msg
      ensures Valid() && n <= msg.Length && Ahead() == old(Ahead())
      ensures !eof ==> frame == old(frame) && old(Rest()) == msg[..n] + Rest() && (msg.Length > 0 ==> n > 0)
      ensures eof ==> frame == null && Rest() == old(Rest()) && |source.data| == |old(source.data)|
    {
      n, eof := frame.Read(msg);
      if eof {
        frame := null;
      } else {
        Regroup(msg[..n], frame.Rest(), Text(Ahead().messages));
      }
    }

    /** What calls of Read are still to return, all pongs, and the error at the end. */
    ghost function Outlook(): (seq<byte>, seq<seq<byte>>, Ending)
      reads this, source, frame
      requires Valid()
    {
      (Rest(), AllPongs(), Ahead().ending)
    }

    /** Nothing has changed since `before` but that `chunk` has been returned. */
    ghost predicate Returned(before: (seq<byte>, seq<seq<byte>>, Ending), chunk: seq<byte>)
      reads this, source, frame
      requires Valid()
    {
      before == (chunk + Rest(), AllPongs(), Ahead().ending)
    }

    /** One turn of the loop in Conn.Read. */
    method Turn(msg: array<byte>) returns (done: bool, n: nat, err: Option<Ending>)
      requires Valid()
      modifies this`frame, this`last, this`wire, this`written, this`frames, frame, source, msg
      ensures Valid() && n <= msg.Length && Replied(old(written), err == Some(BadMask))
      ensures frame == old(frame) || frame == null || fresh(frame)
      ensures !done ==>
                && err.None? && Outlook() == old(Outlook())
                && |source.data| <= |old(source.data)|
                && (|source.data| < |old(source.data)| || frame == null != old(frame))
      ensures done && err.None? ==> Returned(old(Outlook()), msg[..n]) && (msg.Length > 0 ==> n > 0)
      ensures done && err.Some? ==> n == 0 && old(Outlook()) == ([], Pongs(written), err.value)
    {
      if frame == null {
        err := Advance();
        return err.Some?, 0, err;
      }
      var eof;
      n, eof := ReadFrame(msg);
      return !eof, n, None;
    }

    /** Conn.Read: the next bytes of data, in the order in which the frames hold them. An error comes only
        when nothing is left to return, and all pings have been answered by then. */
    method Read(msg: array<byte>) returns (n: nat, err: Option<Ending>)
      requires Valid()
      modifies this`frame, this`last, this`wire, this`written, this`frames, frame, source, msg
      ensures Valid() && n <= msg.Length && Replied(old(written), err == Some(BadMask))
      ensures frame == old(frame) || frame == null || fresh(frame)
      ensures err.None? ==> Returned(old(Outlook()), msg[..n]) && (msg.Length > 0 ==> n > 0)
      ensures err.Some? ==> n == 0 && old(Outlook()) == ([], Pongs(written), err.value)
    {
      while true
        invariant Valid() && (frame == old(frame) || frame == null || fresh(frame))
        invariant Outlook() == old(Outlook()) && Replied(old(written), false)
        decreases |source.data|, if frame == null then 0 else 1
      {
        var done;
        done, n, err := Turn(msg);
        if done {
          return;
        }
      }
    }

    /** Codec.Receive: what is left of the current frame is dropped, and the next frame of data is returned
        whole, with its type. */
    method Receive() returns (m: Message, err: Option<Ending>)
      requires Valid()
      modifies this`frame, this`last, this`wire, this`written, this`frames, frame, source
      ensures Valid() && frame == null && Replied(old(written), err == Some(BadMask))
      ensures err.None? ==>
                && old(Ahead().messages) == [m] + Ahead().messages
                && AllPongs() == old(AllPongs()) && Ahead().ending == old(Ahead().ending)
      ensures err.Some? ==>
                && old(Ahead().messages) == []
                && Pongs(written) == old(AllPongs()) && err.value == old(Ahead().ending)
    {
      m, err := Message(0, []), None;
      if frame != null {
        var _ := frame.ReadAll();
        frame := null;
      }
      while true
        invariant Valid() && frame == null && Replied(old(written), false)
        invariant Ahead().messages == old(Ahead().messages)
        invariant AllPongs() == old(AllPongs()) && Ahead().ending == old(Ahead().ending)
        decreases |source.data|
      {
        var f;
        f, err := NextFrame();
        if err.Some? {
          return;
        }
        if f != null {
          var payload := f.ReadAll();
          return Message(f.opCode, payload), None;
        }
      }
    }

    /** Calls of Read with buffers of any sizes, up to the first error. */
    method ReadMany(sizes: seq<nat>) returns (got: seq<byte>, err: Option<Ending>)
      requires Valid()
      modifies this`frame, this`last, this`wire, this`written, this`frames, frame, source
      ensures Valid()
      ensures err.None? ==> Returned(old(Outlook()), got)
      ensures err.Some? ==> old(Outlook()) == (got, Pongs(written), err.value)
    {
      got, err := [], None;
      assert [] + Rest() == Rest();
      for i := 0 to |sizes|
        invariant Valid() && (frame == old(frame) || frame == null || fresh(frame))
        invariant err.None? && Returned(old(Outlook()), got)
      {
        var msg := new byte[sizes[i]];
        var n;
        ghost var before := Rest();
        n, err := Read(msg);
        if err.Some? {
          assert got + before == got;
          return;
        }
        Regroup(got, msg[..n], Rest());
        got := got + msg[..n];
      }
    }
  }
}
