/** Chunked transfer coding (section 4.1 of RFC 7230), as the proxy writes it for responses of unknown length. */
module ChunkedWriter {
  import opened Options
  import opened Bytes

  const CRLF: seq<byte> := [13, 10]
  const LAST_CHUNK: seq<byte> := [48, 13, 10]

  // ---- writing ----

  function Digit(d: nat): byte
    requires d < 16
  {
    if d < 10 then 48 + d else 87 + d
  }

  /** strconv.FormatInt with base 16. */
  function Hex(n: nat): (s: seq<byte>)
    ensures |s| > 0
  {
    if n < 16 then [Digit(n)] else Hex(n / 16) + [Digit(n % 16)]
  }

  function Head(size: nat): seq<byte> {
    Hex(size) + CRLF
  }

  /** What a Write that succeeds puts on the wire: nothing for no data, which would read as the end. */
  function Chunk(data: seq<byte>): seq<byte> {
    if data == [] then [] else Head(|data|) + data + CRLF
  }

  function Chunks(writes: seq<seq<byte>>): seq<byte> {
    if writes == [] then [] else Chunks(writes[..|writes| - 1]) + Chunk(writes[|writes| - 1])
  }

  function Body(writes: seq<seq<byte>>): seq<byte> {
    Chunks(writes) + (LAST_CHUNK + CRLF)
  }

  function Flatten(writes: seq<seq<byte>>): seq<byte> {
    if writes == [] then [] else Flatten(writes[..|writes| - 1]) + writes[|writes| - 1]
  }

  /** The digits are those of the standard, in lower case, and none of them is a leading zero. */
  lemma {:induction false} HexIsPlain(n: nat)
    ensures forall i :: 0 <= i < |Hex(n)| ==> 48 <= Hex(n)[i] <= 57 || 97 <= Hex(n)[i] <= 102
    ensures n > 0 ==> Hex(n)[0] != 48
  {
    if n >= 16 {
      HexIsPlain(n / 16);
    }
  }

  /** Three bodies byte by byte: none of them depends on anything but the standard. */
  lemma BodiesAre(b: byte, data: seq<byte>)
    requires |data| == 26
    ensures Body([]) == [48, 13, 10, 13, 10]
    ensures Body([[b]]) == [49, 13, 10, b, 13, 10, 48, 13, 10, 13, 10]
    ensures Chunk(data) == [49, 97, 13, 10] + data + [13, 10]
  {
    assert Hex(26) == [49, 97] && Hex(1) == [49];
    assert Chunks([[b]]) == [] + Chunk([b]) == [49, 13, 10, b, 13, 10];
    assert Chunks([]) == [];
  }

  // ---- reading, as the standard has it, without extensions and trailer fields ----

  predicate IsHexDigit(b: byte) {
    48 <= b <= 57 || 65 <= b <= 70 || 97 <= b <= 102
  }

  function DigitValue(b: byte): (d: nat)
    requires IsHexDigit(b)
    ensures d < 16
  {
    if b <= 57 then b - 48 else if b <= 70 then b - 55 else b - 87
  }

  predicate AllHex(s: seq<byte>) {
    forall i :: 0 <= i < |s| ==> IsHexDigit(s[i])
  }

  function HexValue(s: seq<byte>): nat
    requires AllHex(s)
  {
    if s == [] then 0 else 16 * HexValue(s[..|s| - 1]) + DigitValue(s[|s| - 1])
  }

  /** How many hexadecimal digits `s` starts with. */
  function HexRun(s: seq<byte>): (k: nat)
    ensures k <= |s| && AllHex(s[..k])
    ensures k < |s| ==> !IsHexDigit(s[k])
  {
    if s == [] || !IsHexDigit(s[0]) then 0
    else
      var k := HexRun(s[1..]);
      assert s[..1 + k] == [s[0]] + s[1..][..k];
      1 + k
  }

  /** The size line of a chunk, and what follows it. */
  function ParseHead(s: seq<byte>): (h: Option<(nat, seq<byte>)>)
    ensures h.Some? ==> |h.value.1| + 3 <= |s|
  {
    var k := HexRun(s);
    if k > 0 && CRLF <= s[k..] then Some((HexValue(s[..k]), s[k + 2..])) else None
  }

  /** The data of the next chunk, and what follows it. The last chunk has no data; the line that ends the
      trailer stands where other chunks have the end of their data. */
  function ParseChunk(s: seq<byte>): (c: Option<(seq<byte>, seq<byte>)>)
    ensures c.Some? ==> |c.value.0| + |c.value.1| < |s|
  {
    match ParseHead(s)
    case None => None
    case Some((size, rest)) =>
      if |rest| >= size + 2 && rest[size..size + 2] == CRLF then Some((rest[..size], rest[size + 2..])) else None
  }

  /** The data of a chunked body and the bytes that follow it, or None if `s` is no complete body. */
  function Decode(s: seq<byte>): (r: Option<(seq<byte>, seq<byte>)>)
    ensures r.Some? ==> |r.value.1| <= |s|
    decreases |s|
  {
    match ParseChunk(s)
    case None => None
    case Some((data, after)) =>
      if data == [] then Some(([], after))
      else
        match Decode(after)
        case None => None
        case Some((more, end)) => Some((data + more, end))
  }

  // ---- the round trip ----

  lemma {:induction false} HexRoundTrip(n: nat)
    ensures AllHex(Hex(n)) && HexValue(Hex(n)) == n
  {
    if n < 16 {
      assert [Digit(n)][..0] == [];
    } else {
      HexRoundTrip(n / 16);
      var s := Hex(n);
      assert s[..|s| - 1] == Hex(n / 16);
    }
  }

  lemma {:induction false} RunEnds(digits: seq<byte>, rest: seq<byte>)
    requires AllHex(digits) && (rest == [] || !IsHexDigit(rest[0]))
    ensures HexRun(digits + rest) == |digits|
  {
    if digits == [] {
      assert digits + rest == rest;
    } else {
      RunEnds(digits[1..], rest);
      assert (digits + rest)[1..] == digits[1..] + rest;
    }
  }

  lemma HeadParses(size: nat, rest: seq<byte>)
    ensures ParseHead(Head(size) + rest) == Some((size, rest))
  {
    var h := Hex(size);
    HexRoundTrip(size);
    RunEnds(h, CRLF + rest);
    assert Head(size) + rest == h + (CRLF + rest);
    assert (h + (CRLF + rest))[..|h|] == h;
    assert (h + (CRLF + rest))[|h|..] == CRLF + rest;
  }

  /** One chunk comes back as its data, whatever the data looks like. */
  lemma ChunkDecodes(data: seq<byte>, rest: seq<byte>)
    ensures var d := Decode(rest);
            Decode(Chunk(data) + rest) == if d.None? then None else Some((data + d.value.0, d.value.1))
  {
    if data == [] {
      assert Chunk(data) + rest == rest;
      if Decode(rest).Some? {
        assert [] + Decode(rest).value.0 == Decode(rest).value.0;
      }
    } else {
      var tail := data + CRLF + rest;
      HeadParses(|data|, tail);
      assert Chunk(data) + rest == Head(|data|) + tail;
      assert tail[..|data|] == data && tail[|data|..|data| + 2] == CRLF && tail[|data| + 2..] == rest;
    }
  }

  lemma EndDecodes(rest: seq<byte>)
    ensures Decode(LAST_CHUNK + CRLF + rest) == Some(([], rest))
  {
    HeadParses(0, CRLF + rest);
    assert Head(0) == LAST_CHUNK;
    assert LAST_CHUNK + CRLF + rest == Head(0) + (CRLF + rest);
  }

  lemma {:induction false} ChunksDecode(writes: seq<seq<byte>>, rest: seq<byte>)
    ensures var d := Decode(rest);
            Decode(Chunks(writes) + rest) == if d.None? then None else Some((Flatten(writes) + d.value.0, d.value.1))
  {
    if writes == [] {
      assert Chunks(writes) + rest == rest;
      assert Decode(rest).Some? ==> [] + Decode(rest).value.0 == Decode(rest).value.0;
    } else {
      var init, data := writes[..|writes| - 1], writes[|writes| - 1];
      Regroup(Chunks(init), Chunk(data), rest);
      ChunkDecodes(data, rest);
      ChunksDecode(init, Chunk(data) + rest);
      if Decode(rest).Some? {
        Regroup(Flatten(init), data, Decode(rest).value.0);
      }
    }
  }

  /** Whatever was written comes back in one piece, and decoding stops where the body does. */
  lemma BodyDecodes(writes: seq<seq<byte>>, rest: seq<byte>)
    ensures Decode(Body(writes) + rest) == Some((Flatten(writes), rest))
  {
    var end := LAST_CHUNK + CRLF;
    EndDecodes(rest);
    ChunksDecode(writes, end + rest);
    Regroup(Chunks(writes), end, rest);
    assert Flatten(writes) + [] == Flatten(writes);
  }

  // ---- incomplete bodies ----

  lemma {:induction false} RunOfPrefix(s: seq<byte>, n: nat)
    requires n <= |s|
    ensures HexRun(s[..n]) == if n <= HexRun(s) then n else HexRun(s)
  {
    if n > 0 && IsHexDigit(s[0]) {
      RunOfPrefix(s[1..], n - 1);
      assert s[..n][1..] == s[1..][..n - 1];
    }
  }

  lemma HeadOfPrefix(s: seq<byte>, n: nat)
    requires n <= |s| && ParseHead(s).Some?
    ensures var (size, rest) := ParseHead(s).value;
            var used := |s| - |rest|;
            ParseHead(s[..n]) == if n < used then None else Some((size, rest[..n - used]))
  {
    var k := HexRun(s);
    RunOfPrefix(s, n);
    if n >= k + 2 {
      assert s[..n][..k] == s[..k];
      assert s[..n][k + 2..] == s[k + 2..][..n - (k + 2)];
    }
  }

  lemma ChunkOfPrefix(s: seq<byte>, n: nat)
    requires n <= |s| && ParseChunk(s).Some?
    ensures var (data, after) := ParseChunk(s).value;
            var used := |s| - |after|;
            ParseChunk(s[..n]) == if n < used then None else Some((data, after[..n - used]))
  {
    HeadOfPrefix(s, n);
    var (size, rest) := ParseHead(s).value;
    var m := n - (|s| - |rest|);
    if m >= size + 2 {
      assert rest[..m][size..size + 2] == CRLF;
      assert rest[..m][size + 2..] == rest[size + 2..][..m - (size + 2)];
      assert rest[..m][..size] == rest[..size];
    }
  }

  /** No part of a body that ends too early passes for a whole one. This holds for every body, also for those
      that other writers make. */
  lemma {:induction false} PrefixIsIncomplete(s: seq<byte>, n: nat)
    requires Decode(s).Some? && n < |s| - |Decode(s).value.1|
    ensures Decode(s[..n]) == None
    decreases |s|
  {
    ChunkOfPrefix(s, n);
    var (data, after) := ParseChunk(s).value;
    var used := |s| - |after|;
    if n >= used && data != [] {
      PrefixIsIncomplete(after, n - used);
    }
  }

  /** The receiver sees the end of a body no earlier than it was written. */
  lemma NoEarlyEnd(writes: seq<seq<byte>>, n: nat)
    requires n < |Body(writes)|
    ensures Decode(Body(writes)[..n]) == None
  {
    BodyDecodes(writes, []);
    assert Body(writes) + [] == Body(writes);
    PrefixIsIncomplete(Body(writes), n);
  }

  // ---- the writer ----

  /** Where the bytes go. It may write less than it is given, with an error; a sink that breaks the contract of
      io.Writer may do so without one. */
  class Sink {
    const honest: bool
    var data: seq<byte>
    ghost var failures: nat    // how many writes have reported an error

    constructor (honest: bool)
      ensures this.honest == honest && data == [] && failures == 0
    {
      this.honest, data, failures := honest, [], 0;
    }

    method Write(p: seq<byte>) returns (n: nat, ok: bool)
      modifies this
      ensures n <= |p| && data == old(data) + p[..n]
      ensures honest && ok ==> n == |p|
      ensures failures == old(failures) + if ok then 0 else 1
    {
      n :| 0 <= n <= |p|;
      ok := *;
      if honest && n < |p| {
        ok := false;
      }
      data := data + p[..n];
      failures := failures + if ok then 0 else 1;
    }
  }

  datatype Error = WireError | ShortWrite

  /** The part of a chunk that is on the wire after `headed` bytes of its head, `n` of its data and `tailed` of
      its end. */
  ghost function Part(data: seq<byte>, headed: nat, n: nat, tailed: nat): seq<byte>
    requires headed <= |Head(|data|)| && n <= |data| && tailed <= 2
  {
    Head(|data|)[..headed] + data[..n] + CRLF[..tailed]
  }

  class ChunkedWriter {
    const wire: Sink

    constructor (wire: Sink)
      ensures this.wire == wire
    {
      this.wire := wire;
    }

    /** Write counts the bytes of `data` that are on the wire. Without an error that is all of them; and if the
        sink keeps to its contract the wire has grown by the whole chunk. */
    method Write(data: seq<byte>) returns (n: nat, err: Option<Error>, ghost headed: nat, ghost tailed: nat)
      modifies wire
      ensures n <= |data| && headed <= |Head(|data|)| && tailed <= 2
      ensures data == [] ==> err.None? && wire.data == old(wire.data)
      ensures data != [] ==> wire.data == old(wire.data) + Part(data, headed, n, tailed)
      ensures err.None? || tailed > 0 ==> n == |data|
      ensures wire.honest && n > 0 ==> headed == |Head(|data|)|
      ensures wire.honest && err.None? && data != [] ==> tailed == 2
      ensures wire.honest ==> err != Some(ShortWrite)
      ensures wire.failures == old(wire.failures) + if err == Some(WireError) then 1 else 0
      ensures err == Some(ShortWrite) ==> n < |data|
    {
      headed, tailed := 0, 0;
      if |data| == 0 {
        return 0, None, 0, 0;
      }
      var head := Hex(|data|) + CRLF;
      var k, ok := wire.Write(head);
      headed := k;
      if !ok {
        return 0, Some(WireError), headed, 0;
      }
      n, ok := wire.Write(data);
      if !ok {
        return n, Some(WireError), headed, 0;
      }
      if n != |data| {
        return n, Some(ShortWrite), headed, 0;
      }
      k, ok := wire.Write(CRLF);
      return n, if ok then None else Some(WireError), headed, k;
    }

    method Close() returns (err: Option<Error>, ghost n: nat)
      modifies wire
      ensures n <= 3 && wire.data == old(wire.data) + LAST_CHUNK[..n]
      ensures wire.honest && err.None? ==> n == 3
      ensures wire.failures == old(wire.failures) + if err.Some? then 1 else 0
    {
      var k, ok := wire.Write(LAST_CHUNK);
      return if ok then None else Some(WireError), k;
    }
  }

  // ---- a whole body ----

  lemma PartIsPrefix(data: seq<byte>, headed: nat, n: nat, tailed: nat)
    requires data != [] && headed <= |Head(|data|)| && n <= |data| && tailed <= 2
    requires n > 0 ==> headed == |Head(|data|)|
    requires tailed > 0 ==> n == |data|
    ensures Part(data, headed, n, tailed) <= Chunk(data)
    ensures tailed == 2 ==> Part(data, headed, n, tailed) == Chunk(data)
  {
    if n == 0 {
      assert Part(data, headed, n, tailed) == Head(|data|)[..headed];
    } else if tailed == 0 {
      assert Part(data, headed, n, tailed) == Head(|data|) + data[..n];
    } else {
      assert Part(data, headed, n, tailed) == Head(|data|) + data + CRLF[..tailed];
    }
  }

  lemma {:induction false} ChunksGrow(writes: seq<seq<byte>>, i: nat)
    requires i <= |writes|
    ensures Chunks(writes[..i]) <= Chunks(writes)
  {
    if i < |writes| {
      ChunksGrow(writes[..|writes| - 1], i);
      assert writes[..|writes| - 1][..i] == writes[..i];
    } else {
      assert writes[..i] == writes;
    }
  }

  lemma BodyFrom(writes: seq<seq<byte>>, i: nat)
    requires i < |writes|
    ensures Chunks(writes[..i + 1]) == Chunks(writes[..i]) + Chunk(writes[i]) <= Body(writes)
  {
    assert writes[..i + 1][..i] == writes[..i];
    ChunksGrow(writes, i + 1);
  }

  lemma DecodesIffWhole(writes: seq<seq<byte>>, out: seq<byte>)
    requires out <= Body(writes)
    ensures if out == Body(writes) then Decode(out) == Some((Flatten(writes), [])) else Decode(out) == None
  {
    if out == Body(writes) {
      BodyDecodes(writes, []);
      assert Body(writes) + [] == Body(writes);
    } else {
      NoEarlyEnd(writes, |out|);
      assert Body(writes)[..|out|] == out;
    }
  }

  /** What has been sent since `was` is `out`. */
  ghost predicate Sent(sink: Sink, was: seq<byte>, out: seq<byte>)
    reads sink
  {
    sink.data == was + out
  }

  method WriteChunk(cw: ChunkedWriter, data: seq<byte>, ghost was: seq<byte>, ghost before: seq<byte>)
    returns (ok: bool, ghost out: seq<byte>)
    requires Sent(cw.wire, was, before)
    modifies cw.wire
    ensures Sent(cw.wire, was, out)
    ensures cw.wire.honest ==> out <= before + Chunk(data) && (ok ==> out == before + Chunk(data))
    ensures cw.wire.honest ==> cw.wire.failures == old(cw.wire.failures) + if ok then 0 else 1
  {
    var n, err, headed, tailed := cw.Write(data);
    ok := err.None?;
    assert err.Some? ==> err.value.WireError? || err.value.ShortWrite?;
    if data == [] {
      return ok, before;
    }
    out := before + Part(data, headed, n, tailed);
    if cw.wire.honest {
      PartIsPrefix(data, headed, n, tailed);
    }
    Regroup(was, before, Part(data, headed, n, tailed));
  }

  /** The response body of a proxied request: copied in chunks, closed, and ended with an empty line. If any step
      fails the receiver can tell, unless all bytes had been sent by then; provided that the connection keeps to
      the contract of io.Writer. */
  method SendBody(sink: Sink, writes: seq<seq<byte>>) returns (ok: bool, ghost out: seq<byte>)
    modifies sink
    ensures sink.data == old(sink.data) + out
    ensures sink.honest && ok ==> out == Body(writes)
    ensures sink.honest ==> (ok <==> sink.failures == old(sink.failures))
    ensures sink.honest ==>
              if out == Body(writes) then Decode(out) == Some((Flatten(writes), [])) else Decode(out) == None
  {
    ghost var was := sink.data;
    var cw := new ChunkedWriter(sink);
    out := [];
    for i := 0 to |writes|
      invariant Sent(sink, was, out)
      invariant sink.honest ==> out == Chunks(writes[..i]) && sink.failures == old(sink.failures)
    {
      BodyFrom(writes, i);
      ok, out := WriteChunk(cw, writes[i], was, out);
      if !ok {
        if sink.honest {
          DecodesIffWhole(writes, out);
        }
        return;
      }
    }
    assert writes[..|writes|] == writes;
    ok, out := SendEnd(cw, was, out);
    if sink.honest {
      DecodesIffWhole(writes, out);
    }
  }

  method SendEnd(cw: ChunkedWriter, ghost was: seq<byte>, ghost before: seq<byte>)
    returns (ok: bool, ghost out: seq<byte>)
    requires Sent(cw.wire, was, before)
    modifies cw.wire
    ensures Sent(cw.wire, was, out)
    ensures cw.wire.failures == old(cw.wire.failures) + if ok then 0 else 1
    ensures cw.wire.honest ==> out <= before + (LAST_CHUNK + CRLF) && (ok ==> out == before + (LAST_CHUNK + CRLF))
  {
    var err, n := cw.Close();
    out := before + LAST_CHUNK[..n];
    Regroup(was, before, LAST_CHUNK[..n]);
    EndsUnder(before, n, 0);
    if err.Some? {
      return false, out;
    }
    var m;
    m, ok := cw.wire.Write(CRLF);
    if cw.wire.honest {
      EndsUnder(before, n, m);
    }
    Regroup(was, out, CRLF[..m]);
    out := out + CRLF[..m];
  }

  lemma EndsUnder(before: seq<byte>, n: nat, m: nat)
    requires n <= 3 && m <= 2 && (m > 0 ==> n == 3)
    ensures before + LAST_CHUNK[..n] + CRLF[..m] <= before + (LAST_CHUNK + CRLF)
    ensures m == 0 ==> before + LAST_CHUNK[..n] <= before + (LAST_CHUNK + CRLF)
    ensures m == 2 ==> before + LAST_CHUNK[..n] + CRLF[..m] == before + (LAST_CHUNK + CRLF)
  {
    assert LAST_CHUNK[..n] + CRLF[..m] == (LAST_CHUNK + CRLF)[..n + m];
    Regroup(before, LAST_CHUNK[..n], CRLF[..m]);
  }
}
