/** A byte stream read in pieces whose size the reader does not choose. */
module Source {
  import opened Options
  import opened Bytes

  class Reader {
    var data: seq<byte>   // what is still to be read

    constructor (data: seq<byte>)
      ensures this.data == data
    {
      this.data := data;
    }

    /** At least one byte and at most `max`, or nothing at the end of the stream. */
    method Read(max: nat) returns (chunk: seq<byte>)
      requires max > 0
      modifies this
      ensures old(data) == chunk + data
      ensures |chunk| <= max
      ensures chunk == [] <==> old(data) == []
    {
      if data == [] {
        return [];
      }
      var k :| 1 <= k <= max && k <= |data|;
      chunk, data := data[..k], data[k..];
    }

    method ReadByte() returns (b: Option<byte>)
      modifies this
      ensures b.None? <==> old(data) == []
      ensures b.None? ==> data == []
      ensures b.Some? ==> old(data) == [b.value] + data
    {
      var chunk := Read(1);
      b := if chunk == [] then None else Some(chunk[0]);
    }

    /** io.ReadFull and io.CopyN: reads on until `n` bytes are there or the stream ends. */
    method ReadUpTo(n: nat) returns (got: seq<byte>)
      modifies this
      ensures old(data) == got + data
      ensures |got| == n || (|got| < n && data == [])
    {
      got := [];
      while |got| < n
        invariant old(data) == got + data
        invariant |got| <= n
        decreases |data|
      {
        var chunk := Read(n - |got|);
        if chunk == [] {
          return;
        }
        got := got + chunk;
      }
    }
  }

  /** One Read: the room it was given, how many bytes it returned, and whether it failed. */
  datatype Call = Call(room: nat, count: nat, failed: bool)

  /** A byte stream whose reads may fail, and may return bytes all the same. It keeps a log of them. */
  class FallibleReader {
    const reliable: bool       // no read fails
    var data: seq<byte>
    ghost var calls: seq<Call>

    constructor (data: seq<byte>, reliable: bool)
      ensures this.data == data && this.reliable == reliable && calls == []
    {
      this.data, this.reliable, calls := data, reliable, [];
    }

    method Read(p: array<byte>) returns (n: nat, failed: bool)
      modifies this, p
      ensures n <= p.Length && old(data) == p[..n] + data
      ensures n == 0 ==> failed || p.Length == 0 || old(data) == []
      ensures reliable ==> !failed
      ensures calls == old(calls) + [Call(p.Length, n, failed)]
    {
      failed := *;
      failed := failed && !reliable;
      var least := if failed || p.Length == 0 || data == [] then 0 else 1;
      var most := if p.Length <= |data| then p.Length else |data|;
      n :| least <= n <= most;
      forall i | 0 <= i < n {
        p[i] := data[i];
      }
      assert p[..n] == data[..n];
      data := data[n..];
      calls := calls + [Call(p.Length, n, failed)];
    }
  }
}
