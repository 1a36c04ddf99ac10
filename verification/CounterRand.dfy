/** A random source made of a block cipher in counter mode, read in pieces of any size. */
module CounterRand {
  import opened Bytes

  /** A block cipher under one key. */
  type Cipher = seq<byte> -> seq<byte>

  ghost predicate KeepsLength(cipher: Cipher, n: nat) {
    forall c :: |c| == n ==> |cipher(c)| == n
  }

  ghost predicate IsInjective(cipher: Cipher, n: nat) {
    forall c, d :: |c| == n && |d| == n && cipher(c) == cipher(d) ==> c == d
  }

  // ---- the counter ----

  /** The number that a counter holds, least significant byte first. */
  function Value(c: seq<byte>): nat {
    if c == [] then 0 else c[0] + 256 * Value(c[1..])
  }

  /** The counter after the carry loop. */
  function Next(c: seq<byte>): (d: seq<byte>)
    ensures |d| == |c|
  {
    if c == [] then [] else if c[0] == 255 then [0] + Next(c[1..]) else [c[0] + 1] + c[1..]
  }

  function NextBy(c: seq<byte>, k: nat): (d: seq<byte>)
    ensures |d| == |c|
  {
    if k == 0 then c else Next(NextBy(c, k - 1))
  }

  lemma {:induction false} ValueBound(c: seq<byte>)
    ensures Value(c) < Pow256(|c|)
  {
    if c != [] {
      ValueBound(c[1..]);
    }
  }

  /** The carry loop adds one, modulo 256^n. */
  lemma {:induction false} NextAddsOne(c: seq<byte>)
    ensures Value(Next(c)) == if Value(c) + 1 == Pow256(|c|) then 0 else Value(c) + 1
  {
    if c != [] {
      ValueBound(c[1..]);
      if c[0] == 255 {
        NextAddsOne(c[1..]);
        assert Next(c)[1..] == Next(c[1..]);
      } else {
        assert Next(c)[1..] == c[1..];
      }
    }
  }

  lemma {:induction false} ValueIsInjective(c: seq<byte>, d: seq<byte>)
    requires |c| == |d| && Value(c) == Value(d)
    ensures c == d
  {
    if c != [] {
      ValueIsInjective(c[1..], d[1..]);
      assert c == [c[0]] + c[1..] && d == [d[0]] + d[1..];
    }
  }

  /** The value goes round in a circle of 256^n. */
  lemma {:induction false} ValueAfter(c: seq<byte>, i: nat, d: nat)
    requires d <= Pow256(|c|)
    ensures var v := Value(NextBy(c, i)) + d;
            Value(NextBy(c, i + d)) == if v < Pow256(|c|) then v else v - Pow256(|c|)
  {
    ValueBound(NextBy(c, i));
    if d > 0 {
      ValueAfter(c, i, d - 1);
      NextAddsOne(NextBy(c, i + d - 1));
    }
  }

  lemma {:induction false} NextByAdds(c: seq<byte>, j: nat, k: nat)
    ensures NextBy(c, j + k) == NextBy(NextBy(c, j), k)
  {
    if k > 0 {
      NextByAdds(c, j, k - 1);
    }
  }

  ghost predicate IsMultiple(d: nat, p: nat)
    requires p > 0
  {
    d == 0 || (d >= p && IsMultiple(d - p, p))
  }

  lemma ComesRound(c: seq<byte>, i: nat)
    ensures NextBy(c, i + Pow256(|c|)) == NextBy(c, i)
  {
    ValueBound(NextBy(c, i));
    ValueAfter(c, i, Pow256(|c|));
    ValueIsInjective(NextBy(c, i), NextBy(c, i + Pow256(|c|)));
  }

  lemma SameOnwards(c: seq<byte>, i: nat, j: nat, d: nat)
    requires NextBy(c, i) == NextBy(c, j)
    ensures NextBy(c, i + d) == NextBy(c, j + d)
  {
    NextByAdds(c, i, d);
    NextByAdds(c, j, d);
  }

  /** Counters repeat after 256^n refills, and never before. */
  lemma {:induction false} CountersRepeatIff(c: seq<byte>, i: nat, d: nat)
    ensures NextBy(c, i) == NextBy(c, i + d) <==> IsMultiple(d, Pow256(|c|))
    decreases d
  {
    var p := Pow256(|c|);
    if d < p {
      ValueAfter(c, i, d);
    } else {
      ComesRound(c, i);
      SameOnwards(c, i, i + p, d - p);
      CountersRepeatIff(c, i, d - p);
    }
  }

  /** So do blocks, when the cipher maps no two blocks to the same one. */
  lemma BlocksRepeatIff(cipher: Cipher, c: seq<byte>, i: nat, d: nat)
    requires IsInjective(cipher, |c|)
    ensures cipher(NextBy(c, i)) == cipher(NextBy(c, i + d)) <==> IsMultiple(d, Pow256(|c|))
  {
    CountersRepeatIff(c, i, d);
  }

  // ---- the key stream ----

  /** The blocks of the first `k` refills. */
  function KeyStream(cipher: Cipher, c: seq<byte>, k: nat): seq<byte> {
    if k == 0 then [] else KeyStream(cipher, c, k - 1) + cipher(NextBy(c, k - 1))
  }

  lemma {:induction false} KeyStreamGrows(cipher: Cipher, c: seq<byte>, j: nat, k: nat)
    requires j <= k
    ensures KeyStream(cipher, c, j) <= KeyStream(cipher, c, k)
  {
    if j < k {
      KeyStreamGrows(cipher, c, j, k - 1);
    }
  }

  /** Byte `b` of block `i`. */
  lemma {:induction false} KeyStreamAt(cipher: Cipher, c: seq<byte>, k: nat, i: nat, b: nat)
    requires KeepsLength(cipher, |c|) && i < k && b < |c|
    ensures |KeyStream(cipher, c, k)| == k * |c| && i * |c| + b < k * |c|
    ensures KeyStream(cipher, c, k)[i * |c| + b] == cipher(NextBy(c, i))[b]
  {
    KeyStreamLength(cipher, c, k);
    KeyStreamLength(cipher, c, i);
    KeyStreamLength(cipher, c, i + 1);
    KeyStreamGrows(cipher, c, i + 1, k);
  }

  lemma {:induction false} KeyStreamLength(cipher: Cipher, c: seq<byte>, k: nat)
    requires KeepsLength(cipher, |c|)
    ensures |KeyStream(cipher, c, k)| == k * |c|
  {
    if k > 0 {
      KeyStreamLength(cipher, c, k - 1);
    }
  }

  /** Two readers with the same key and seed read the same bytes, whatever their buffers. */
  lemma ReadersAgree(cipher: Cipher, c: seq<byte>, x: seq<byte>, j: nat, y: seq<byte>, k: nat)
    requires x <= KeyStream(cipher, c, j) && y <= KeyStream(cipher, c, k)
    ensures x <= y || y <= x
  {
    if j <= k {
      KeyStreamGrows(cipher, c, j, k);
    } else {
      KeyStreamGrows(cipher, c, k, j);
    }
  }

  lemma Split(a: seq<byte>, b: seq<byte>, i: nat, n: nat)
    requires i + n <= |b|
    ensures a + b[i..] == (a + b[i..i + n]) + b[i + n..]
  {
  }

  lemma SumStep(sizes: seq<nat>, i: nat)
    requires i < |sizes|
    ensures Sum(sizes[..i + 1]) == Sum(sizes[..i]) + sizes[i]
  {
    assert sizes[..i + 1][..i] == sizes[..i];
  }

  class CounterEncryptorRand {
    const cipher: Cipher
    var counter: array<byte>
    var rand: array<byte>
    var ix: nat

    ghost var start: seq<byte>  // the counter at the beginning
    ghost var blocks: nat       // the number of refills
    ghost var output: seq<byte> // everything read

    ghost predicate Valid()
      reads this, counter, rand
    {
      && counter != rand && counter.Length == rand.Length == |start| > 0 && ix <= rand.Length
      && KeepsLength(cipher, |start|)
      && counter[..] == NextBy(start, blocks)
      && output + rand[..][ix..] == KeyStream(cipher, start, blocks)
    }

    constructor (cipher: Cipher, seed: seq<byte>)
      requires |seed| > 0 && KeepsLength(cipher, |seed|)
      ensures Valid() && start == seed && output == [] && blocks == 0
      ensures this.cipher == cipher && fresh(counter) && fresh(rand)
    {
      this.cipher := cipher;
      counter := new byte[|seed|](i requires 0 <= i < |seed| => seed[i]);
      rand := new byte[|seed|];
      ix := |seed|;
      start, blocks, output := seed, 0, [];
      new;
      assert counter[..] == seed;
    }

    /** The carry loop: it stops at the first byte that does not wrap to zero. */
    method Carry()
      modifies counter
      ensures counter[..] == Next(old(counter[..]))
    {
      ghost var was := counter[..];
      var i := 0;
      while i < counter.Length
        invariant i <= counter.Length
        invariant forall j :: 0 <= j < i ==> was[j] == 255 && counter[j] == 0
        invariant forall j :: i <= j < counter.Length ==> counter[j] == was[j]
      {
        counter[i] := if counter[i] == 255 then 0 else counter[i] + 1;
        if counter[i] != 0 {
          CarryStops(was, i);
          assert counter[..] == Next(was);
          return;
        }
        i := i + 1;
      }
      CarryWraps(was);
      assert counter[..] == Next(was);
    }

    method Refill()
      requires Valid() && ix == rand.Length
      modifies this`ix, this`blocks, counter, rand
      ensures Valid() && ix == 0
    {
      assert output + rand[..][ix..] == output;
      ghost var was := counter[..];
      var block := cipher(counter[..]);
      forall i | 0 <= i < rand.Length {
        rand[i] := block[i];
      }
      assert rand[..] == block;
      assert counter[..] == was;
      Carry();
      assert counter[..] == Next(was) == NextBy(start, blocks + 1);
      ix := 0;
      assert rand[..] == block && rand[..][ix..] == block;
      blocks := blocks + 1;
    }

    /** The next bytes of the key stream, from one block at a time. */
    method Read(b: array<byte>) returns (n: nat)
      requires Valid() && b != counter && b != rand
      modifies this`ix, this`blocks, this`output, counter, rand, b
      ensures var left := if old(ix) == old(rand.Length) then |start| else |start| - old(ix);
              n == if left < b.Length then left else b.Length
      ensures Valid() && output == old(output) + b[..n]
    {
      if ix == rand.Length {
        Refill();
      }
      n := rand.Length - ix;
      if n > b.Length {
        n := b.Length;
      }
      Take(b, n);
    }

    /** Hands out the next `n` bytes of the current block. */
    method Take(b: array<byte>, n: nat)
      requires Valid() && b != counter && b != rand
      requires ix + n <= rand.Length && n <= b.Length
      modifies this`ix, this`output, b
      ensures Valid() && output == old(output) + b[..n]
    {
      ghost var block, start' := rand[..], counter[..];
      forall i | 0 <= i < n {
        b[i] := rand[ix + i];
      }
      assert rand[..] == block && counter[..] == start' && b[..n] == block[ix..ix + n];
      Split(output, block, ix, n);
      output := output + b[..n];
      ix := ix + n;
    }

    method ReadFull(size: nat) returns (got: seq<byte>)
      requires Valid()
      modifies this`ix, this`blocks, this`output, counter, rand
      ensures Valid() && output == old(output) + got && |got| == size
    {
      got := [];
      while |got| < size
        invariant Valid() && output == old(output) + got && |got| <= size
      {
        var b := new byte[size - |got|];
        var n := Read(b);
        Split(old(output), got + b[..n], 0, |got|);
        got := got + b[..n];
      }
    }

    /** Reads with buffers of the given sizes, each filled as io.ReadFull does: the key stream from where
        it was left, as many bytes as were asked for. */
    method ReadMany(sizes: seq<nat>) returns (got: seq<byte>)
      requires Valid()
      modifies this`ix, this`blocks, this`output, counter, rand
      ensures Valid() && output == old(output) + got && output <= KeyStream(cipher, start, blocks)
      ensures |got| == Sum(sizes)
    {
      got := [];
      assert output + [] == output;
      for i := 0 to |sizes|
        invariant Valid() && output == old(output) + got && |got| == Sum(sizes[..i])
      {
        SumStep(sizes, i);
        var more := ReadFull(sizes[i]);
        Split(old(output), got + more, 0, |got|);
        got := got + more;
      }
      assert sizes[..|sizes|] == sizes;
    }
  }

  function Sum(s: seq<nat>): nat {
    if s == [] then 0 else Sum(s[..|s| - 1]) + s[|s| - 1]
  }

  lemma {:induction false} CarryStops(c: seq<byte>, i: nat)
    requires i < |c| && c[i] != 255 && forall j :: 0 <= j < i ==> c[j] == 255
    ensures Next(c) == seq(i, j => 0) + [c[i] + 1] + c[i + 1..]
  {
    if i > 0 {
      CarryStops(c[1..], i - 1);
      assert c[1..][i..] == c[i + 1..];
      assert seq(i, j => 0) == [0] + seq(i - 1, j => 0);
    } else {
      assert seq(0, j => 0) == [];
    }
  }

  lemma {:induction false} CarryWraps(c: seq<byte>)
    requires forall j :: 0 <= j < |c| ==> c[j] == 255
    ensures forall j :: 0 <= j < |c| ==> Next(c)[j] == 0
  {
    if c != [] {
      CarryWraps(c[1..]);
    }
  }
}
