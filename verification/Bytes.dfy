/** Bytes and the big-endian integers that both wire formats of the program are made of. */
module Bytes {
  type byte = x: nat | x < 256

  function Pow256(k: nat): (p: nat)
    ensures p >= 1
  {
    if k == 0 then 1 else 256 * Pow256(k - 1)
  }

  /** The number that the bytes of `s` spell, most significant byte first. */
  function Uint(s: seq<byte>): nat {
    if s == [] then 0 else Uint(s[..|s| - 1]) * 256 + s[|s| - 1]
  }

  /** The low `k` bytes of `n`, most significant byte first. */
  function PutUint(n: nat, k: nat): (s: seq<byte>)
    ensures |s| == k
  {
    if k == 0 then [] else PutUint(n / 256, k - 1) + [n % 256]
  }

  lemma {:induction false} UintBound(s: seq<byte>)
    ensures Uint(s) < Pow256(|s|)
  {
    if s != [] {
      UintBound(s[..|s| - 1]);
    }
  }

  lemma {:induction false} UintPutUint(n: nat, k: nat)
    requires n < Pow256(k)
    ensures Uint(PutUint(n, k)) == n
  {
    if k > 0 {
      UintPutUint(n / 256, k - 1);
      var s := PutUint(n, k);
      assert s[..k - 1] == PutUint(n / 256, k - 1);
    }
  }

  lemma {:induction false} PutUintUint(s: seq<byte>)
    ensures PutUint(Uint(s), |s|) == s
  {
    if s != [] {
      var t := s[..|s| - 1];
      PutUintUint(t);
      assert Uint(s) / 256 == Uint(t);
      assert Uint(s) % 256 == s[|s| - 1];
      assert s == t + [s[|s| - 1]];
    }
  }

  lemma {:induction false} Pow256Grows(j: nat, k: nat)
    requires j <= k
    ensures Pow256(j) <= Pow256(k)
  {
    if j < k {
      Pow256Grows(j, k - 1);
    }
  }

  lemma Pow256Values()
    ensures Pow256(1) == 0x100 && Pow256(2) == 0x1_0000
    ensures Pow256(4) == 0x1_0000_0000 && Pow256(8) == 0x1_0000_0000_0000_0000
  {
    assert Pow256(3) == 256 * Pow256(2);
    assert Pow256(5) == 256 * Pow256(4);
    assert Pow256(6) == 256 * Pow256(5);
    assert Pow256(7) == 256 * Pow256(6);
  }

  /** `n` shifted right by `k` bytes. */
  function Shifted(n: nat, k: nat): nat {
    if k == 0 then n else Shifted(n / 256, k - 1)
  }

  lemma {:induction false} ShiftStep(n: nat, k: nat)
    ensures Shifted(n, k + 1) == Shifted(n, k) / 256
  {
    if k > 0 {
      ShiftStep(n / 256, k - 1);
    }
  }

  lemma Regroup<T>(a: seq<T>, b: seq<T>, c: seq<T>)
    ensures (a + b) + c == a + (b + c)
  {
  }

  /** Two and four bytes read in network order. */
  function Join2(a: nat, b: nat): nat {
    0x100 * a + b
  }

  function Join4(a: nat, b: nat, c: nat, d: nat): nat {
    0x100_0000 * a + 0x1_0000 * b + 0x100 * c + d
  }

  lemma TwoBytes(n: nat)
    requires n < 0x1_0000
    ensures var s := PutUint(n, 2); Join2(s[0], s[1]) == n
  {
    assert PutUint(n / 256, 1) == PutUint(n / 256 / 256, 0) + [n / 256 % 256];
  }

  lemma FourBytes(n: nat)
    requires n < 0x1_0000_0000
    ensures var s := PutUint(n, 4); Join4(s[0], s[1], s[2], s[3]) == n
  {
    TwoBytes(n / 0x1_0000);
    var m := n / 256;
    assert m / 256 == n / 0x1_0000;
    assert PutUint(n, 4) == PutUint(m / 256, 2) + [m % 256] + [n % 256];
  }

  /** Most significant byte first. */
  lemma UintIsBigEndian(s: seq<byte>, b: byte)
    ensures Uint([]) == 0 && Uint(s + [b]) == 0x100 * Uint(s) + b
  {
    assert (s + [b])[..|s|] == s;
  }
}
