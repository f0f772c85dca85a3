/** Bytes, little-endian fields and result types shared by the codecs. */
module Bytes {
  type byte = b: int | 0 <= b < 256

  datatype Result<+T> = Ok(value: T) | Err(reason: string) {
    predicate IsFailure() { Err? }
    function PropagateFailure<U>(): Result<U>
      requires Err?
    {
      Err(reason)
    }
    function Extract(): T
      requires Ok?
    {
      value
    }
  }

  datatype Option<+T> = None | Some(value: T)

  function Pow256(n: nat): (p: nat)
    ensures p >= 1
  {
    if n == 0 then 1 else 256 * Pow256(n - 1)
  }

  /** The value of a little-endian field (native-audio-client/src/lib.rs `get`). */
  function Get(b: seq<byte>): (v: nat)
    ensures v < Pow256(|b|)
  {
    if b == [] then 0 else b[0] + 256 * Get(b[1..])
  }

  /** The `n` low bytes of `v`, least significant first (`put`). */
  function Put(v: nat, n: nat): (b: seq<byte>)
    ensures |b| == n
  {
    if n == 0 then [] else [v % 256] + Put(v / 256, n - 1)
  }

  lemma {:induction false} GetPut(v: nat, n: nat)
    requires v < Pow256(n)
    ensures Get(Put(v, n)) == v
  {
    if n > 0 {
      GetPut(v / 256, n - 1);
    }
  }

  lemma {:induction false} PutGet(b: seq<byte>)
    ensures Put(Get(b), |b|) == b
  {
    if b != [] {
      PutGet(b[1..]);
      Digit(b[0], Get(b[1..]));
    }
  }

  lemma Digit(low: byte, high: nat)
    ensures (low + 256 * high) % 256 == low && (low + 256 * high) / 256 == high
  {
  }

  lemma Widths()
    ensures Pow256(1) == 0x100 && Pow256(2) == 0x1_0000 && Pow256(4) == 0x1_0000_0000
    ensures Pow256(8) == 0x1_0000_0000_0000_0000
  {
    assert Pow256(3) == 0x100_0000 && Pow256(5) == 0x100_0000_0000;
    assert Pow256(6) == 0x1_0000_0000_0000 && Pow256(7) == 0x100_0000_0000_0000;
  }

  function Zeros(n: nat): (b: seq<byte>)
    ensures |b| == n && forall i :: 0 <= i < n ==> b[i] == 0
  {
    seq(n, _ => 0)
  }

  lemma {:induction false} PutZero(n: nat)
    ensures Put(0, n) == Zeros(n)
  {
    if n > 0 {
      PutZero(n - 1);
    }
  }

  /** Byte `i` of `v`, as the loop in `put` selects it. */
  lemma {:induction false} PutAt(v: nat, n: nat, i: nat)
    requires i < n
    ensures Put(v, n)[i] == v / Pow256(i) % 256
  {
    if i > 0 {
      PutAt(v / 256, n - 1, i - 1);
      DivDiv(v, Pow256(i - 1));
    }
  }

  lemma DivDiv(v: nat, p: nat)
    requires p > 0
    ensures v / 256 / p == v / (256 * p)
  {
    var q, r := v / (256 * p), v % (256 * p);
    assert v == 256 * (p * q) + r;
    assert v / 256 == p * q + r / 256;
    assert r / 256 < p;
    DivUnique(v / 256, p, q, r / 256);
  }

  lemma DivUnique(n: nat, d: nat, q: nat, r: nat)
    requires d > 0 && n == d * q + r && r < d
    ensures n / d == q
  {
    var k := n / d;
    assert d * k <= n < d * k + d;
    assert k < q ==> d * (k + 1) <= d * q;
    assert k > q ==> d * k >= d * (q + 1);
  }

  /** Write the low bytes of `v` over b[from..from+n], as `put` does on a slice. */
  method PutInto(b: array<byte>, from: nat, n: nat, v: nat)
    requires from + n <= b.Length
    modifies b
    ensures b[..] == old(b[..from]) + Put(v, n) + old(b[from + n..])
  {
    var i := 0;
    while i < n
      invariant 0 <= i <= n
      invariant b[..from] == old(b[..from]) && b[from + n..] == old(b[from + n..])
      invariant forall k :: 0 <= k < i ==> b[from + k] == Put(v, n)[k]
    {
      PutAt(v, n, i);
      b[from + i] := v / Pow256(i) % 256;
      i := i + 1;
    }
    assert b[from..from + n] == Put(v, n);
    assert b[..] == b[..from] + b[from..from + n] + b[from + n..];
  }

  lemma SliceOfSlice<T>(s: seq<T>, i: nat, j: nat, k: nat, l: nat)
    requires i <= j <= |s| && k <= l <= j - i
    ensures s[i..j][k..l] == s[i + k..i + l]
  {
    forall n | 0 <= n < l - k ensures s[i..j][k..l][n] == s[i + k..i + l][n] {
      assert s[i..j][k + n] == s[i + (k + n)];
    }
  }

  /** Copy a sequence over b[from..]. */
  method CopyInto(b: array<byte>, from: nat, s: seq<byte>)
    requires from + |s| <= b.Length
    modifies b
    ensures b[..] == old(b[..from]) + s + old(b[from + |s|..])
  {
    forall i | 0 <= i < |s| {
      b[from + i] := s[i];
    }
    assert b[from..from + |s|] == s;
    assert b[..from] == old(b[..from]) && b[from + |s|..] == old(b[from + |s|..]);
    assert b[..] == b[..from] + b[from..from + |s|] + b[from + |s|..];
  }

  lemma {:induction false} SubsetCount<T>(a: set<T>, b: set<T>)
    requires a <= b
    ensures |a| <= |b|
  {
    if a != {} {
      var x :| x in a;
      SubsetCount(a - {x}, b - {x});
    }
  }
}
