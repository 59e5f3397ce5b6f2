/** Bytes and little-endian integers, as `int.to_bytes`, `int.from_bytes` and `struct.pack` use them. */
module Bytes {
  type byte = b: int | 0 <= b < 256
  type bytes = seq<byte>

  /** The number of values that fit in `n` bytes. */
  function Capacity(n: nat): (c: nat)
    ensures c >= 1
  {
    if n == 0 then 1 else 256 * Capacity(n - 1)
  }

  /** `n.to_bytes(len, "little")`: it raises OverflowError exactly when `n >= Capacity(len)`. */
  function ToLE(n: nat, len: nat): (r: bytes)
    requires n < Capacity(len)
    ensures |r| == len
  {
    if len == 0 then [] else [n % 256] + ToLE(n / 256, len - 1)
  }

  /** `int.from_bytes(s, "little")`, of however many bytes the view still holds. */
  function FromLE(s: bytes): (n: nat)
    ensures n < Capacity(|s|)
  {
    if s == [] then 0 else s[0] + 256 * FromLE(s[1..])
  }

  /** `int.from_bytes(s, "little", signed=True)`. */
  function SignedFromLE(s: bytes): int {
    Reinterpret(FromLE(s), |s|)
  }

  /** The value a signed reader of `len` bytes gives for what an unsigned writer stored as `n`. */
  function Reinterpret(n: nat, len: nat): int
    requires n < Capacity(len)
  {
    if 2 * n >= Capacity(len) && len > 0 then n - Capacity(len) else n
  }

  /** `x.to_bytes(len, "little", signed=True)`. */
  function SignedToLE(x: int, len: nat): (r: bytes)
    requires FitsSigned(x, len)
    ensures |r| == len
  {
    ToLE(if x < 0 then x + Capacity(len) else x, len)
  }

  predicate FitsSigned(x: int, len: nat) {
    len > 0 && 0 <= 2 * x + Capacity(len) < 2 * Capacity(len)
  }

  /** The least significant byte comes first. */
  lemma {:induction false} ToLEDigit(n: nat, len: nat, k: nat)
    requires n < Capacity(len) && k < len
    ensures ToLE(n, len)[k] == n / Capacity(k) % 256
  {
    if k > 0 {
      ToLEDigit(n / 256, len - 1, k - 1);
      DivideTwice(n, Capacity(k - 1));
    }
  }

  lemma DivideTwice(n: nat, c: nat)
    requires c > 0
    ensures n / 256 / c == n / (256 * c)
  {
    var q, r := n / 256, n % 256;
    var a, b := q / c, q % c;
    assert n == 256 * (a * c + b) + r;
    assert 256 * (a * c) == a * (256 * c);
    assert 0 <= 256 * b + r < 256 * c;
    QuotientIs(n, 256 * c, a, 256 * b + r);
  }

  lemma QuotientIs(n: nat, d: nat, q: nat, r: nat)
    requires d > 0 && n == q * d + r && r < d
    ensures n / d == q
  {
    assert n == (n / d) * d + n % d;
    if n / d < q {
      FurtherApart(n / d, q, d);
    } else if q < n / d {
      FurtherApart(q, n / d, d);
    }
  }

  lemma {:induction false} FurtherApart(a: nat, b: nat, d: nat)
    requires a < b
    ensures a * d + d <= b * d
  {
    if a + 1 < b {
      FurtherApart(a, b - 1, d);
    }
  }

  lemma {:induction false} FromLEOfToLE(n: nat, len: nat)
    requires n < Capacity(len)
    ensures FromLE(ToLE(n, len)) == n
  {
    if len > 0 {
      FromLEOfToLE(n / 256, len - 1);
      assert ToLE(n, len)[1..] == ToLE(n / 256, len - 1);
    }
  }

  lemma SignedFromLEOfSignedToLE(x: int, len: nat)
    requires FitsSigned(x, len)
    ensures SignedFromLE(SignedToLE(x, len)) == x
  {
    FromLEOfToLE(if x < 0 then x + Capacity(len) else x, len);
  }

  /** `s[:n]` of a memoryview: cut short when fewer bytes are left. */
  function Take(s: bytes, n: nat): (r: bytes)
    ensures |r| == if n <= |s| then n else |s|
  {
    if n <= |s| then s[..n] else s
  }

  /** `s[n:]` of a memoryview. */
  function Drop(s: bytes, n: nat): bytes {
    if n <= |s| then s[n..] else []
  }

  lemma TakeDropOfConcat(a: bytes, b: bytes)
    ensures Take(a + b, |a|) == a && Drop(a + b, |a|) == b
  {
  }
}
