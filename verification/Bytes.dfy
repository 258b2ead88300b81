/** Bytes and little-endian numbers. */
module Bytes {
  type Byte = b: nat | b < 256

  function Pow256(w: nat): (p: nat)
    ensures p > 0
  {
    if w == 0 then 1 else 256 * Pow256(w - 1)
  }

  function Le(n: nat, w: nat): (s: seq<Byte>)
    ensures |s| == w
  {
    if w == 0 then [] else [n % 256] + Le(n / 256, w - 1)
  }

  function FromLe(s: seq<Byte>): (n: nat)
    decreases |s|
  {
    if s == [] then 0 else s[0] + 256 * FromLe(s[1..])
  }

  lemma {:induction false} LeRoundTrip(n: nat, w: nat)
    requires n < Pow256(w)
    ensures FromLe(Le(n, w)) == n
  {
    if w > 0 {
      LeRoundTrip(n / 256, w - 1);
      assert Le(n, w)[1..] == Le(n / 256, w - 1);
    }
  }

  // ---------------------------------------------------------------- digits

  lemma {:induction false} DivideTwice(n: nat, p: nat)
    requires p > 0
    ensures n / (256 * p) == n / 256 / p
  {
    var q := n / 256 / p;
    var d := n / 256;
    assert d == q * p + d % p && d % p < p;
    assert n == 256 * d + n % 256;
    assert n == q * (256 * p) + (256 * (d % p) + n % 256) by {
      assert 256 * (q * p) == q * (256 * p);
    }
    QuotientIs(n, 256 * p, q, 256 * (d % p) + n % 256);
  }

  lemma {:induction false} ProductGrows(x: nat, y: nat, d: nat)
    requires x < y
    ensures x * d + d <= y * d
    decreases y
  {
    assert y * d == (y - 1) * d + d;
    if x < y - 1 {
      ProductGrows(x, y - 1, d);
    }
  }

  lemma {:induction false} QuotientIs(n: nat, d: nat, q: nat, r: nat)
    requires d > 0 && n == q * d + r && r < d
    ensures n / d == q
  {
    var k := n / d;
    assert n == k * d + n % d && n % d < d;
    if k < q {
      ProductGrows(k, q, d);
    } else if k > q {
      ProductGrows(q, k, d);
    }
  }

  /** Byte `i` of the little-endian form of `n` is its digit of weight 256^i. */
  lemma {:induction false} LeDigit(n: nat, w: nat, i: nat)
    requires i < w
    ensures Le(n, w)[i] == n / Pow256(i) % 256
    decreases w
  {
    if i > 0 {
      LeDigit(n / 256, w - 1, i - 1);
      DivideTwice(n, Pow256(i - 1));
    }
  }

  /** A sequence of bytes is the number whose digits they are, and no other. */
  lemma {:induction false} FromLeDigits(s: seq<Byte>, n: nat)
    ensures FromLe(s) == n <==> s == Le(n, |s|) && n < Pow256(|s|)
    decreases |s|
  {
    if s != [] {
      FromLeDigits(s[1..], n / 256);
      assert s == [s[0]] + s[1..];
      assert Le(n, |s|) == [n % 256] + Le(n / 256, |s| - 1);
      assert n == 256 * (n / 256) + n % 256;
      if s == Le(n, |s|) && n < Pow256(|s|) {
        assert s[1..] == Le(n / 256, |s| - 1);
      }
    }
  }

  /** The `w` bytes at `a` are `n`, the byte of weight 256^i at offset `i`. */
  ghost predicate NumberAt(m: seq<Byte>, a: nat, w: nat, n: int) {
    0 <= n < Pow256(w) && a + w <= |m| && forall i :: 0 <= i < w ==> m[a + i] == n / Pow256(i) % 256
  }

  /** The little-endian form of a number is the number. */
  lemma {:induction false} LeNumber(before: seq<Byte>, n: nat, w: nat, after: seq<Byte>)
    requires n < Pow256(w)
    ensures NumberAt(before + Le(n, w) + after, |before|, w, n)
  {
    var m := before + Le(n, w) + after;
    forall i | 0 <= i < w
      ensures m[|before| + i] == n / Pow256(i) % 256
    {
      LeDigit(n, w, i);
      assert m[|before| + i] == Le(n, w)[i];
    }
  }
}
