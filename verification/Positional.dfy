/** Positional notation: the reading of a digit sequence as a number, and its uniqueness. */
module Positional {
  import opened Prelude

  ghost predicate IsDigits(ds: seq<int>, base: int) {
    forall i :: 0 <= i < |ds| ==> 0 <= ds[i] < base
  }

  /** The number a most-significant-first digit sequence denotes. */
  ghost function Val(ds: seq<int>, base: int): int {
    if ds == [] then 0 else Val(ds[..|ds| - 1], base) * base + ds[|ds| - 1]
  }

  lemma ValPush(ds: seq<int>, d: int, base: int)
    ensures Val(ds + [d], base) == Val(ds, base) * base + d
  {
    assert (ds + [d])[..|ds|] == ds;
  }

  lemma {:induction false} ValInjective(a: seq<int>, b: seq<int>, base: int)
    requires base > 0 && |a| == |b| && IsDigits(a, base) && IsDigits(b, base)
    requires Val(a, base) == Val(b, base)
    ensures a == b
  {
    if a != [] {
      var n := |a| - 1;
      DivModUnique(Val(a[..n], base), Val(b[..n], base), a[n], b[n], base);
      ValInjective(a[..n], b[..n], base);
      assert a == a[..n] + [a[n]] && b == b[..n] + [b[n]];
    }
  }

  lemma {:induction false} Pow2Add(a: nat, b: nat)
    ensures Pow2(a + b) == Pow2(a) * Pow2(b)
  {
    if a > 0 {
      Pow2Add(a - 1, b);
    }
  }

  /** One more digit under one more power. */
  lemma PushBound(hi: int, d: int, bound: int, p: int)
    requires 0 <= hi < bound && 0 <= d < p
    ensures 0 <= hi * p + d < bound * p
  {
    MulLe(0, hi, p);
    MulLe(hi + 1, bound, p);
    MulAdd(hi, 1, p);
  }

  lemma TimesSucc(w: nat, n: nat)
    requires n > 0
    ensures w * n == w * (n - 1) + w
  {
  }

  /** k digits of width w bits denote a number below 2^(w*k). */
  lemma {:induction false} ValBound(ds: seq<int>, w: nat)
    requires IsDigits(ds, Pow2(w))
    ensures 0 <= Val(ds, Pow2(w)) < Pow2(w * |ds|)
  {
    if ds == [] {
      assert w * |ds| == 0;
    } else {
      hide Pow2;
      var n := |ds| - 1;
      ValBound(ds[..n], w);
      TimesSucc(w, |ds|);
      Pow2Add(w * n, w);
      PushBound(Val(ds[..n], Pow2(w)), ds[n], Pow2(w * n), Pow2(w));
    }
  }

  /** One base-32 digit. */
  type Quintet = q: int | 0 <= q < 32

  /** The n base-32 digits of v, most significant first. */
  function ToBase32(v: int, n: nat): (ds: seq<Quintet>)
    ensures |ds| == n
    decreases n
  {
    if n == 0 then [] else ToBase32(v / 32, n - 1) + [v % 32]
  }

  lemma {:induction false} ToBase32Val(v: int, n: nat)
    requires 0 <= v < Pow2(5 * n)
    ensures Val(ToBase32(v, n), 32) == v
    decreases n
  {
    if n > 0 {
      assert Pow2(5 * n) == 32 * Pow2(5 * (n - 1)) by {
        Pow2Add(5, 5 * (n - 1));
        assert Pow2(5) == 2 * Pow2(4) == 32;
      }
      ToBase32Val(v / 32, n - 1);
      ValPush(ToBase32(v / 32, n - 1), v % 32, 32);
    }
  }

  /** The k-octet big-endian form of n, which keeps n modulo 256^k. */
  function Be(n: nat, k: nat): (b: Bytes)
    ensures |b| == k
    decreases k
  {
    if k == 0 then [] else Be(n / 256, k - 1) + [n % 256]
  }

  /** The octet of n worth 256^place. */
  function Octet(n: nat, place: nat): int { (n / Pow2(8 * place)) % 256 }

  /** Octet i of the field, counted from the front: the most significant comes first. */
  lemma {:induction false} BeOctet(n: nat, k: nat, i: nat)
    requires i < k
    ensures Be(n, k)[i] == Octet(n, k - 1 - i)
    decreases k
  {
    if i < k - 1 {
      BeOctet(n / 256, k - 1, i);
      OctetPower(k - 2 - i);
      DivTwice(n, 256, Pow2(8 * (k - 2 - i)));
    }
  }

  lemma DivTwice(n: nat, a: nat, b: nat)
    requires a > 0 && b > 0
    ensures a * b > 0 && (n / a) / b == n / (a * b)
  {
    MulLe(1, a, b);
    DivMod(n, a);
    DivMod(n / a, b);
    var q, r := (n / a) / b, (n / a) % b;
    MulAdd(q * b, r, a);
    MulAssoc(q, b, a);
    MulLe(0, r, a);
    MulLe(r + 1, b, a);
    MulAdd(r, 1, a);
    DivMod(n, a * b);
    DivModUnique(q, n / (a * b), r * a + n % a, n % (a * b), a * b);
  }

  /** The number a big-endian field holds. */
  function FromBe(b: Bytes): nat {
    if b == [] then 0 else FromBe(b[..|b| - 1]) * 256 + b[|b| - 1]
  }

  lemma {:induction false} FromBeOfBe(n: nat, k: nat)
    ensures FromBe(Be(n, k)) < Pow2(8 * k)
    ensures n < Pow2(8 * k) ==> FromBe(Be(n, k)) == n
    decreases k
  {
    if k > 0 {
      OctetPower(k - 1);
      FromBeOfBe(n / 256, k - 1);
      assert Be(n, k)[..k - 1] == Be(n / 256, k - 1);
    }
  }

  lemma OctetPower(k: nat)
    ensures Pow2(8 * (k + 1)) == 256 * Pow2(8 * k)
  {
    Pow2Add(8, 8 * k);
    assert Pow2(8) == 16 * Pow2(4) == 256;
  }

  lemma {:induction false} BeOfFromBe(b: Bytes)
    ensures Be(FromBe(b), |b|) == b
  {
    if b != [] {
      BeOfFromBe(b[..|b| - 1]);
    }
  }
}
