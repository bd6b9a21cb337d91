/** Shared vocabulary: bytes, options, results and a little arithmetic. */
module Prelude {
  datatype Option<+T> = None | Some(value: T)

  datatype Result<+T, +E> = Ok(value: T) | Err(error: E)

  /** One octet, as the unsigned integer it denotes. */
  type Byte = b: int | 0 <= b < 256

  type Bytes = seq<Byte>

  /** An identity public key; in the in-process addressing model also the transport address. */
  type Ik = Bytes

  const U32_MAX: nat := 0xFFFF_FFFF
  const U64_MAX: nat := 0xFFFF_FFFF_FFFF_FFFF

  function Min(a: int, b: int): int { if a <= b then a else b }

  function Max(a: int, b: int): int { if a >= b then a else b }

  /** `u64::saturating_sub` on values that are themselves in range. */
  function SaturatingSub(a: nat, b: nat): nat { if a >= b then a - b else 0 }

  /** `u64::saturating_add`. */
  function SaturatingAdd64(a: nat, b: nat): nat { Min(a + b, U64_MAX) }

  /** 2^n, the factor of a left shift by `n`. */
  function Pow2(n: nat): (p: nat)
    ensures p >= 1
  {
    if n == 0 then 1 else 2 * Pow2(n - 1)
  }

  /** `to_ascii_lowercase`. */
  function AsciiLower(c: char): char {
    if 'A' <= c <= 'Z' then (c as int - 'A' as int + 'a' as int) as char else c
  }

  function Lower(s: string): (r: string)
    ensures |r| == |s|
    ensures forall i :: 0 <= i < |s| ==> r[i] == AsciiLower(s[i])
  {
    seq(|s|, i requires 0 <= i < |s| => AsciiLower(s[i]))
  }

  // Multiplication facts, one at a time, so that no proof has to search for them.

  lemma MulLe(a: int, b: int, c: int)
    requires a <= b && 0 <= c
    ensures a * c <= b * c
  {
  }

  lemma MulAdd(a: int, b: int, c: int)
    ensures (a + b) * c == a * c + b * c
  {
  }

  lemma MulAssoc(a: int, b: int, c: int)
    ensures a * b * c == a * (b * c)
  {
  }

  lemma DivMod(v: int, b: int)
    requires b > 0
    ensures v == (v / b) * b + v % b && 0 <= v % b < b
  {
  }

  /** Quotient and remainder are determined by the number. */
  lemma DivModUnique(x: int, y: int, d: int, e: int, base: int)
    requires base > 0 && 0 <= d < base && 0 <= e < base
    requires x * base + d == y * base + e
    ensures x == y && d == e
  {
    if x > y {
      MulLe(y + 1, x, base);
      MulAdd(y, 1, base);
    } else if x < y {
      MulLe(x + 1, y, base);
      MulAdd(x, 1, base);
    }
  }

  /** A quotient is below `k` exactly when the number is below `k * b`. */
  lemma DivBelow(v: int, k: int, b: int)
    requires b > 0
    ensures v / b < k <==> v < k * b
  {
    DivMod(v, b);
    if v / b < k {
      MulLe(v / b + 1, k, b);
      MulAdd(v / b, 1, b);
    } else {
      MulLe(k, v / b, b);
    }
  }

  /** Moving whole multiples of `b` in and out of a quotient. */
  lemma DivShift(v: int, k: int, b: int)
    requires b > 0
    ensures (v + k * b) / b == v / b + k
  {
    DivMod(v, b);
    DivMod(v + k * b, b);
    MulAdd(v / b, k, b);
    DivModUnique((v + k * b) / b, v / b + k, (v + k * b) % b, v % b, b);
  }

  lemma DivMonotone(v: int, w: int, b: int)
    requires b > 0 && v <= w
    ensures v / b <= w / b
  {
    DivMod(w, b);
    DivBelow(v, w / b + 1, b);
    MulAdd(w / b, 1, b);
  }
}
