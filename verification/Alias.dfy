/**
 * The key-derived gateway alias (node/src/naming.rs): unpadded lower-case base32 of an identity
 * key behind a fixed prefix.
 *
 * The reference definition is by value, not by bit shuffling: section 6 of RFC 4648 regroups the
 * bits of the input, so the text is the base-32 numeral of the number the bytes denote, scaled up by
 * the padding bits of the last group.  The loops over the `buf`/`bits` accumulator are proved against it.
 */
module Alias {
  import opened Prelude
  import opened Positional

  const GATEWAY_ALIAS_PREFIX: string := "dmtap1-"

  // --- alphabet -------------------------------------------------------------------------------

  /** The i-th letter of the lower-case RFC 4648 alphabet, `a`..`z` then `2`..`7`. */
  function Letter(i: Quintet): char {
    if i < 26 then ('a' as int + i) as char else ('2' as int + (i - 26)) as char
  }

  /** The position of a letter in the alphabet. */
  function Position(c: char): (r: Option<Quintet>)
    ensures r.Some? ==> Letter(r.value) == c
    ensures r.None? ==> forall i: Quintet :: Letter(i) != c
  {
    if 'a' <= c <= 'z' then Some(c as int - 'a' as int)
    else if '2' <= c <= '7' then Some(c as int - '2' as int + 26)
    else None
  }

  /** The alphabet of section 6 of RFC 4648, in lower case: `a` to `z` from code 97 on, then `2` to `7` from 50 on. */
  lemma AlphabetIs(i: Quintet)
    ensures Letter(i) as int == if i < 26 then 97 + i else 24 + i
    ensures Position(Letter(i)) == Some(i)
  {
    assert 'a' as int == 97 && '2' as int == 50;
  }

  function Spell(q: seq<Quintet>): (s: string)
    ensures |s| == |q|
    ensures forall i :: 0 <= i < |q| ==> s[i] == Letter(q[i])
  {
    seq(|q|, i requires 0 <= i < |q| => Letter(q[i]))
  }

  lemma SpellPush(q: seq<Quintet>, x: Quintet)
    ensures Spell(q + [x]) == Spell(q) + [Letter(x)]
  {
  }

  lemma SpellInjective(p: seq<Quintet>, q: seq<Quintet>)
    requires Spell(p) == Spell(q)
    ensures p == q
  {
    assert |p| == |Spell(p)| == |q|;
    forall i | 0 <= i < |p|
      ensures p[i] == q[i]
    {
      assert Spell(p)[i] == Spell(q)[i];
    }
  }

  // --- the reference encoding -------------------------------------------------------------------

  /** Number of letters for n octets, ceil(8n/5). */
  function Letters(n: nat): nat { (8 * n + 4) / 5 }

  /** Padding bits in the last letter. */
  function Pad(n: nat): (p: nat)
    ensures p < 5 && 5 * Letters(n) == 8 * n + p
  {
    5 * Letters(n) - 8 * n
  }

  /** `q` is the regrouping of the bits of `d` into letters. */
  ghost predicate Regroups(d: Bytes, q: seq<Quintet>) {
    && |q| == Letters(|d|)
    && Val(q, 32) == Val(d, 256) * Pow2(Pad(|d|))
  }

  /** The base-32 digits of `d`. */
  ghost function Digits(d: Bytes): (q: seq<Quintet>)
    ensures |q| == Letters(|d|)
  {
    ToBase32(Val(d, 256) * Pow2(Pad(|d|)), Letters(|d|))
  }

  ghost function Base32(d: Bytes): (s: string)
    ensures |s| == Letters(|d|)
  {
    Spell(Digits(d))
  }

  lemma SmallPowers()
    ensures Pow2(0) == 1 && Pow2(1) == 2 && Pow2(2) == 4 && Pow2(3) == 8 && Pow2(4) == 16
    ensures Pow2(5) == 32 && Pow2(6) == 64 && Pow2(7) == 128 && Pow2(8) == 256
  {
    assert Pow2(4) == 16;
    assert Pow2(8) == 256;
  }

  lemma DigitsRegroup(d: Bytes)
    ensures Regroups(d, Digits(d))
  {
    SmallPowers();
    ValBound(d, 8);
    var n, p := Letters(|d|), Pad(|d|);
    Pow2Add(8 * |d|, p);
    assert Val(d, 256) * Pow2(p) < Pow2(5 * n) by {
      MulLe(Val(d, 256) + 1, Pow2(8 * |d|), Pow2(p));
      MulAdd(Val(d, 256), 1, Pow2(p));
    }
    MulLe(0, Val(d, 256), Pow2(p));
    ToBase32Val(Val(d, 256) * Pow2(p), n);
  }

  lemma RegroupsUnique(d: Bytes, q: seq<Quintet>)
    requires Regroups(d, q)
    ensures q == Digits(d)
  {
    DigitsRegroup(d);
    ValInjective(q, Digits(d), 32);
  }

  /** Regrouping loses nothing: the letters determine the octets. */
  lemma RegroupsInjective(d: Bytes, e: Bytes, q: seq<Quintet>)
    requires Regroups(d, q) && Regroups(e, q)
    ensures d == e
  {
    assert 8 * |d| + Pad(|d|) == 8 * |e| + Pad(|e|);
    assert |d| == |e|;
    DivModUnique(Val(d, 256), Val(e, 256), 0, 0, Pow2(Pad(|d|)));
    ValInjective(d, e, 256);
  }

  /** Two octet strings with the same text are equal: decoding has at most one answer. */
  lemma Base32Injective(d: Bytes, e: Bytes)
    requires Base32(d) == Base32(e)
    ensures d == e
  {
    SpellInjective(Digits(d), Digits(e));
    DigitsRegroup(d);
    DigitsRegroup(e);
    RegroupsInjective(d, e, Digits(d));
  }

  // --- the accumulator ----------------------------------------------------------------------------

  /** `buf >> n`, which drops the n low bits. */
  function Shr(buf: nat, n: nat): nat {
    if n == 0 then buf else Shr(buf / 2, n - 1)
  }

  /** `buf & ((1 << n) - 1)`, which keeps the n low bits. */
  function Mask(buf: nat, n: nat): nat {
    if n == 0 then 0 else buf % 2 + 2 * Mask(buf / 2, n - 1)
  }

  lemma {:induction false} ShiftsSplit(buf: nat, n: nat)
    ensures buf == Shr(buf, n) * Pow2(n) + Mask(buf, n)
    ensures Mask(buf, n) < Pow2(n)
  {
    if n > 0 {
      ShiftsSplit(buf / 2, n - 1);
      MulAssoc(Shr(buf, n), Pow2(n - 1), 2);
    }
  }

  /** Values that fit are their own mask. */
  lemma MaskFits(buf: nat, n: nat)
    requires buf < Pow2(n)
    ensures Mask(buf, n) == buf
  {
    ShiftsSplit(buf, n);
    DivModUnique(Shr(buf, n), 0, Mask(buf, n), buf, Pow2(n));
  }

  /** Taking the top w of n+w pending bits: the rest stays masked. */
  lemma MaskSplit(buf: nat, n: nat, w: nat)
    ensures Mask(buf, n + w) == (Shr(buf, n) % Pow2(w)) * Pow2(n) + Mask(buf, n)
  {
    var p, m := Pow2(n), Pow2(w);
    ShiftsSplit(buf, n);
    ShiftsSplit(buf, n + w);
    Pow2Add(w, n);
    var q := Shr(buf, n);
    DivMod(q, m);
    MulLe(0, q % m, p);
    MulLe(q % m + 1, m, p);
    MulAdd(q % m, 1, p);
    MulAdd((q / m) * m, q % m, p);
    MulAssoc(q / m, m, p);
    DivModUnique(Shr(buf, n + w), q / m, Mask(buf, n + w), (q % m) * p + Mask(buf, n), m * p);
  }

  /** Shifting w new bits into a masked accumulator that stands behind `done`. */
  lemma ShiftIn(done: int, buf: nat, bits: nat, x: nat, w: nat)
    requires buf < Pow2(bits) && x < Pow2(w)
    ensures buf * Pow2(w) + x < Pow2(bits + w)
    ensures (done * Pow2(bits) + buf) * Pow2(w) + x == done * Pow2(bits + w) + (buf * Pow2(w) + x)
  {
    Pow2Add(bits, w);
    MulLe(buf + 1, Pow2(bits), Pow2(w));
    MulAdd(buf, 1, Pow2(w));
    MulAdd(done * Pow2(bits), buf, Pow2(w));
    MulAssoc(done, Pow2(bits), Pow2(w));
  }

  // --- encoding -------------------------------------------------------------------------------------

  // The two lemmas that read input also show that the 32-bit accumulator never overflows.

  /** The letters emitted, `q`, followed by the `bits` pending bits of `buf`, are the octets read, `d`. */
  ghost predicate Emitted(d: Bytes, q: seq<Quintet>, buf: nat, bits: nat) {
    && 5 * |q| + bits == 8 * |d|
    && Val(q, 32) * Pow2(bits) + Mask(buf, bits) == Val(d, 256)
  }

  lemma EmittedNothing()
    ensures Emitted([], [], 0, 0) && Mask(0, 0) == 0 && Spell([]) == ""
  {
  }

  lemma EmittedByte(d: Bytes, q: seq<Quintet>, buf: nat, bits: nat, b: Byte)
    requires Emitted(d, q, buf, bits) && Mask(buf, bits) == buf && bits < 5
    ensures Emitted(d + [b], q, buf * 256 + b, bits + 8)
    ensures buf * 256 + b <= U32_MAX
  {
    SmallPowers();
    ShiftsSplit(buf, bits);
    ShiftIn(Val(q, 32), buf, bits, b, 8);
    MaskFits(buf * 256 + b, bits + 8);
    ValPush(d, b, 256);
  }

  /** Dropping the bits that are already out, the encoder's guard against overflow, loses nothing. */
  lemma EmittedMask(d: Bytes, q: seq<Quintet>, buf: nat, bits: nat)
    requires Emitted(d, q, buf, bits)
    ensures Emitted(d, q, Mask(buf, bits), bits) && Mask(Mask(buf, bits), bits) == Mask(buf, bits)
  {
    ShiftsSplit(buf, bits);
    MaskFits(Mask(buf, bits), bits);
  }

  /** The five bits above the lowest `bits`. */
  function TopFive(buf: nat, bits: nat): Quintet { Shr(buf, bits) % 32 }

  /** The last bits, shifted up to five. */
  function PaddedFive(buf: nat, bits: nat): Quintet
    requires bits <= 5
  {
    (buf * Pow2(5 - bits)) % 32
  }

  lemma EmittedLetter(d: Bytes, q: seq<Quintet>, buf: nat, bits: nat)
    requires Emitted(d, q, buf, bits) && bits >= 5
    ensures Emitted(d, q + [TopFive(buf, bits - 5)], buf, bits - 5)
  {
    var p, x := Pow2(bits - 5), TopFive(buf, bits - 5);
    SmallPowers();
    Pow2Add(5, bits - 5);
    MaskSplit(buf, bits - 5, 5);
    MulAssoc(Val(q, 32), 32, p);
    MulAdd(Val(q, 32) * 32, x, p);
    ValPush(q, x, 32);
  }

  /** Pending bits, fewer than five, still fit five when shifted up. */
  lemma PaddingFits(buf: nat, bits: nat)
    requires buf < Pow2(bits) && bits <= 5
    ensures PaddedFive(buf, bits) == buf * Pow2(5 - bits)
  {
    SmallPowers();
    ShiftIn(0, buf, bits, 0, 5 - bits);
  }

  lemma PadIs(n: nat, letters: nat, pad: nat)
    requires 5 * letters == 8 * n + pad && pad < 5
    ensures letters == Letters(n) && pad == Pad(n)
  {
  }

  lemma RegroupsWhole(d: Bytes, q: seq<Quintet>, buf: nat)
    requires Emitted(d, q, buf, 0)
    ensures Regroups(d, q)
  {
    hide Val;
    SmallPowers();
    PadIs(|d|, |q|, 0);
  }

  lemma RegroupsPadded(d: Bytes, q: seq<Quintet>, buf: nat, bits: nat)
    requires Emitted(d, q, buf, bits) && Mask(buf, bits) == buf && 0 < bits < 5
    ensures Regroups(d, q + [PaddedFive(buf, bits)])
  {
    hide Val, Pow2, Mask, PaddedFive, Pad, Letters;
    var x := PaddedFive(buf, bits);
    ShiftsSplit(buf, bits);
    SmallPowers();
    PaddingFits(buf, bits);
    ShiftIn(Val(q, 32), buf, bits, 0, 5 - bits);
    ValPush(q, x, 32);
    PadIs(|d|, |q| + 1, 5 - bits);
  }

  /** The encoder's closing step, a zero-padded partial letter included. */
  lemma EmittedAll(d: Bytes, q: seq<Quintet>, buf: nat, bits: nat)
    requires Emitted(d, q, buf, bits) && Mask(buf, bits) == buf && bits < 5
    ensures bits == 0 ==> Base32(d) == Spell(q)
    ensures bits > 0 ==> Base32(d) == Spell(q) + [Letter(PaddedFive(buf, bits))]
  {
    hide Emitted, Mask, PaddedFive, Regroups, Spell, Letter;
    if bits == 0 {
      RegroupsWhole(d, q, buf);
      RegroupsUnique(d, q);
    } else {
      RegroupsPadded(d, q, buf, bits);
      RegroupsUnique(d, q + [PaddedFive(buf, bits)]);
      SpellPush(q, PaddedFive(buf, bits));
    }
  }

  method Base32Encode(data: Bytes) returns (out: string)
    ensures out == Base32(data)
  {
    hide *;
    out := "";
    var buf: nat, bits: nat := 0, 0;
    ghost var q: seq<Quintet> := [];
    EmittedNothing();
    assert data[..0] == [];
    for i := 0 to |data|
      invariant bits < 5 && Emitted(data[..i], q, buf, bits) && Mask(buf, bits) == buf
      invariant out == Spell(q)
    {
      EmittedByte(data[..i], q, buf, bits, data[i]);
      ghost var d := data[..i + 1];
      assert d == data[..i] + [data[i]];
      buf := buf * 256 + data[i];
      bits := bits + 8;
      while bits >= 5
        invariant Emitted(d, q, buf, bits) && out == Spell(q)
      {
        EmittedLetter(d, q, buf, bits);
        bits := bits - 5;
        SpellPush(q, TopFive(buf, bits));
        out := out + [Letter(TopFive(buf, bits))];
        q := q + [TopFive(buf, bits)];
      }
      EmittedMask(d, q, buf, bits);
      buf := Mask(buf, bits);
    }
    assert data[..|data|] == data;
    EmittedAll(data, q, buf, bits);
    if bits > 0 {
      out := out + [Letter(PaddedFive(buf, bits))];
    }
  }

  // --- decoding -------------------------------------------------------------------------------------

  /** The octets produced, `o`, followed by the `bits` pending bits `buf`, are the letters read, `q`. */
  ghost predicate Consumed(q: seq<Quintet>, o: Bytes, buf: nat, bits: nat) {
    && 8 * |o| + bits == 5 * |q|
    && buf < Pow2(bits)
    && Val(o, 256) * Pow2(bits) + buf == Val(q, 32)
  }

  lemma ConsumedNothing()
    ensures Consumed([], [], 0, 0) && Spell([]) == ""
  {
  }

  lemma ConsumedLetter(q: seq<Quintet>, o: Bytes, buf: nat, bits: nat, x: Quintet)
    requires Consumed(q, o, buf, bits) && bits < 8
    ensures Consumed(q + [x], o, buf * 32 + x, bits + 5)
    ensures buf * 32 + x <= U32_MAX
  {
    SmallPowers();
    ShiftIn(Val(o, 256), buf, bits, x, 5);
    ValPush(q, x, 32);
  }

  lemma ConsumedByte(q: seq<Quintet>, o: Bytes, buf: nat, bits: nat)
    requires Consumed(q, o, buf, bits) && bits >= 8
    ensures Consumed(q, o + [Shr(buf, bits - 8) % 256], Mask(buf, bits - 8), bits - 8)
  {
    var p, x := Pow2(bits - 8), Shr(buf, bits - 8) % 256;
    SmallPowers();
    Pow2Add(8, bits - 8);
    MaskFits(buf, bits);
    MaskSplit(buf, bits - 8, 8);
    ShiftsSplit(buf, bits - 8);
    MulAssoc(Val(o, 256), 256, p);
    MulAdd(Val(o, 256) * 256, x, p);
    ValPush(o, x, 256);
  }

  /** The decoder's verdict at the end of the text is right either way. */
  lemma ConsumedAll(q: seq<Quintet>, o: Bytes, buf: nat, bits: nat)
    requires Consumed(q, o, buf, bits) && bits < 8
    ensures bits < 5 && buf == 0 ==> Base32(o) == Spell(q)
    ensures bits >= 5 || buf != 0 ==> forall d: Bytes :: Base32(d) != Spell(q)
  {
    if bits < 5 && buf == 0 {
      assert Pad(|o|) == bits;
      RegroupsUnique(o, q);
    }
    forall d: Bytes | Base32(d) == Spell(q)
      ensures bits < 5 && buf == 0
    {
      SpellInjective(Digits(d), q);
      DigitsRegroup(d);
      NoSlack(q, o, buf, bits, d);
    }
  }

  lemma SameRemainder(a: nat, pad: nat, b: nat, bits: nat)
    requires 8 * a + pad == 8 * b + bits && pad < 8 && bits < 8
    ensures a == b && pad == bits
  {
  }

  lemma NoSlack(q: seq<Quintet>, o: Bytes, buf: nat, bits: nat, d: Bytes)
    requires Consumed(q, o, buf, bits) && bits < 8 && Regroups(d, q)
    ensures bits < 5 && buf == 0
  {
    hide Val, Pow2;
    SameRemainder(|d|, Pad(|d|), |o|, bits);
    DivModUnique(Val(d, 256), Val(o, 256), 0, buf, Pow2(bits));
  }

  /** A text with a foreign character is nobody's encoding. */
  lemma ForeignLetter(s: string, j: nat)
    requires j < |s| && Position(AsciiLower(s[j])).None?
    ensures forall d: Bytes :: Base32(d) != Lower(s)
  {
    forall d: Bytes
      ensures Base32(d) != Lower(s)
    {
      if |Base32(d)| == |s| {
        assert Base32(d)[j] == Letter(Digits(d)[j]);
      }
    }
  }

  lemma NonAsciiIsForeign(c: char)
    ensures c as int >= 128 ==> Position(AsciiLower(c)).None?
  {
  }

  /** Fails closed: an answer is the one octet string whose canonical text this is, up to case. */
  method Base32Decode(s: string) returns (r: Option<Bytes>)
    ensures r.Some? ==> Base32(r.value) == Lower(s)
    ensures r.None? ==> forall d: Bytes :: Base32(d) != Lower(s)
  {
    hide *;
    var out: Bytes := [];
    var buf: nat, bits: nat := 0, 0;
    ghost var q: seq<Quintet> := [];
    ConsumedNothing();
    assert Lower(s)[..0] == "";
    for j := 0 to |s|
      invariant bits < 8 && Consumed(q, out, buf, bits)
      invariant Spell(q) == Lower(s)[..j]
    {
      var idx := Position(AsciiLower(s[j]));
      if s[j] as int >= 128 || idx.None? {
        ForeignLetter(s, j) by {
          NonAsciiIsForeign(s[j]);
        }
        return None;
      }
      ConsumedLetter(q, out, buf, bits, idx.value);
      SpellPush(q, idx.value);
      q := q + [idx.value];
      assert Lower(s)[..j + 1] == Lower(s)[..j] + [Lower(s)[j]];
      buf := buf * 32 + idx.value;
      bits := bits + 5;
      if bits >= 8 {
        ConsumedByte(q, out, buf, bits);
        bits := bits - 8;
        out := out + [Shr(buf, bits) % 256];
        buf := Mask(buf, bits);
      }
    }
    assert Lower(s)[..|s|] == Lower(s);
    ConsumedAll(q, out, buf, bits);
    if bits >= 5 || buf != 0 {
      return None;
    }
    r := Some(out);
  }

  // --- the alias --------------------------------------------------------------------------------------

  ghost function AliasOf(ik: Bytes): string {
    GATEWAY_ALIAS_PREFIX + Base32(ik)
  }

  method GatewayAliasLocal(ik: Bytes) returns (local: string)
    ensures local == AliasOf(ik)
  {
    var body := Base32Encode(ik);
    local := GATEWAY_ALIAS_PREFIX + body;
  }

  /** A key's alias fits the 64-octet local-part of section 4.5.3.1.1 of RFC 5321. */
  lemma AliasFitsLocalPart(ik: Ik)
    requires |ik| == 32
    ensures |AliasOf(ik)| == 59 && AliasOf(ik)[..7] == "dmtap1-"
  {
    assert Letters(32) == 52;
  }

  lemma LowerTail(s: string, n: nat)
    requires n <= |s|
    ensures Lower(Lower(s)[n..]) == Lower(s)[n..]
  {
    forall i | n <= i < |s|
      ensures AsciiLower(Lower(s)[i]) == Lower(s)[i]
    {
      assert AsciiLower(AsciiLower(s[i])) == AsciiLower(s[i]);
    }
  }

  lemma StripPrefix(local: string, ik: Bytes)
    requires local == AliasOf(ik)
    ensures GATEWAY_ALIAS_PREFIX <= local && local[|GATEWAY_ALIAS_PREFIX|..] == Base32(ik)
  {
  }

  /** The local-part names a key exactly when it is, up to case, that key's alias. */
  method IkFromGatewayAlias(localPart: string) returns (r: Option<Bytes>)
    ensures r.Some? ==> |r.value| == 32 && Lower(localPart) == AliasOf(r.value)
    ensures r.None? ==> forall ik: Bytes :: |ik| == 32 ==> Lower(localPart) != AliasOf(ik)
  {
    hide Base32, Lower, Letter;
    var lower := Lower(localPart);
    var n := |GATEWAY_ALIAS_PREFIX|;
    forall ik: Bytes | lower == AliasOf(ik)
      ensures GATEWAY_ALIAS_PREFIX <= lower && lower[n..] == Base32(ik)
    {
      StripPrefix(lower, ik);
    }
    if !(GATEWAY_ALIAS_PREFIX <= lower) {
      return None;
    }
    var body := lower[n..];
    if body == "" {
      return None;
    }
    LowerTail(localPart, n);
    var decoded := Base32Decode(body);
    if decoded.None? {
      return None;
    }
    forall ik: Bytes | Base32(ik) == Base32(decoded.value)
      ensures ik == decoded.value
    {
      Base32Injective(ik, decoded.value);
    }
    if |decoded.value| != 32 {
      return None;
    }
    r := decoded;
  }
}
