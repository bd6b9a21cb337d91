/** What a wrapped cell holds, octet by octet: routing and fragment under one keystream per hop. */
module OnionShape {
  import opened Prelude
  import opened Positional
  import opened Onion
  import OnionLossless

  function Joined(a: Bytes, b: Bytes): Bytes { a + b }

  /** How many of the hops' keystreams set bit j of octet k. */
  function StreamBits(h: Hash, secrets: seq<Digest>, tag: Bytes, k: nat, j: nat): nat
    decreases secrets
  {
    if secrets == [] then 0
    else Bit(h(secrets[0] + tag + Be(k / 32, 8))[k % 32], j) + StreamBits(h, secrets[1..], tag, k, j)
  }

  /** `c` is `plain` with one keystream per secret combined into it. */
  ghost predicate Masked(h: Hash, c: Bytes, plain: Bytes, secrets: seq<Digest>, tag: Bytes) {
    && |c| == |plain|
    && forall k, j :: 0 <= k < |plain| && 0 <= j < 8 ==>
         Bit(c[k], j) == (Bit(plain[k], j) + StreamBits(h, secrets, tag, k, j)) % 2
  }

  /** Hop j, seeing this group element, shares this secret and passes that element on. */
  ghost predicate Shares(h: Hash, path: MixPath, j: nat, element: Digest, secret: Digest, next: Digest)
    requires j < |path.hops| < 256
  {
    && secret == h(element + path.hops[j].mixKey + Be(path.epoch, 8) + [j])
    && next == h(Joined(element, secret))
  }

  /** The group element each hop sees and the secret it shares, from the first element on. */
  ghost predicate Schedule(h: Hash, path: MixPath, a: Digest, elements: seq<Digest>, secrets: seq<Digest>) {
    && |secrets| == |path.hops| < 256 && |elements| == |path.hops| + 1 && elements[0] == a
    && forall j :: 0 <= j < |path.hops| ==> Shares(h, path, j, elements[j], secrets[j], elements[j + 1])
  }

  /** One command per hop: the exit's mark or none, the delay, and whom to forward to; zeros after the last. */
  ghost predicate Routes(h: Hash, hops: seq<MixHop>, b: Bytes) {
    && |b| == 240 && |hops| <= 5
    && (forall j :: 0 <= j < |hops| ==> Routing(h, hops, j, b[48 * j..48 * j + 48]))
    && forall k :: 48 * |hops| <= k < 240 ==> b[k] == 0
  }

  ghost predicate Routing(h: Hash, hops: seq<MixHop>, j: nat, cmd: Bytes)
    requires j < |hops|
  {
    && |cmd| == 48
    && cmd[..2] == (if j + 1 == |hops| then [1, 1] else [0, 0])
    && cmd[2..6] == Be(hops[j].delayMs, 4)
    && (j + 1 < |hops| ==> cmd[6..38] == h(hops[j + 1].nodeIk))
    && (j + 1 == |hops| ==> forall k :: 6 <= k < 38 ==> cmd[k] == 0)
    && forall k :: 38 <= k < 48 ==> cmd[k] == 0
  }

  /** Message id, place, number of fragments, length of the whole, then the slice of the payload, zeros past its end. */
  ghost predicate Carries(h: Hash, inner: Bytes, seed: Digest, epoch: nat, count: nat, i: nat, d: Bytes) {
    && |d| == 2048
    && d[..8] == h(seed + [0x6d, 0x73, 0x67, 0x2d, 0x69, 0x64] + Be(epoch, 8))[..8]
    && d[8..10] == Be(i, 2) && d[10..12] == Be(count, 2) && d[12..16] == Be(|inner|, 4)
    && forall k :: 16 <= k < 2048 ==>
         d[k] == if 2032 * i + k - 16 < |inner| then inner[2032 * i + k - 16] else 0
  }

  /** The first group element, the tag over the routing as it is sent, and both parts under the keystreams. */
  ghost predicate Wraps(h: Hash, c: Cell, a: Digest, secrets: seq<Digest>, routing: Bytes, fragment: Bytes) {
    && secrets != [] && c.alpha == a && c.gamma == h(secrets[0] + c.beta)[..16]
    && Masked(h, c.beta, routing, secrets, [0x62, 0x65, 0x74, 0x61])
    && Masked(h, c.delta, fragment, secrets, [0x64, 0x65, 0x6c, 0x74, 0x61])
  }

  /** The i-th of `count` cells. */
  ghost predicate IsCell(h: Hash, inner: Bytes, path: MixPath, seed: Digest, count: nat, i: nat, c: Cell) {
    var a := h(seed + Be(i, 2) + Be(path.epoch, 8) + [0x61, 0x6c, 0x70, 0x68, 0x61]);
    exists elements, secrets, routing, fragment ::
      && Schedule(h, path, a, elements, secrets) && Routes(h, path.hops, routing)
      && Carries(h, inner, seed, path.epoch, count, i, fragment) && Wraps(h, c, a, secrets, routing, fragment)
  }

  // --- keystreams --------------------------------------------------------------------------------------------

  lemma LayersPush(h: Hash, buf: Bytes, secrets: seq<Digest>, tag: Bytes, k: nat, j: nat)
    requires secrets != []
    ensures Layers(h, buf, secrets, tag) == Layer(h, Layers(h, buf, secrets[1..], tag), secrets[0], tag)
    ensures StreamBits(h, secrets, tag, k, j)
         == Bit(h(secrets[0] + tag + Be(k / 32, 8))[k % 32], j) + StreamBits(h, secrets[1..], tag, k, j)
  {
    hide Layer, Be, Bit;
  }

  lemma {:induction false} LayersAt(h: Hash, buf: Bytes, secrets: seq<Digest>, tag: Bytes, k: nat, j: nat)
    requires k < |buf| && j < 8
    ensures Bit(Layers(h, buf, secrets, tag)[k], j) == (Bit(buf[k], j) + StreamBits(h, secrets, tag, k, j)) % 2
    decreases secrets
  {
    hide Layer, Bit, Be;
    if secrets != [] {
      LayersPush(h, buf, secrets, tag, k, j);
      hide Layers, StreamBits;
      LayersAt(h, buf, secrets[1..], tag, k, j);
      LayerIsXor(h, Layers(h, buf, secrets[1..], tag), secrets[0], tag, k, j);
    }
  }

  lemma LayersMask(h: Hash, buf: Bytes, secrets: seq<Digest>, tag: Bytes)
    ensures Masked(h, Layers(h, buf, secrets, tag), buf, secrets, tag)
  {
    hide Layers, StreamBits, Bit;
    forall k, j | 0 <= k < |buf| && 0 <= j < 8
      ensures Bit(Layers(h, buf, secrets, tag)[k], j) == (Bit(buf[k], j) + StreamBits(h, secrets, tag, k, j)) % 2
    {
      LayersAt(h, buf, secrets, tag, k, j);
    }
  }

  // --- secrets -----------------------------------------------------------------------------------------------

  function Elements(h: Hash, a: Digest, hops: seq<MixHop>, epoch: nat, j: nat): (es: seq<Digest>)
    requires j <= |hops|
    ensures |es| == |hops| - j + 1 && es[0] == a
    decreases |hops| - j
  {
    if j == |hops| then [a]
    else [a] + Elements(h, NextAlpha(h, a, HopSecret(h, a, hops[j].mixKey, epoch, j)), hops, epoch, j + 1)
  }

  lemma FirstShares(h: Hash, path: MixPath, j: nat, a: Digest)
    requires j < |path.hops| < 256
    ensures var s := HopSecret(h, a, path.hops[j].mixKey, path.epoch, j);
            && Shares(h, path, j, a, s, NextAlpha(h, a, s))
            && Secrets(h, a, path.hops, path.epoch, j)
               == [s] + Secrets(h, NextAlpha(h, a, s), path.hops, path.epoch, j + 1)
            && Elements(h, a, path.hops, path.epoch, j)
               == [a] + Elements(h, NextAlpha(h, a, s), path.hops, path.epoch, j + 1)
  {
    hide Be;
  }

  lemma {:induction false} SecretsChain(h: Hash, path: MixPath, a: Digest, j: nat, k: nat)
    requires j <= k < |path.hops| < 256
    ensures var es, ss := Elements(h, a, path.hops, path.epoch, j), Secrets(h, a, path.hops, path.epoch, j);
            Shares(h, path, k, es[k - j], ss[k - j], es[k - j + 1])
    decreases |path.hops| - j
  {
    hide *;
    FirstShares(h, path, j, a);
    if j < k {
      SecretsChain(h, path, NextAlpha(h, a, HopSecret(h, a, path.hops[j].mixKey, path.epoch, j)), j + 1, k);
    }
  }

  lemma SecretsSchedule(h: Hash, path: MixPath, a: Digest)
    requires |path.hops| < 256
    ensures Schedule(h, path, a, Elements(h, a, path.hops, path.epoch, 0), Secrets(h, a, path.hops, path.epoch, 0))
  {
    hide Elements, Secrets, Shares;
    var es, ss := Elements(h, a, path.hops, path.epoch, 0), Secrets(h, a, path.hops, path.epoch, 0);
    forall j | 0 <= j < |path.hops|
      ensures Shares(h, path, j, es[j], ss[j], es[j + 1])
    {
      SecretsChain(h, path, a, 0, j);
    }
  }

  // --- routing -----------------------------------------------------------------------------------------------

  function Command(h: Hash, hops: seq<MixHop>, j: nat): (b: Bytes)
    requires j < |hops|
    ensures |b| == 48
  {
    var last := j + 1 == |hops|;
    CommandBytes(last, hops[j].delayMs, if last then Zeros(32) else h(hops[j + 1].nodeIk))
  }

  lemma CommandRoutes(h: Hash, hops: seq<MixHop>, j: nat)
    requires j < |hops|
    ensures Routing(h, hops, j, Command(h, hops, j))
  {
    hide Be;
  }

  lemma {:induction false} CommandsAt(h: Hash, hops: seq<MixHop>, j: nat, k: nat)
    requires j <= k < |hops|
    ensures Commands(h, hops, j)[48 * (k - j)..48 * (k - j) + 48] == Command(h, hops, k)
    decreases |hops| - j
  {
    hide CommandBytes;
    var cmd, rest := Command(h, hops, j), Commands(h, hops, j + 1);
    assert Commands(h, hops, j) == cmd + rest;
    if j < k {
      CommandsAt(h, hops, j + 1, k);
      assert (cmd + rest)[48 * (k - j)..48 * (k - j) + 48] == rest[48 * (k - j - 1)..48 * (k - j - 1) + 48];
    }
  }

  lemma BetaRoutes(h: Hash, hops: seq<MixHop>)
    requires |hops| <= 5
    ensures Routes(h, hops, PlainBeta(h, hops))
  {
    hide Commands, Command, Routing;
    var b, cs := PlainBeta(h, hops), Commands(h, hops, 0);
    forall j | 0 <= j < |hops|
      ensures Routing(h, hops, j, b[48 * j..48 * j + 48])
    {
      CommandsAt(h, hops, 0, j);
      CommandRoutes(h, hops, j);
      assert b[48 * j..48 * j + 48] == cs[48 * j..48 * j + 48];
    }
  }

  // --- the fragment ------------------------------------------------------------------------------------------

  lemma FieldsOfFive(a: Bytes, b: Bytes, c: Bytes, d: Bytes, e: Bytes)
    requires |a| == 8 && |b| == 2 && |c| == 2 && |d| == 4
    ensures var s := a + b + c + d + e;
            s[..8] == a && s[8..10] == b && s[10..12] == c && s[12..16] == d && s[16..] == e
  {
    var ab := a + b;
    var abc := ab + c;
    var abcd := abc + d;
    assert (abcd + e)[..16] == abcd && abcd[..12] == abc && abc[..10] == ab;
  }

  lemma DeltaHeader(h: Hash, inner: Bytes, seed: Digest, epoch: nat, count: nat, i: nat)
    ensures var d := PlainDelta(h, inner, seed, epoch, count, i);
            && d[..8] == h(seed + [0x6d, 0x73, 0x67, 0x2d, 0x69, 0x64] + Be(epoch, 8))[..8]
            && d[8..10] == Be(i, 2) && d[10..12] == Be(count, 2) && d[12..16] == Be(|inner|, 4)
            && d[16..] == Fragment(inner, i)
  {
    hide Be, Fragment;
    FieldsOfFive(MsgId(h, seed, epoch), Be(i, 2), Be(count, 2), Be(|inner|, 4), Fragment(inner, i));
  }

  lemma FragmentIs(inner: Bytes, i: nat, k: nat)
    requires k < 2032
    ensures Fragment(inner, i)[k] == if 2032 * i + k < |inner| then inner[2032 * i + k] else 0
  {
  }

  lemma DeltaCarries(h: Hash, inner: Bytes, seed: Digest, epoch: nat, count: nat, i: nat)
    ensures Carries(h, inner, seed, epoch, count, i, PlainDelta(h, inner, seed, epoch, count, i))
  {
    hide PlainDelta, Be, Fragment;
    var d := PlainDelta(h, inner, seed, epoch, count, i);
    DeltaHeader(h, inner, seed, epoch, count, i);
    forall k | 16 <= k < 2048
      ensures d[k] == if 2032 * i + k - 16 < |inner| then inner[2032 * i + k - 16] else 0
    {
      FragmentIs(inner, i, k - 16);
      assert d[k] == d[16..][k - 16];
    }
  }

  // --- the cells of a wrap -----------------------------------------------------------------------------------

  lemma WrapCellIs(h: Hash, inner: Bytes, path: MixPath, seed: Digest, count: nat, i: nat)
    requires 0 < |path.hops| <= 5
    ensures IsCell(h, inner, path, seed, count, i, WrapCell(h, inner, path, seed, count, i))
  {
    hide Layers, Secrets, PlainBeta, PlainDelta, Schedule, Routes, Carries, Masked, Elements, Be;
    var a := CellAlpha(h, seed, path.epoch, i);
    var elements, secrets := Elements(h, a, path.hops, path.epoch, 0), Secrets(h, a, path.hops, path.epoch, 0);
    var routing, fragment := PlainBeta(h, path.hops), PlainDelta(h, inner, seed, path.epoch, count, i);
    SecretsSchedule(h, path, a);
    BetaRoutes(h, path.hops);
    DeltaCarries(h, inner, seed, path.epoch, count, i);
    LayersMask(h, routing, secrets, BETA_LABEL);
    LayersMask(h, fragment, secrets, DELTA_LABEL);
  }

  /**
   * Every cell of a wrap: under one keystream per hop, each keyed by the secret of that hop and none left out, stand
   * the routing commands of the path and one slice of the payload; the tag authenticates the routing as it is sent.
   */
  lemma CellsAreMasked(h: Hash, inner: Bytes, path: MixPath, seed: Digest, i: nat)
    requires Wrap(h, inner, path, seed).Ok? && i < |Wrap(h, inner, path, seed).value|
    ensures var cells := Wrap(h, inner, path, seed).value;
            IsCell(h, inner, path, seed, |cells|, i, cells[i])
  {
    hide WrapCell, IsCell;
    OnionLossless.WrapFailsClosed(h, inner, path, seed);
    WrapCellIs(h, inner, path, seed, |Wrap(h, inner, path, seed).value|, i);
  }
}
