/**
 * The sender-side onion of the private tier (node/src/onion.rs), its reference peeling, and the
 * recipient's reassembly (node/src/reassembly.rs).
 *
 * The hash is any function to 32 octets.  The cell is 2336 octets, the routing command 48 and the
 * fragment header 16; the order of the fields inside the last two is fixed outside this repository.
 */
module Onion {
  import opened Prelude
  import opened Positional

  const MIN_PRIVATE_HOPS: nat := 3
  const R_MAX: nat := 5
  const ALPHA_LEN: nat := 32
  const GAMMA_LEN: nat := 16
  const ROUTING_COMMAND_LEN: nat := 48
  const FRAGMENT_DATA_LEN: nat := 2032
  const DELTA_LEN: nat := 2048
  const BETA_LEN: nat := 240
  const CELL_LEN: nat := 2336

  type Digest = b: Bytes | |b| == 32 witness seq(32, _ => 0)

  type Hash = Bytes -> Digest

  datatype MixHop = MixHop(nodeIk: Ik, mixKey: Digest, delayMs: nat)

  datatype MixPath = MixPath(hops: seq<MixHop>, epoch: nat)

  datatype Cell = Cell(alpha: Bytes, beta: Bytes, gamma: Bytes, delta: Bytes)

  datatype OnionError = PathTooShort | TooManyHops | PayloadTooLarge

  const MSG_ID_LABEL: Bytes := [0x6d, 0x73, 0x67, 0x2d, 0x69, 0x64]
  const ALPHA_LABEL: Bytes := [0x61, 0x6c, 0x70, 0x68, 0x61]
  const BETA_LABEL: Bytes := [0x62, 0x65, 0x74, 0x61]
  const DELTA_LABEL: Bytes := [0x64, 0x65, 0x6c, 0x74, 0x61]

  function Zeros(n: nat): (z: Bytes)
    ensures |z| == n && forall i :: 0 <= i < n ==> z[i] == 0
  {
    seq(n, _ => 0)
  }

  // --- layering -----------------------------------------------------------------------------------

  /** Exclusive or of the n low bits. */
  function XorBits(a: nat, b: nat, n: nat): nat {
    if n == 0 then 0 else 2 * XorBits(a / 2, b / 2, n - 1) + (if a % 2 == b % 2 then 0 else 1)
  }

  lemma {:induction false} XorBitsBound(a: nat, b: nat, n: nat)
    ensures XorBits(a, b, n) < Pow2(n)
  {
    if n > 0 {
      XorBitsBound(a / 2, b / 2, n - 1);
    }
  }

  lemma {:induction false} XorBitsTwice(a: nat, b: nat, n: nat)
    requires a < Pow2(n)
    ensures XorBits(XorBits(a, b, n), b, n) == a
  {
    if n > 0 {
      XorBitsTwice(a / 2, b / 2, n - 1);
      var x := XorBits(a, b, n);
      assert x / 2 == XorBits(a / 2, b / 2, n - 1);
      assert XorBits(x, b, n) % 2 == a % 2;
    }
  }

  lemma EightBits()
    ensures Pow2(8) == 256
  {
    assert Pow2(8) == 16 * Pow2(4) == 256;
  }

  function ByteXor(a: Byte, b: Byte): Byte {
    XorBitsBound(a, b, 8);
    EightBits();
    XorBits(a, b, 8)
  }

  lemma XorTwice(a: Byte, b: Byte)
    ensures ByteXor(ByteXor(a, b), b) == a
  {
    EightBits();
    XorBitsTwice(a, b, 8);
  }

  /** Bit j of a number, the lowest being bit 0. */
  function Bit(a: nat, j: nat): (b: nat)
    ensures b < 2
  {
    if j == 0 then a % 2 else Bit(a / 2, j - 1)
  }

  lemma {:induction false} XorBitsAt(a: nat, b: nat, n: nat, j: nat)
    requires j < n
    ensures Bit(XorBits(a, b, n), j) == (Bit(a, j) + Bit(b, j)) % 2
  {
    if j > 0 {
      XorBitsAt(a / 2, b / 2, n - 1, j - 1);
      assert XorBits(a, b, n) / 2 == XorBits(a / 2, b / 2, n - 1);
    }
  }

  lemma {:induction false} XorBitsCommute(a: nat, b: nat, n: nat)
    ensures XorBits(a, b, n) == XorBits(b, a, n)
  {
    if n > 0 {
      XorBitsCommute(a / 2, b / 2, n - 1);
    }
  }

  /** Octets are combined bit by bit, 1 where exactly one of the two bits is 1; so either is determined by the other. */
  lemma ByteXorBits(a: Byte, b: Byte, c: Byte, j: nat)
    requires j < 8
    ensures Bit(ByteXor(a, b), j) == (Bit(a, j) + Bit(b, j)) % 2
    ensures ByteXor(a, b) == ByteXor(a, c) ==> b == c
  {
    XorBitsAt(a, b, 8, j);
    XorBitsCommute(a, b, 8);
    XorBitsCommute(a, c, 8);
    XorTwice(b, a);
    XorTwice(c, a);
  }

  function KeyByte(h: Hash, key: Bytes, tag: Bytes, i: nat): Byte {
    h(key + tag + Be(i / 32, 8))[i % 32]
  }

  /** One keystream layer over a buffer. */
  function Layer(h: Hash, buf: Bytes, key: Bytes, tag: Bytes): (r: Bytes)
    ensures |r| == |buf|
    ensures forall i :: 0 <= i < |buf| ==> r[i] == ByteXor(buf[i], KeyByte(h, key, tag, i))
  {
    seq(|buf|, i requires 0 <= i < |buf| => ByteXor(buf[i], KeyByte(h, key, tag, i)))
  }

  lemma LayerTwice(h: Hash, buf: Bytes, key: Bytes, tag: Bytes)
    ensures Layer(h, Layer(h, buf, key, tag), key, tag) == buf
  {
    forall i | 0 <= i < |buf|
      ensures Layer(h, Layer(h, buf, key, tag), key, tag)[i] == buf[i]
    {
      XorTwice(buf[i], KeyByte(h, key, tag, i));
    }
  }

  /** A layer flips exactly the bits set in the keystream: the hashes of key, tag and block number, end to end. */
  lemma LayerIsXor(h: Hash, buf: Bytes, key: Bytes, tag: Bytes, k: nat, j: nat)
    requires k < |buf| && j < 8
    ensures Bit(Layer(h, buf, key, tag)[k], j)
         == (Bit(buf[k], j) + Bit(h(key + tag + Be(k / 32, 8))[k % 32], j)) % 2
  {
    ByteXorBits(buf[k], KeyByte(h, key, tag, k), 0, j);
  }

  /** Layers for every secret, the first secret's outermost. */
  function Layers(h: Hash, buf: Bytes, keys: seq<Digest>, tag: Bytes): (r: Bytes)
    ensures |r| == |buf|
    decreases keys
  {
    if keys == [] then buf else Layer(h, Layers(h, buf, keys[1..], tag), keys[0], tag)
  }

  // --- what the sender wraps --------------------------------------------------------------------------

  /** The smallest rung of the bucket ladder that holds `len` octets. */
  function Ladder(len: nat): Option<nat> {
    if len <= FRAGMENT_DATA_LEN then Some(1)
    else if len <= 4 * FRAGMENT_DATA_LEN then Some(4)
    else if len <= 16 * FRAGMENT_DATA_LEN then Some(16)
    else if len <= 32 * FRAGMENT_DATA_LEN then Some(32)
    else None
  }

  const RUNGS: set<nat> := {1, 4, 16, 32}

  lemma LadderIsSmallest(len: nat)
    ensures Ladder(len).None? <==> forall n :: n in RUNGS ==> n * FRAGMENT_DATA_LEN < len
    ensures Ladder(len).Some? ==>
              && Ladder(len).value in RUNGS && len <= Ladder(len).value * FRAGMENT_DATA_LEN
              && forall n :: n in RUNGS && len <= n * FRAGMENT_DATA_LEN ==> Ladder(len).value <= n
  {
  }

  /** The i-th slice of the payload, zero-padded to the fixed length. */
  function Fragment(inner: Bytes, i: nat): (f: Bytes)
    ensures |f| == FRAGMENT_DATA_LEN
  {
    var start := i * FRAGMENT_DATA_LEN;
    if start < |inner| then
      var end := Min(start + FRAGMENT_DATA_LEN, |inner|);
      inner[start..end] + Zeros(FRAGMENT_DATA_LEN - (end - start))
    else Zeros(FRAGMENT_DATA_LEN)
  }

  datatype Header = Header(msgId: Bytes, index: nat, count: nat, totalLen: nat)

  function HeaderBytes(h: Header): Bytes {
    h.msgId + Be(h.index, 2) + Be(h.count, 2) + Be(h.totalLen, 4)
  }

  function CommandBytes(last: bool, delayMs: nat, nextHop: Digest): (b: Bytes)
    ensures |b| == ROUTING_COMMAND_LEN
  {
    (if last then [1, 1] else [0, 0]) + Be(delayMs, 4) + nextHop + Zeros(10)
  }

  /** The routing commands of the hops from the j-th on. */
  function Commands(h: Hash, hops: seq<MixHop>, j: nat): (b: Bytes)
    requires j <= |hops|
    ensures |b| == ROUTING_COMMAND_LEN * (|hops| - j)
    decreases |hops| - j
  {
    if j == |hops| then []
    else
      CommandBytes(j + 1 == |hops|, hops[j].delayMs, if j + 1 == |hops| then Zeros(32) else h(hops[j + 1].nodeIk))
      + Commands(h, hops, j + 1)
  }

  function PlainBeta(h: Hash, hops: seq<MixHop>): (b: Bytes)
    requires |hops| <= R_MAX
    ensures |b| == BETA_LEN
  {
    Commands(h, hops, 0) + Zeros(BETA_LEN - ROUTING_COMMAND_LEN * |hops|)
  }

  function MsgId(h: Hash, seed: Digest, epoch: nat): (id: Bytes)
    ensures |id| == 8
  {
    h(seed + MSG_ID_LABEL + Be(epoch, 8))[..8]
  }

  function HeaderFor(h: Hash, inner: Bytes, seed: Digest, epoch: nat, count: nat, i: nat): Header {
    Header(MsgId(h, seed, epoch), i, count, |inner|)
  }

  function PlainDelta(h: Hash, inner: Bytes, seed: Digest, epoch: nat, count: nat, i: nat): (d: Bytes)
    ensures |d| == DELTA_LEN
  {
    HeaderBytes(HeaderFor(h, inner, seed, epoch, count, i)) + Fragment(inner, i)
  }

  function CellAlpha(h: Hash, seed: Digest, epoch: nat, i: nat): Digest {
    h(seed + Be(i, 2) + Be(epoch, 8) + ALPHA_LABEL)
  }

  /** The secret the j-th hop shares with the sender, given the group element it sees. */
  function HopSecret(h: Hash, a: Digest, mixKey: Digest, epoch: nat, j: nat): Digest {
    h(a + mixKey + Be(epoch, 8) + [j % 256])
  }

  /** The group element the next hop sees. */
  function NextAlpha(h: Hash, a: Digest, secret: Digest): Digest {
    h(a + secret)
  }

  /** The secrets of the hops from the j-th on, starting from the group element the j-th hop sees. */
  function Secrets(h: Hash, a: Digest, hops: seq<MixHop>, epoch: nat, j: nat): (ss: seq<Digest>)
    requires j <= |hops|
    ensures |ss| == |hops| - j
    decreases |hops| - j
  {
    if j == |hops| then []
    else
      var s := HopSecret(h, a, hops[j].mixKey, epoch, j);
      [s] + Secrets(h, NextAlpha(h, a, s), hops, epoch, j + 1)
  }

  function WrapCell(h: Hash, inner: Bytes, path: MixPath, seed: Digest, count: nat, i: nat): (c: Cell)
    requires 0 < |path.hops| <= R_MAX
  {
    var a := CellAlpha(h, seed, path.epoch, i);
    var ss := Secrets(h, a, path.hops, path.epoch, 0);
    var beta := Layers(h, PlainBeta(h, path.hops), ss, BETA_LABEL);
    Cell(a, beta, h(ss[0] + beta)[..GAMMA_LEN],
         Layers(h, PlainDelta(h, inner, seed, path.epoch, count, i), ss, DELTA_LABEL))
  }

  function WrapCells(h: Hash, inner: Bytes, path: MixPath, seed: Digest, count: nat, n: nat): (cs: seq<Cell>)
    requires 0 < |path.hops| <= R_MAX
    ensures |cs| == n
    ensures forall i :: 0 <= i < n ==> cs[i] == WrapCell(h, inner, path, seed, count, i)
  {
    if n == 0 then []
    else WrapCells(h, inner, path, seed, count, n - 1) + [WrapCell(h, inner, path, seed, count, n - 1)]
  }

  function Wrap(h: Hash, inner: Bytes, path: MixPath, seed: Digest): Result<seq<Cell>, OnionError> {
    if |path.hops| < MIN_PRIVATE_HOPS then Err(PathTooShort)
    else if |path.hops| > R_MAX then Err(TooManyHops)
    else
      match Ladder(|inner|)
      case None => Err(PayloadTooLarge)
      case Some(count) => Ok(WrapCells(h, inner, path, seed, count, count))
  }

  /** What goes on the wire: the cells back to back. */
  function CellBytes(c: Cell): Bytes {
    c.alpha + c.beta + c.gamma + c.delta
  }

  function ToBytes(cells: seq<Cell>): Bytes {
    if cells == [] then [] else CellBytes(cells[0]) + ToBytes(cells[1..])
  }

  // --- what the path and the recipient do with it --------------------------------------------------------

  /** One hop: derive the secret from the group element in the cell, take a layer off, re-randomise. */
  function PeelHop(h: Hash, c: Cell, mixKey: Digest, epoch: nat, j: nat): Cell
    requires |c.alpha| == ALPHA_LEN
  {
    var s := HopSecret(h, c.alpha, mixKey, epoch, j);
    Cell(NextAlpha(h, c.alpha, s), Layer(h, c.beta, s, BETA_LABEL), c.gamma, Layer(h, c.delta, s, DELTA_LABEL))
  }

  function PeelFrom(h: Hash, c: Cell, path: MixPath, j: nat): (p: Cell)
    requires |c.alpha| == ALPHA_LEN && j <= |path.hops|
    decreases |path.hops| - j
  {
    if j == |path.hops| then c
    else PeelFrom(h, PeelHop(h, c, path.hops[j].mixKey, path.epoch, j), path, j + 1)
  }

  /** Peeling from hop j on undoes the layers of the secrets from hop j on. */
  lemma {:induction false} PeelUndoesLayers(h: Hash, c: Cell, path: MixPath, j: nat, beta: Bytes, delta: Bytes)
    requires |c.alpha| == ALPHA_LEN && j <= |path.hops|
    requires c.beta == Layers(h, beta, Secrets(h, c.alpha, path.hops, path.epoch, j), BETA_LABEL)
    requires c.delta == Layers(h, delta, Secrets(h, c.alpha, path.hops, path.epoch, j), DELTA_LABEL)
    ensures PeelFrom(h, c, path, j).beta == beta && PeelFrom(h, c, path, j).delta == delta
    decreases |path.hops| - j
  {
    hide Layer, HopSecret, NextAlpha;
    if j < |path.hops| {
      var s := HopSecret(h, c.alpha, path.hops[j].mixKey, path.epoch, j);
      var rest := Secrets(h, NextAlpha(h, c.alpha, s), path.hops, path.epoch, j + 1);
      assert ([s] + rest)[1..] == rest;
      LayerTwice(h, Layers(h, beta, rest, BETA_LABEL), s, BETA_LABEL);
      LayerTwice(h, Layers(h, delta, rest, DELTA_LABEL), s, DELTA_LABEL);
      PeelUndoesLayers(h, PeelHop(h, c, path.hops[j].mixKey, path.epoch, j), path, j + 1, beta, delta);
    }
  }

  /** At the exit the routing commands, padded with zeros, and the fragment stand in the clear. */
  lemma PeelOfWrapCell(h: Hash, inner: Bytes, path: MixPath, seed: Digest, count: nat, i: nat)
    requires 0 < |path.hops| <= R_MAX
    ensures var p := PeelFrom(h, WrapCell(h, inner, path, seed, count, i), path, 0);
            && p.beta == PlainBeta(h, path.hops)
            && p.delta == PlainDelta(h, inner, seed, path.epoch, count, i)
  {
    hide Layer, Layers, Secrets, PlainBeta, PlainDelta, CellAlpha, PeelFrom;
    PeelUndoesLayers(h, WrapCell(h, inner, path, seed, count, i), path, 0,
                     PlainBeta(h, path.hops), PlainDelta(h, inner, seed, path.epoch, count, i));
  }

  /** Every cell has the one wire length, whatever the payload and however short the path. */
  lemma CellLength(h: Hash, inner: Bytes, path: MixPath, seed: Digest, count: nat, i: nat)
    requires 0 < |path.hops| <= R_MAX
    ensures var c := WrapCell(h, inner, path, seed, count, i);
            |c.alpha| == ALPHA_LEN && |c.beta| == BETA_LEN && |c.gamma| == GAMMA_LEN && |c.delta| == DELTA_LEN
            && |CellBytes(c)| == CELL_LEN
  {
    hide Layer, Layers, Secrets, PlainBeta, PlainDelta, CellAlpha;
  }
}
