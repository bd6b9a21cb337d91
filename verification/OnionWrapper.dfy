/** The loops of node/src/onion.rs over mutable buffers, proved against the functions of `Onion`. */
module OnionWrapper {
  import opened Prelude
  import opened Positional
  import opened Onion

  method KeystreamXor(h: Hash, buf: array<Byte>, key: Digest, tag: Bytes)
    modifies buf
    ensures buf[..] == Layer(h, old(buf[..]), key, tag)
    ensures forall k, j :: 0 <= k < buf.Length && 0 <= j < 8 ==>
              Bit(buf[k], j) == (Bit(old(buf[k]), j) + Bit(h(key + tag + Be(k / 32, 8))[k % 32], j)) % 2
  {
    XorLoop(h, buf, key, tag);
    hide *;
    forall k, j | 0 <= k < buf.Length && 0 <= j < 8
      ensures Bit(buf[k], j) == (Bit(old(buf[k]), j) + Bit(h(key + tag + Be(k / 32, 8))[k % 32], j)) % 2
    {
      LayerIsXor(h, old(buf[..]), key, tag, k, j);
      assert buf[..][k] == buf[k];
    }
  }

  /** Block by block, each hashed from its number. */
  method XorLoop(h: Hash, buf: array<Byte>, key: Digest, tag: Bytes)
    modifies buf
    ensures buf[..] == Layer(h, old(buf[..]), key, tag)
  {
    hide ByteXor, Be;
    var counter: nat := 0;
    var i := 0;
    while i < buf.Length
      invariant 0 <= i <= buf.Length
      invariant i < buf.Length ==> i == 32 * counter
      invariant forall k :: 0 <= k < i ==> buf[k] == ByteXor(old(buf[k]), KeyByte(h, key, tag, k))
      invariant forall k :: i <= k < buf.Length ==> buf[k] == old(buf[k])
    {
      var block := h(key + tag + Be(counter, 8));
      var j := 0;
      while j < 32 && i < buf.Length
        invariant 0 <= j <= 32 && i == 32 * counter + j <= buf.Length
        invariant forall k :: 0 <= k < i ==> buf[k] == ByteXor(old(buf[k]), KeyByte(h, key, tag, k))
        invariant forall k :: i <= k < buf.Length ==> buf[k] == old(buf[k])
      {
        assert i / 32 == counter && i % 32 == j;
        buf[i] := ByteXor(buf[i], block[j]);
        i := i + 1;
        j := j + 1;
      }
      counter := counter + 1;
    }
  }

  /** Layers from the innermost hop outward. */
  method LayerAll(h: Hash, buf: array<Byte>, secrets: seq<Digest>, tag: Bytes)
    modifies buf
    ensures buf[..] == Layers(h, old(buf[..]), secrets, tag)
  {
    hide Layer;
    var k := |secrets|;
    while k > 0
      invariant 0 <= k <= |secrets|
      invariant buf[..] == Layers(h, old(buf[..]), secrets[k..], tag)
    {
      k := k - 1;
      KeystreamXor(h, buf, secrets[k], tag);
      assert secrets[k..][0] == secrets[k] && secrets[k..][1..] == secrets[k + 1..];
    }
    assert secrets[0..] == secrets;
  }

  method HopSecrets(h: Hash, alpha: Digest, hops: seq<MixHop>, epoch: nat) returns (secrets: seq<Digest>)
    ensures secrets == Secrets(h, alpha, hops, epoch, 0)
  {
    hide HopSecret, NextAlpha;
    secrets := [];
    var a := alpha;
    for hi := 0 to |hops|
      invariant secrets + Secrets(h, a, hops, epoch, hi) == Secrets(h, alpha, hops, epoch, 0)
    {
      var s := HopSecret(h, a, hops[hi].mixKey, epoch, hi);
      ghost var rest := Secrets(h, NextAlpha(h, a, s), hops, epoch, hi + 1);
      assert secrets + ([s] + rest) == secrets + [s] + rest;
      secrets := secrets + [s];
      a := NextAlpha(h, a, s);
    }
  }

  method RoutingOnion(h: Hash, hops: seq<MixHop>) returns (beta: Bytes)
    requires |hops| <= R_MAX
    ensures beta == PlainBeta(h, hops)
  {
    hide CommandBytes;
    beta := [];
    for hi := 0 to |hops|
      invariant |beta| == ROUTING_COMMAND_LEN * hi
      invariant beta + Commands(h, hops, hi) == Commands(h, hops, 0)
    {
      var last := hi + 1 == |hops|;
      var nextHop: Digest := if last then Zeros(32) else h(hops[hi + 1].nodeIk);
      var cmd := CommandBytes(last, hops[hi].delayMs, nextHop);
      assert beta + (cmd + Commands(h, hops, hi + 1)) == beta + cmd + Commands(h, hops, hi + 1);
      beta := beta + cmd;
    }
    beta := beta + Zeros(BETA_LEN - |beta|);
  }

  method WrapOne(h: Hash, inner: Bytes, path: MixPath, seed: Digest, count: nat, i: nat) returns (cell: Cell)
    requires 0 < |path.hops| <= R_MAX
    ensures cell == WrapCell(h, inner, path, seed, count, i)
  {
    hide Layer, Layers, Secrets, PlainBeta, PlainDelta, CellAlpha;
    var a := CellAlpha(h, seed, path.epoch, i);
    var secrets := HopSecrets(h, a, path.hops, path.epoch);
    var plainBeta := RoutingOnion(h, path.hops);
    var beta := new Byte[BETA_LEN](k requires 0 <= k < BETA_LEN => plainBeta[k]);
    assert beta[..] == plainBeta;
    LayerAll(h, beta, secrets, BETA_LABEL);
    var gamma := h(secrets[0] + beta[..])[..GAMMA_LEN];
    var plainDelta := PlainDelta(h, inner, seed, path.epoch, count, i);
    var delta := new Byte[DELTA_LEN](k requires 0 <= k < DELTA_LEN => plainDelta[k]);
    assert delta[..] == plainDelta;
    LayerAll(h, delta, secrets, DELTA_LABEL);
    cell := Cell(a, beta[..], gamma, delta[..]);
  }

  method WrapOnion(h: Hash, inner: Bytes, path: MixPath, seed: Digest) returns (r: Result<seq<Cell>, OnionError>)
    ensures r == Wrap(h, inner, path, seed)
  {
    hide WrapCell;
    if |path.hops| < MIN_PRIVATE_HOPS {
      return Err(PathTooShort);
    }
    if |path.hops| > R_MAX {
      return Err(TooManyHops);
    }
    var rung := Ladder(|inner|);
    if rung.None? {
      return Err(PayloadTooLarge);
    }
    var cells := [];
    for i := 0 to rung.value
      invariant cells == WrapCells(h, inner, path, seed, rung.value, i)
    {
      var cell := WrapOne(h, inner, path, seed, rung.value, i);
      cells := cells + [cell];
    }
    r := Ok(cells);
  }
}
