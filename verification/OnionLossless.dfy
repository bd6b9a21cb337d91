/** Wrapping, the path's peeling and the recipient's reassembly together give back exactly the payload. */
module OnionLossless {
  import opened Prelude
  import opened Positional
  import opened Onion
  import opened Reassembly

  const HEADER_LEN: nat := 16

  function ReadHeader(d: Bytes): Header
    requires |d| >= HEADER_LEN
  {
    Header(d[..8], FromBe(d[8..10]), FromBe(d[10..12]), FromBe(d[12..16]))
  }

  lemma ReadHeaderOfPlainDelta(h: Hash, inner: Bytes, seed: Digest, epoch: nat, count: nat, i: nat)
    requires i < count <= 32 && |inner| <= count * FRAGMENT_DATA_LEN
    ensures var d := PlainDelta(h, inner, seed, epoch, count, i);
            && ReadHeader(d) == HeaderFor(h, inner, seed, epoch, count, i)
            && d[HEADER_LEN..] == Fragment(inner, i)
  {
    hide Fragment, MsgId, Be, FromBe;
    OctetPower(0);
    OctetPower(1);
    OctetPower(2);
    OctetPower(3);
    FromBeOfBe(i, 2);
    FromBeOfBe(count, 2);
    FromBeOfBe(|inner|, 4);
    var d := PlainDelta(h, inner, seed, epoch, count, i);
    assert d[..8] == MsgId(h, seed, epoch);
    assert d[8..10] == Be(i, 2);
    assert d[10..12] == Be(count, 2);
    assert d[12..16] == Be(|inner|, 4);
  }

  predicate OnWire(c: Cell) {
    |c.alpha| == ALPHA_LEN && |c.beta| == BETA_LEN && |c.gamma| == GAMMA_LEN && |c.delta| == DELTA_LEN
  }

  lemma {:induction false} PeelKeepsLength(h: Hash, c: Cell, path: MixPath, j: nat)
    requires |c.alpha| == ALPHA_LEN && j <= |path.hops|
    ensures |PeelFrom(h, c, path, j).delta| == |c.delta|
    decreases |path.hops| - j
  {
    hide Layer, HopSecret, NextAlpha;
    if j < |path.hops| {
      PeelKeepsLength(h, PeelHop(h, c, path.hops[j].mixKey, path.epoch, j), path, j + 1);
    }
  }

  /** What the exit hands over for one cell. */
  function Peeled(h: Hash, path: MixPath, c: Cell): (Header, Bytes)
    requires OnWire(c)
  {
    PeelKeepsLength(h, c, path, 0);
    var d := PeelFrom(h, c, path, 0).delta;
    (ReadHeader(d), d[HEADER_LEN..])
  }

  /** The reassembly slot after these arrivals. */
  function SlotAfter(h: Hash, path: MixPath, arrivals: seq<Cell>): (s: Slot)
    requires forall c :: c in arrivals ==> OnWire(c)
    ensures SlotOk(s)
  {
    if arrivals == [] then Empty
    else
      var n := |arrivals| - 1;
      var (hdr, data) := Peeled(h, path, arrivals[n]);
      AcceptOk(SlotAfter(h, path, arrivals[..n]), hdr, data);
      Accept(SlotAfter(h, path, arrivals[..n]), hdr, data).0
  }

  /** What the last arrival yields. */
  function Outcome(h: Hash, path: MixPath, arrivals: seq<Cell>): Reassembled
    requires arrivals != [] && forall c :: c in arrivals ==> OnWire(c)
  {
    var n := |arrivals| - 1;
    var (hdr, data) := Peeled(h, path, arrivals[n]);
    Accept(SlotAfter(h, path, arrivals[..n]), hdr, data).1
  }

  /** Every index is one of the n cells. */
  predicate Within(order: seq<nat>, n: nat) {
    forall j :: 0 <= j < |order| ==> order[j] < n
  }

  function Indices(order: seq<nat>): set<nat> { set i | i in order }

  /** The cells in the order of arrival given by their indices; an index may come more than once. */
  function Pick(cells: seq<Cell>, order: seq<nat>): (cs: seq<Cell>)
    requires Within(order, |cells|)
    ensures |cs| == |order| && forall j :: 0 <= j < |cs| ==> cs[j] == cells[order[j]]
  {
    seq(|order|, j requires 0 <= j < |order| => cells[order[j]])
  }

  lemma WrapShape(h: Hash, inner: Bytes, path: MixPath, seed: Digest, i: nat)
    requires Wrap(h, inner, path, seed).Ok? && i < |Wrap(h, inner, path, seed).value|
    ensures var cells := Wrap(h, inner, path, seed).value;
            && |cells| in RUNGS && |inner| <= |cells| * FRAGMENT_DATA_LEN
            && OnWire(cells[i])
            && Peeled(h, path, cells[i]) == (HeaderFor(h, inner, seed, path.epoch, |cells|, i), Fragment(inner, i))
  {
    hide WrapCell, PlainDelta, PlainBeta, Fragment, PeelFrom, HeaderFor, ReadHeader;
    var count := |Wrap(h, inner, path, seed).value|;
    LadderIsSmallest(|inner|);
    CellLength(h, inner, path, seed, count, i);
    PeelOfWrapCell(h, inner, path, seed, count, i);
    ReadHeaderOfPlainDelta(h, inner, seed, path.epoch, count, i);
  }

  lemma PickOnWire(h: Hash, inner: Bytes, path: MixPath, seed: Digest, order: seq<nat>)
    requires Wrap(h, inner, path, seed).Ok?
    requires Within(order, |Wrap(h, inner, path, seed).value|)
    ensures forall c :: c in Pick(Wrap(h, inner, path, seed).value, order) ==> OnWire(c)
  {
    hide Wrap, OnWire;
    var cells := Wrap(h, inner, path, seed).value;
    forall c | c in Pick(cells, order)
      ensures OnWire(c)
    {
      var j :| 0 <= j < |order| && Pick(cells, order)[j] == c;
      WrapShape(h, inner, path, seed, order[j]);
    }
  }

  lemma {:induction false} SlotHolds(h: Hash, inner: Bytes, path: MixPath, seed: Digest, order: seq<nat>)
    requires Wrap(h, inner, path, seed).Ok?
    requires Within(order, |Wrap(h, inner, path, seed).value|)
    requires Indices(order) != Range(|Wrap(h, inner, path, seed).value|)
    ensures var cells := Wrap(h, inner, path, seed).value;
            && (forall c :: c in Pick(cells, order) ==> OnWire(c))
            && SlotAfter(h, path, Pick(cells, order)) == Held(inner, |cells|, Indices(order))
  {
    hide Wrap, Accept, Peeled, Fragment, Range, OnWire, HeaderFor;
    var cells := Wrap(h, inner, path, seed).value;
    PickOnWire(h, inner, path, seed, order);
    if order != [] {
      var n := |order| - 1;
      IndicesPush(order);
      PrefixMisses(order, |cells|);
      SlotHolds(h, inner, path, seed, order[..n]);
      assert Pick(cells, order)[..n] == Pick(cells, order[..n]);
      WrapShape(h, inner, path, seed, order[n]);
      HeaderFields(h, inner, seed, path.epoch, |cells|, order[n]);
      IndicesBelow(order[..n], |cells|);
      AcceptFragment(inner, |cells|, Indices(order[..n]), HeaderFor(h, inner, seed, path.epoch, |cells|, order[n]));
    }
  }

  lemma HeaderFields(h: Hash, inner: Bytes, seed: Digest, epoch: nat, count: nat, i: nat)
    ensures var hdr := HeaderFor(h, inner, seed, epoch, count, i);
            hdr.count == count && hdr.index == i && hdr.totalLen == |inner|
  {
  }

  lemma IndicesBelow(order: seq<nat>, n: nat)
    requires Within(order, n)
    ensures forall i :: i in Indices(order) ==> i < n
  {
  }

  lemma IndicesPush(order: seq<nat>)
    requires order != []
    ensures Indices(order) == Indices(order[..|order| - 1]) + {order[|order| - 1]}
  {
    assert order == order[..|order| - 1] + [order[|order| - 1]];
  }

  lemma PrefixMisses(order: seq<nat>, count: nat)
    requires order != [] && Indices(order) != Range(count)
    requires Within(order, count)
    ensures Indices(order[..|order| - 1]) != Range(count)
  {
    IndicesPush(order);
    IndicesBelow(order, count);
  }

  /**
   * Nothing is lost: whatever order the cells come out of the mixnet in, duplicates included, the
   * arrival that makes the set complete yields exactly the wrapped payload, and none before it anything.
   */
  lemma WrapIsLossless(h: Hash, inner: Bytes, path: MixPath, seed: Digest, order: seq<nat>)
    requires Wrap(h, inner, path, seed).Ok? && order != []
    requires Within(order, |Wrap(h, inner, path, seed).value|)
    requires Indices(order[..|order| - 1]) != Range(|Wrap(h, inner, path, seed).value|)
    ensures var cells := Wrap(h, inner, path, seed).value;
            && (forall c :: c in Pick(cells, order) ==> OnWire(c))
            && Outcome(h, path, Pick(cells, order))
               == if Indices(order) == Range(|cells|) then Complete(inner) else Pending
  {
    hide Wrap, Accept, Peeled, Fragment, Range, OnWire, HeaderFor;
    var cells := Wrap(h, inner, path, seed).value;
    var n := |order| - 1;
    PickOnWire(h, inner, path, seed, order);
    IndicesPush(order);
    SlotHolds(h, inner, path, seed, order[..n]);
    assert Pick(cells, order)[..n] == Pick(cells, order[..n]);
    WrapShape(h, inner, path, seed, order[n]);
    HeaderFields(h, inner, seed, path.epoch, |cells|, order[n]);
    IndicesBelow(order[..n], |cells|);
    AcceptFragment(inner, |cells|, Indices(order[..n]), HeaderFor(h, inner, seed, path.epoch, |cells|, order[n]));
  }

  // --- the wire form -------------------------------------------------------------------------------------

  function CellOf(b: Bytes): (c: Cell)
    requires |b| == CELL_LEN
    ensures OnWire(c)
  {
    Cell(b[..32], b[32..272], b[272..288], b[288..])
  }

  function CellsOf(b: Bytes): (cs: seq<Cell>)
    ensures forall c :: c in cs ==> OnWire(c)
  {
    if |b| < CELL_LEN then [] else [CellOf(b[..CELL_LEN])] + CellsOf(b[CELL_LEN..])
  }

  lemma {:induction false} CellsOfBytes(cells: seq<Cell>)
    requires forall c :: c in cells ==> OnWire(c)
    ensures CellsOf(ToBytes(cells)) == cells
  {
    if cells != [] {
      CellsOfBytes(cells[1..]);
      CellBack(cells[0]);
      var b := ToBytes(cells);
      assert b[..CELL_LEN] == CellBytes(cells[0]) && b[CELL_LEN..] == ToBytes(cells[1..]);
    }
  }

  lemma CellBack(c: Cell)
    requires OnWire(c)
    ensures |CellBytes(c)| == CELL_LEN && CellOf(CellBytes(c)) == c
  {
  }

  /** The object a wire frame carries to its recipient over this path, if its cells complete one. */
  function Open(h: Hash, path: MixPath, wire: Bytes): Option<Bytes> {
    var cells := CellsOf(wire);
    if cells == [] then None
    else
      match Outcome(h, path, cells)
      case Complete(mote) => Some(mote)
      case _ => None
  }

  function UpTo(n: nat): (order: seq<nat>)
    ensures |order| == n && forall j :: 0 <= j < n ==> order[j] == j
  {
    seq(n, j => j)
  }

  lemma {:induction false} IndicesUpTo(n: nat)
    ensures Indices(UpTo(n)) == Range(n)
    ensures n > 0 ==> Indices(UpTo(n)[..n - 1]) == Range(n - 1)
  {
    forall i: nat
      ensures i in Indices(UpTo(n)) <==> i < n
      ensures n > 0 ==> (i in Indices(UpTo(n)[..n - 1]) <==> i < n - 1)
    {
      if i < n {
        assert UpTo(n)[i] == i;
        if i < n - 1 {
          assert UpTo(n)[..n - 1][i] == i;
        }
      }
    }
  }

  /** A wrapped object, sent as bytes, opens to itself. */
  lemma OpenOfWrap(h: Hash, inner: Bytes, path: MixPath, seed: Digest)
    requires Wrap(h, inner, path, seed).Ok?
    ensures Open(h, path, ToBytes(Wrap(h, inner, path, seed).value)) == Some(inner)
  {
    hide Outcome, Range, OnWire, Indices, Wrap, CellsOf, ToBytes, Pick, UpTo, Within;
    var cells := Wrap(h, inner, path, seed).value;
    var n := |cells|;
    WrapFailsClosed(h, inner, path, seed);
    LadderIsSmallest(|inner|);
    InOrder(cells);
    PickOnWire(h, inner, path, seed, UpTo(n));
    IndicesUpTo(n);
    RangeGrows(n);
    WrapIsLossless(h, inner, path, seed, UpTo(n));
    CellsOfBytes(cells);
  }

  lemma InOrder(cells: seq<Cell>)
    ensures Within(UpTo(|cells|), |cells|) && Pick(cells, UpTo(|cells|)) == cells
  {
  }

  lemma RangeGrows(n: nat)
    ensures n > 0 ==> Range(n - 1) != Range(n)
  {
    if n > 0 {
      assert n - 1 !in Range(n - 1) && n - 1 in Range(n);
    }
  }

  /** A wrap succeeds exactly on 3 to R_MAX hops and a payload within the top rung. */
  lemma WrapFailsClosed(h: Hash, inner: Bytes, path: MixPath, seed: Digest)
    ensures Wrap(h, inner, path, seed).Ok?
       <==> MIN_PRIVATE_HOPS <= |path.hops| <= R_MAX && |inner| <= 32 * FRAGMENT_DATA_LEN
    ensures Wrap(h, inner, path, seed).Ok? ==> Ladder(|inner|) == Some(|Wrap(h, inner, path, seed).value|)
  {
  }

  /**
   * Freshness: two wraps under different seeds share an entry tag only if the hash collides, and the
   * collision can be named.
   */
  lemma EqualTagsCollide(h: Hash, inner: Bytes, path: MixPath, s: Digest, t: Digest, count: nat, i: nat)
    requires 0 < |path.hops| <= R_MAX && s != t
    requires WrapCell(h, inner, path, s, count, i).alpha == WrapCell(h, inner, path, t, count, i).alpha
    ensures var x, y := s + Be(i, 2) + Be(path.epoch, 8) + ALPHA_LABEL, t + Be(i, 2) + Be(path.epoch, 8) + ALPHA_LABEL;
            x != y && h(x) == h(y)
  {
    var x, y := s + Be(i, 2) + Be(path.epoch, 8) + ALPHA_LABEL, t + Be(i, 2) + Be(path.epoch, 8) + ALPHA_LABEL;
    assert x[..32] == s && y[..32] == t;
  }
}
