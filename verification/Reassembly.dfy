/**
 * The recipient's reassembly slot (node/src/reassembly.rs, caps and timeout aside) and the theorem
 * that wrapping loses nothing: peel, reassemble, and the payload is back.
 */
module Reassembly {
  import opened Prelude
  import opened Onion

  /** One partial message; a slot exists only while fragments are missing. */
  datatype Slot = Empty | Partial(count: nat, totalLen: nat, cells: map<nat, Bytes>)

  datatype Reassembled = Complete(mote: Bytes) | Pending | Rejected

  /** Fragments 0..n in index order. */
  function Concat(cells: map<nat, Bytes>, n: nat): Bytes
    requires forall i :: 0 <= i < n ==> i in cells
  {
    if n == 0 then [] else Concat(cells, n - 1) + cells[n - 1]
  }

  function Range(n: nat): (r: set<nat>)
    ensures |r| == n && forall i: nat :: i in r <==> i < n
  {
    if n == 0 then {} else Range(n - 1) + {n - 1}
  }

  lemma FullKeys(keys: set<nat>, n: nat)
    requires forall i :: i in keys ==> i < n
    ensures |keys| <= n
    ensures |keys| == n <==> keys == Range(n)
  {
    assert keys <= Range(n);
    SubsetCount(keys, Range(n));
  }

  lemma SubsetCount(a: set<nat>, b: set<nat>)
    requires a <= b
    ensures |a| <= |b| && (|a| == |b| ==> a == b)
  {
    assert b == a + (b - a);
    assert |b| == |a| + |b - a|;
  }

  /** Cells are stored under their index once; the fragment count says when the message is whole. */
  function Accept(slot: Slot, hdr: Header, data: Bytes): (Slot, Reassembled)
    requires SlotOk(slot)
  {
    if hdr.count !in RUNGS || hdr.index >= hdr.count || |data| != FRAGMENT_DATA_LEN then (slot, Rejected)
    else if hdr.totalLen > hdr.count * FRAGMENT_DATA_LEN then (slot, Rejected)
    else if hdr.count == 1 then (Empty, Complete(data[..hdr.totalLen]))
    else if slot.Partial? && (slot.count != hdr.count || slot.totalLen != hdr.totalLen) then (slot, Rejected)
    else
      var held := if slot.Partial? then slot.cells else map[];
      var cells := if hdr.index in held then held else held[hdr.index := data];
      if |cells| == hdr.count then
        CompleteCells(cells, hdr.count);
        (Empty, Complete(Concat(cells, hdr.count)[..hdr.totalLen]))
      else (Partial(hdr.count, hdr.totalLen, cells), Pending)
  }

  ghost predicate SlotOk(slot: Slot) {
    slot.Partial? ==>
      && slot.totalLen <= slot.count * FRAGMENT_DATA_LEN
      && |slot.cells| < slot.count
      && forall i :: i in slot.cells ==> i < slot.count && |slot.cells[i]| == FRAGMENT_DATA_LEN
  }

  lemma CompleteCells(cells: map<nat, Bytes>, n: nat)
    requires forall i :: i in cells ==> i < n && |cells[i]| == FRAGMENT_DATA_LEN
    requires |cells| == n
    ensures forall i :: 0 <= i < n ==> i in cells
    ensures |Concat(cells, n)| == n * FRAGMENT_DATA_LEN
  {
    FullKeys(cells.Keys, n);
    assert |cells.Keys| == n;
    ConcatLength(cells, n);
  }

  lemma {:induction false} ConcatLength(cells: map<nat, Bytes>, n: nat)
    requires forall i :: 0 <= i < n ==> i in cells && |cells[i]| == FRAGMENT_DATA_LEN
    ensures |Concat(cells, n)| == n * FRAGMENT_DATA_LEN
  {
    if n > 0 {
      ConcatLength(cells, n - 1);
    }
  }

  /**
   * A fragment is rejected, and leaves the slot as it was, exactly when its count is not a rung, its index or length is
   * out of range, its data is not of the fixed length, or it disagrees with the fragments held; of two for one place
   * the first stays.
   */
  lemma RejectedExactly(slot: Slot, hdr: Header, data: Bytes)
    requires SlotOk(slot)
    ensures var (after, r) := Accept(slot, hdr, data);
            var formed := hdr.count in {1, 4, 16, 32} && hdr.index < hdr.count && |data| == 2032
                          && hdr.totalLen <= hdr.count * 2032;
            && (r.Rejected? <==> !formed || (hdr.count != 1 && slot.Partial?
                                             && (slot.count != hdr.count || slot.totalLen != hdr.totalLen)))
            && (r.Rejected? ==> after == slot)
            && (r.Complete? ==> after.Empty?)
            && (r.Pending? ==>
                  && after.Partial? && after.count == hdr.count && after.totalLen == hdr.totalLen
                  && hdr.index in after.cells
                  && (slot.Partial? && hdr.index in slot.cells ==> after == slot)
                  && (slot.Partial? && hdr.index !in slot.cells ==> after.cells == slot.cells[hdr.index := data])
                  && (slot.Empty? ==> after.cells == map[hdr.index := data]))
  {
    hide Concat;
  }

  lemma {:induction false} ConcatAt(cells: map<nat, Bytes>, n: nat, k: nat)
    requires forall i :: 0 <= i < n ==> i in cells && |cells[i]| == FRAGMENT_DATA_LEN
    requires k < n * FRAGMENT_DATA_LEN
    ensures |Concat(cells, n)| == n * FRAGMENT_DATA_LEN
    ensures k / 2032 in cells && k % 2032 < |cells[k / 2032]|
    ensures Concat(cells, n)[k] == cells[k / 2032][k % 2032]
  {
    ConcatLength(cells, n);
    ConcatLength(cells, n - 1);
    if k < (n - 1) * FRAGMENT_DATA_LEN {
      ConcatAt(cells, n - 1, k);
    }
  }

  /** The fragments at hand once this one is in. */
  function AtHand(slot: Slot, hdr: Header, data: Bytes): map<nat, Bytes> {
    if hdr.count == 1 || slot.Empty? then map[hdr.index := data]
    else if hdr.index in slot.cells then slot.cells else slot.cells[hdr.index := data]
  }

  lemma CellsBelow(slot: Slot, hdr: Header, data: Bytes)
    requires SlotOk(slot) && !Accept(slot, hdr, data).1.Rejected?
    ensures forall i :: i in AtHand(slot, hdr, data) ==>
              i < hdr.count && |AtHand(slot, hdr, data)[i]| == FRAGMENT_DATA_LEN
    ensures hdr.count == 1 ==> AtHand(slot, hdr, data) == map[0 := data]
  {
    hide Concat;
  }

  lemma OneCell(data: Bytes)
    ensures Concat(map[0 := data], 1) == data && |map[0 as nat := data]| == 1
  {
    var m: map<nat, Bytes> := map[0 := data];
    assert Concat(m, 0) == [] && Concat(m, 1) == Concat(m, 0) + m[0];
    assert m.Keys == {0};
    assert |m| == |m.Keys|;
  }

  lemma FullIff(cells: map<nat, Bytes>, n: nat)
    requires forall i :: i in cells ==> i < n
    ensures |cells| == n <==> forall i :: 0 <= i < n ==> i in cells
  {
    FullKeys(cells.Keys, n);
    assert |cells.Keys| == |cells|;
    assert cells.Keys == Range(n) <==> forall i :: i in Range(n) ==> i in cells.Keys;
  }

  lemma AcceptIs(slot: Slot, hdr: Header, data: Bytes)
    requires SlotOk(slot) && !Accept(slot, hdr, data).1.Rejected?
    ensures var cells := AtHand(slot, hdr, data);
            && (forall i :: i in cells ==> i < hdr.count && |cells[i]| == FRAGMENT_DATA_LEN)
            && hdr.totalLen <= hdr.count * FRAGMENT_DATA_LEN
            && (|cells| == hdr.count ==> (forall i :: 0 <= i < hdr.count ==> i in cells))
            && (|cells| == hdr.count ==>
                  |Concat(cells, hdr.count)| == hdr.count * FRAGMENT_DATA_LEN
                  && Accept(slot, hdr, data).1 == Complete(Concat(cells, hdr.count)[..hdr.totalLen]))
            && (|cells| != hdr.count ==> Accept(slot, hdr, data).1.Pending?)
  {
    hide Concat;
    CellsBelow(slot, hdr, data);
    OneCell(data);
    if |AtHand(slot, hdr, data)| == hdr.count {
      CompleteCells(AtHand(slot, hdr, data), hdr.count);
    }
  }

  /** A message is whole exactly when every place of it is filled, and it is the fragments in order up to its length. */
  lemma CompleteExactly(slot: Slot, hdr: Header, data: Bytes, k: nat)
    requires SlotOk(slot) && !Accept(slot, hdr, data).1.Rejected?
    ensures var r := Accept(slot, hdr, data).1;
            && (r.Complete? <==> forall i :: 0 <= i < hdr.count ==> i in AtHand(slot, hdr, data))
            && (r.Complete? ==> |r.mote| == hdr.totalLen)
            && (r.Complete? && k < hdr.totalLen ==>
                  && k / 2032 in AtHand(slot, hdr, data) && k % 2032 < |AtHand(slot, hdr, data)[k / 2032]|
                  && r.mote[k] == AtHand(slot, hdr, data)[k / 2032][k % 2032])
  {
    hide Accept, AtHand, Concat, SlotOk;
    var cells := AtHand(slot, hdr, data);
    AcceptIs(slot, hdr, data);
    FullIff(cells, hdr.count);
    if |cells| == hdr.count && k < hdr.totalLen {
      ConcatAt(cells, hdr.count, k);
    }
  }

  lemma AcceptOk(slot: Slot, hdr: Header, data: Bytes)
    requires SlotOk(slot)
    ensures SlotOk(Accept(slot, hdr, data).0)
  {
    if Accept(slot, hdr, data).0 != slot && Accept(slot, hdr, data).0.Partial? {
      FullKeys(Accept(slot, hdr, data).0.cells.Keys, hdr.count);
      assert |Accept(slot, hdr, data).0.cells.Keys| == |Accept(slot, hdr, data).0.cells|;
    }
  }

  // --- fragments of one payload --------------------------------------------------------------------------

  /** The k-th octet of the padded payload. */
  function Padded(inner: Bytes, k: nat): Byte {
    if k < |inner| then inner[k] else 0
  }

  lemma FragmentAt(inner: Bytes, i: nat, k: nat)
    requires k < FRAGMENT_DATA_LEN
    ensures Fragment(inner, i)[k] == Padded(inner, i * FRAGMENT_DATA_LEN + k)
  {
  }

  /** The fragments, one after another, are the padded payload. */
  lemma {:induction false} ConcatOfFragments(inner: Bytes, cells: map<nat, Bytes>, n: nat)
    requires forall i :: 0 <= i < n ==> i in cells && cells[i] == Fragment(inner, i)
    ensures |Concat(cells, n)| == n * FRAGMENT_DATA_LEN
    ensures forall k :: 0 <= k < n * FRAGMENT_DATA_LEN ==> Concat(cells, n)[k] == Padded(inner, k)
  {
    hide Fragment, Padded;
    if n > 0 {
      ConcatOfFragments(inner, cells, n - 1);
      var m := (n - 1) * FRAGMENT_DATA_LEN;
      forall k | m <= k < n * FRAGMENT_DATA_LEN
        ensures Concat(cells, n)[k] == Padded(inner, k)
      {
        FragmentAt(inner, n - 1, k - m);
      }
    }
  }

  function Cells(inner: Bytes, seen: set<nat>): (m: map<nat, Bytes>)
    ensures m.Keys == seen && |m| == |seen|
    ensures forall i :: i in seen ==> m[i] == Fragment(inner, i)
  {
    var m := map i | i in seen :: Fragment(inner, i);
    assert m.Keys == seen;
    assert |m.Keys| == |m|;
    m
  }

  /** The slot after the fragments with these indices, in whatever order and however often. */
  function Held(inner: Bytes, count: nat, seen: set<nat>): Slot {
    if seen == {} then Empty else Partial(count, |inner|, Cells(inner, seen))
  }

  lemma HeldOk(inner: Bytes, count: nat, seen: set<nat>)
    requires |inner| <= count * FRAGMENT_DATA_LEN
    requires (forall i :: i in seen ==> i < count) && seen != Range(count)
    ensures SlotOk(Held(inner, count, seen))
  {
    hide Cells;
    FullKeys(seen, count);
  }

  lemma StoreCell(inner: Bytes, seen: set<nat>, i: nat)
    ensures Cells(inner, seen + {i})
         == if i in seen then Cells(inner, seen) else Cells(inner, seen)[i := Fragment(inner, i)]
  {
    hide Cells;
    if i in seen {
      assert seen + {i} == seen;
    }
  }

  /** A fragment that leaves some missing is kept; the one that completes the set releases the payload. */
  lemma AcceptFragment(inner: Bytes, count: nat, seen: set<nat>, hdr: Header)
    requires count in RUNGS && |inner| <= count * FRAGMENT_DATA_LEN
    requires (forall i :: i in seen ==> i < count) && seen != Range(count)
    requires hdr.count == count && hdr.totalLen == |inner| && hdr.index < count
    ensures SlotOk(Held(inner, count, seen))
    ensures seen + {hdr.index} != Range(count) ==>
              Accept(Held(inner, count, seen), hdr, Fragment(inner, hdr.index))
              == (Held(inner, count, seen + {hdr.index}), Pending)
    ensures seen + {hdr.index} == Range(count) ==>
              Accept(Held(inner, count, seen), hdr, Fragment(inner, hdr.index)) == (Empty, Complete(inner))
  {
    hide Fragment, Cells, Concat, Range;
    HeldOk(inner, count, seen);
    var more := seen + {hdr.index};
    StoreCell(inner, seen, hdr.index);
    EmptyCells(inner);
    FullKeys(more, count);
    assert more != {};
    if more == Range(count) {
      CompletePayload(inner, count, Cells(inner, more));
    }
    if count == 1 {
      assert more == Range(count);
      CompletePayload(inner, count, Cells(inner, more));
    }
  }

  lemma EmptyCells(inner: Bytes)
    ensures Cells(inner, {}) == map[]
  {
  }

  lemma CompletePayload(inner: Bytes, count: nat, cells: map<nat, Bytes>)
    requires |inner| <= count * FRAGMENT_DATA_LEN
    requires forall i :: 0 <= i < count ==> i in cells && cells[i] == Fragment(inner, i)
    ensures |Concat(cells, count)| >= |inner| && Concat(cells, count)[..|inner|] == inner
    ensures count == 1 ==> Fragment(inner, 0)[..|inner|] == inner
  {
    ConcatOfFragments(inner, cells, count);
    if count == 1 {
      assert Concat(cells, 0) == [];
      assert Concat(cells, 1) == cells[0];
    }
  }
}
