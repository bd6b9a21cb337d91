/** Anti-rollback of mix directories (node/src/mixdir.rs): one lexicographic high-water mark per authority. */
module MixDirectory {
  import opened Prelude
  import opened Listing

  /** `verified` is the outcome of the authority-signature check, which is not part of this repository. */
  datatype Directory = Directory(authority: Ik, epoch: nat, version: nat, fleet: Bytes, verified: bool)
  {
    function Mark(): Mark { At(epoch, version) }
  }

  datatype Mark = At(epoch: nat, version: nat)
  {
    /** A newer epoch wins; within an epoch, a higher version. */
    predicate Below(other: Mark) {
      epoch < other.epoch || (epoch == other.epoch && version < other.version)
    }
  }

  datatype MixDirError = Malformed | Unverified | Stale(pinned: Mark, offered: Mark)

  /** The wire form of directories, fixed outside this repository. */
  datatype DirCodec = DirCodec(encode: Directory -> Bytes, decode: Bytes -> Option<Directory>)

  ghost predicate Faithful(codec: DirCodec) {
    forall d: Directory :: codec.decode(codec.encode(d)) == Some(d)
  }

  type Latest = map<Ik, Directory>

  function HighWaterMark(latest: Latest, authority: Ik): Option<Mark> {
    if authority in latest then Some(latest[authority].Mark()) else None
  }

  function Refusal(latest: Latest, d: Directory): Option<MixDirError> {
    if !d.verified then Some(Unverified)
    else if d.authority in latest && !latest[d.authority].Mark().Below(d.Mark())
    then Some(Stale(latest[d.authority].Mark(), d.Mark()))
    else None
  }

  function Accepted(latest: Latest, d: Directory): Latest {
    if Refusal(latest, d).None? then latest[d.authority := d] else latest
  }

  class MixDirectoryTracker {
    var latest: Latest

    constructor ()
      ensures latest == map[]
    {
      latest := map[];
    }

    method Accept(d: Directory) returns (r: Option<MixDirError>)
      modifies this
      ensures r == Refusal(old(latest), d)
      ensures latest == Accepted(old(latest), d)
    {
      if !d.verified {
        return Some(Unverified);
      }
      var offered := d.Mark();
      var pinned := HighWaterMark(latest, d.authority);
      if pinned.Some? && (offered == pinned.value || offered.Below(pinned.value)) {
        return Some(Stale(pinned.value, offered));
      }
      latest := latest[d.authority := d];
      r := None;
    }

    method Ingest(bytes: Bytes, codec: DirCodec) returns (r: Option<MixDirError>)
      modifies this
      ensures codec.decode(bytes).None? ==> r == Some(Malformed) && latest == old(latest)
      ensures codec.decode(bytes).Some? ==>
                r == Refusal(old(latest), codec.decode(bytes).value)
                && latest == Accepted(old(latest), codec.decode(bytes).value)
    {
      var d := codec.decode(bytes);
      if d.None? {
        return Some(Malformed);
      }
      r := Accept(d.value);
    }
  }

  /**
   * What becomes of an offer: it is refused exactly when its signature does not verify or it is not newer than what
   * is held of its authority, by epoch first and then by version; otherwise it takes that place and no other.
   */
  lemma OfferExactly(latest: Latest, d: Directory)
    ensures var newer := forall e: Directory :: d.authority in latest && latest[d.authority] == e ==>
                           d.epoch > e.epoch || (d.epoch == e.epoch && d.version > e.version);
            && (Refusal(latest, d).None? <==> d.verified && newer)
            && (Refusal(latest, d) == Some(Unverified) <==> !d.verified)
            && (d.verified && !newer ==>
                  && d.authority in latest
                  && var e := latest[d.authority];
                     Refusal(latest, d) == Some(Stale(At(e.epoch, e.version), At(d.epoch, d.version))))
            && Accepted(latest, d) == if d.verified && newer then latest[d.authority := d] else latest
  {
  }

  // --- sequences of offers ---------------------------------------------------------------------------

  function Offer(latest: Latest, ds: seq<Directory>): Latest {
    if ds == [] then latest else Accepted(Offer(latest, ds[..|ds| - 1]), ds[|ds| - 1])
  }

  predicate From(d: Directory, authority: Ik) {
    d.verified && d.authority == authority
  }

  /** `m` is the largest mark among the verified offers of `authority`; absent when there are none. */
  ghost predicate IsMaximum(ds: seq<Directory>, authority: Ik, m: Option<Mark>) {
    && (m.None? ==> forall d :: d in ds ==> !d.verified || d.authority != authority)
    && (m.Some? ==> exists d :: d in ds && d.verified && d.authority == authority
                                && d.epoch == m.value.epoch && d.version == m.value.version)
    && (m.Some? ==> forall d :: d in ds && d.verified && d.authority == authority ==>
                      d.epoch < m.value.epoch || (d.epoch == m.value.epoch && d.version <= m.value.version))
  }

  /** The mark is the lexicographic maximum of what was verified: refused and foreign offers leave no trace. */
  lemma {:induction false} MarkIsMaximum(ds: seq<Directory>, authority: Ik)
    ensures IsMaximum(ds, authority, HighWaterMark(Offer(map[], ds), authority))
    ensures authority in Offer(map[], ds) ==>
              Offer(map[], ds)[authority] in ds && From(Offer(map[], ds)[authority], authority)
  {
    if ds != [] {
      var n := |ds| - 1;
      MarkIsMaximum(ds[..n], authority);
      assert ds == ds[..n] + [ds[n]];
    }
  }

  lemma MaximumUnique(ds: seq<Directory>, es: seq<Directory>, authority: Ik, m: Option<Mark>, n: Option<Mark>)
    requires IsMaximum(ds, authority, m) && IsMaximum(es, authority, n)
    requires forall d :: d in ds <==> d in es
    ensures m == n
  {
  }

  /** The marks do not depend on the order of the offers, nor on how often each was repeated. */
  lemma MarksIgnoreOrder(ds: seq<Directory>, es: seq<Directory>, authority: Ik)
    requires forall d :: d in ds <==> d in es
    ensures HighWaterMark(Offer(map[], ds), authority) == HighWaterMark(Offer(map[], es), authority)
  {
    MarkIsMaximum(ds, authority);
    MarkIsMaximum(es, authority);
    MaximumUnique(ds, es, authority,
                  HighWaterMark(Offer(map[], ds), authority), HighWaterMark(Offer(map[], es), authority));
  }

  /** No authority signs two different directories under one mark. */
  ghost predicate NoEquivocation(ds: seq<Directory>) {
    forall d, e :: d in ds && e in ds && d.verified && From(e, d.authority) && d.Mark() == e.Mark() ==> d == e
  }

  /** Without equivocation the retained directories do not depend on the order either. */
  lemma RetainedIgnoresOrder(ds: seq<Directory>, es: seq<Directory>)
    requires NoEquivocation(ds) && forall d :: d in ds <==> d in es
    ensures Offer(map[], ds) == Offer(map[], es)
  {
    var l, m := Offer(map[], ds), Offer(map[], es);
    forall a: Ik
      ensures a in l <==> a in m
      ensures a in l ==> a in m && l[a] == m[a]
    {
      MarksIgnoreOrder(ds, es, a);
      MarkIsMaximum(ds, a);
      MarkIsMaximum(es, a);
    }
  }

  /** With it they do: of two directories under one mark, the first offered stays. */
  lemma EquivocationKeepsFirst(d: Directory, e: Directory)
    requires d.verified && e.verified && d.authority == e.authority && d.Mark() == e.Mark() && d != e
    ensures Offer(map[], [d, e]) != Offer(map[], [e, d])
  {
    OfferTwo(d, e);
    OfferTwo(e, d);
  }

  lemma OfferTwo(d: Directory, e: Directory)
    ensures Offer(map[], [d, e]) == Accepted(Accepted(map[], d), e)
  {
    assert [d, e][..1] == [d] && [d][..0] == [];
    assert Offer(map[], [d]) == Accepted(map[], d);
  }

  // --- restart ------------------------------------------------------------------------------------------

  /** What every tracker holds: verified directories under their own authority. */
  ghost predicate LatestOk(latest: Latest) {
    forall a :: a in latest ==> From(latest[a], a)
  }

  lemma AcceptedOk(latest: Latest, d: Directory)
    requires LatestOk(latest)
    ensures LatestOk(Accepted(latest, d))
  {
  }

  /** Re-ingest the persisted directories one by one; stop at the first refusal. */
  function Reingest(files: seq<Bytes>, codec: DirCodec): Result<Latest, MixDirError> {
    if files == [] then Ok(map[])
    else
      match Reingest(files[..|files| - 1], codec)
      case Err(e) => Err(e)
      case Ok(latest) =>
        match codec.decode(files[|files| - 1])
        case None => Err(Malformed)
        case Some(d) => if Refusal(latest, d).Some? then Err(Refusal(latest, d).value) else Ok(Accepted(latest, d))
  }

  function Encoded(ps: seq<(Ik, Directory)>, codec: DirCodec): (files: seq<Bytes>)
    ensures |files| == |ps|
  {
    if ps == [] then [] else Encoded(ps[..|ps| - 1], codec) + [codec.encode(ps[|ps| - 1].1)]
  }

  lemma EncodedPush(ps: seq<(Ik, Directory)>, p: (Ik, Directory), codec: DirCodec)
    ensures Encoded(ps + [p], codec) == Encoded(ps, codec) + [codec.encode(p.1)]
    ensures Collect(ps + [p]) == Collect(ps)[p.0 := p.1]
  {
    assert (ps + [p])[..|ps|] == ps;
  }

  /** The directory of an authority not seen yet is taken. */
  lemma ReingestPush(files: seq<Bytes>, d: Directory, latest: Latest, codec: DirCodec)
    requires Faithful(codec) && Reingest(files, codec) == Ok(latest) && d.verified && d.authority !in latest
    ensures Reingest(files + [codec.encode(d)], codec) == Ok(latest[d.authority := d])
  {
    assert codec.decode(codec.encode(d)) == Some(d);
    assert (files + [codec.encode(d)])[..|files|] == files;
  }

  lemma {:induction false} CollectHas(ps: seq<(Ik, Directory)>, a: Ik)
    ensures a in Collect(ps) ==> exists i :: 0 <= i < |ps| && ps[i].0 == a
  {
    if ps != [] && a in Collect(ps) && ps[|ps| - 1].0 != a {
      CollectHas(ps[..|ps| - 1], a);
      var i :| 0 <= i < |ps| - 1 && ps[..|ps| - 1][i].0 == a;
      assert ps[i].0 == a;
    }
  }

  lemma {:induction false} ReingestPrefix(ps: seq<(Ik, Directory)>, latest: Latest, codec: DirCodec)
    requires Faithful(codec) && LatestOk(latest)
    requires forall i :: 0 <= i < |ps| ==> ps[i].0 in latest && latest[ps[i].0] == ps[i].1
    requires forall i, j :: 0 <= i < j < |ps| ==> ps[i].0 != ps[j].0
    ensures Reingest(Encoded(ps, codec), codec) == Ok(Collect(ps))
  {
    if ps != [] {
      hide Reingest, Encoded, Collect, Faithful;
      var n := |ps| - 1;
      var init, p := ps[..n], ps[n];
      assert From(latest[p.0], p.0);
      ReingestPrefix(init, latest, codec);
      CollectHas(init, p.0);
      ReingestPush(Encoded(init, codec), p.1, Collect(init), codec);
      EncodedPush(init, p, codec);
      assert init + [p] == ps;
    }
  }

  /** Restoring a tracker from its own directories, listed in any order, never fails and loses nothing. */
  lemma ReingestRestores(ps: seq<(Ik, Directory)>, latest: Latest, codec: DirCodec)
    requires Faithful(codec) && LatestOk(latest) && Lists(ps, latest)
    ensures Reingest(Encoded(ps, codec), codec) == Ok(latest)
  {
    ReingestPrefix(ps, latest, codec);
    CollectOfListing(ps, latest);
  }
}
