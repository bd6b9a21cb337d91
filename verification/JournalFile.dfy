/** The serialized snapshot of node/src/journal.rs: lists in whatever order hash maps yield their pairs. */
module JournalFile {
  import opened Prelude
  import opened Listing
  import opened Mote
  import opened Outbound
  import opened MixDirectory
  import opened Delivery
  import Admission
  import RateGate

  datatype File = File(
    outbound: seq<PersistedEntry>,
    seen: seq<(ContentId, Ik)>,
    suiteMarks: seq<(Ik, nat)>,
    mixDirectories: seq<Bytes>,
    admission: Option<Admission.GateSnapshot>)

  const EMPTY_FILE := File([], [], [], [], None)

  function Keyed(es: seq<PersistedEntry>): (ps: seq<(ContentId, PersistedEntry)>)
    ensures |ps| == |es| && forall i :: 0 <= i < |es| ==> ps[i] == (es[i].id, es[i])
  {
    seq(|es|, i requires 0 <= i < |es| => (es[i].id, es[i]))
  }

  function GateIn(snap: Option<Admission.GateSnapshot>): Option<RateGate.Gate> {
    if snap.None? then None
    else Some(RateGate.Gate(snap.value.limits, snap.value.global, Collect(snap.value.perSource)))
  }

  ghost predicate ListsDirectories(files: seq<Bytes>, mix: Latest, codec: DirCodec) {
    exists ps :: Lists(ps, mix) && files == Encoded(ps, codec)
  }

  /** The file holds these tables. */
  ghost predicate Writes(f: File, d: Disk, codec: DirCodec) {
    && Lists(Keyed(f.outbound), d.outbound)
    && f.seen == d.seen
    && Lists(f.suiteMarks, d.marks)
    && ListsDirectories(f.mixDirectories, d.mix, codec)
    && GateIn(f.admission) == d.gate
  }

  lemma EmptyWrites(codec: DirCodec)
    ensures Writes(EMPTY_FILE, EmptyDisk(), codec)
  {
    assert Lists<Ik, Directory>([], map[]) && Encoded([], codec) == [];
  }

  class MemoryJournal {
    var file: Option<File>
    var failing: bool
    var saves: nat

    constructor ()
      ensures file.None? && !failing && saves == 0
    {
      file, failing, saves := None, false, 0;
    }

    /** The stored snapshot, or an empty one on first boot. */
    function Load(): File
      reads this
    {
      if file.Some? then file.value else EMPTY_FILE
    }

    method Save(f: File) returns (ok: bool)
      modifies this
      ensures ok == !old(failing) && failing == old(failing) && saves == old(saves) + 1
      ensures Load() == if ok then f else old(Load())
    {
      saves := saves + 1;
      ok := !failing;
      if ok {
        file := Some(f);
      }
    }
  }

  // --- writing ---------------------------------------------------------------------------------------------

  /** Entries persisted one by one, in the order of a listing of the queue. */
  lemma KeyedLists(core: Core, ps: seq<(ContentId, Entry)>, outbound: map<ContentId, Entry>, es: seq<PersistedEntry>)
    requires Lists(ps, outbound) && |es| == |ps|
    requires forall i :: 0 <= i < |ps| ==> es[i] == FromEntry(core, ps[i].1)
    requires forall id :: id in outbound ==> outbound[id].id == id
    ensures Lists(Keyed(es), Persisted(core, outbound))
  {
    hide FromEntry;
    var qs, m := Keyed(es), Persisted(core, outbound);
    forall i | 0 <= i < |es|
      ensures es[i].id == ps[i].0
    {
      PersistedId(core, ps[i].1);
    }
    forall id | id in m
      ensures exists i :: 0 <= i < |qs| && qs[i] == (id, m[id])
    {
      var i :| 0 <= i < |ps| && ps[i] == (id, outbound[id]);
      assert qs[i] == (id, m[id]);
    }
  }

  lemma PersistedId(core: Core, e: Entry)
    ensures FromEntry(core, e).id == e.id
  {
  }

  // --- reading ---------------------------------------------------------------------------------------------

  /** The table an entry list stands for. */
  function Entries(core: Core, es: seq<PersistedEntry>): Result<map<ContentId, Entry>, JournalError> {
    if es == [] then Ok(map[])
    else
      var n := |es| - 1;
      match Entries(core, es[..n])
      case Err(e) => Err(e)
      case Ok(m) =>
        match IntoEntry(core, es[n])
        case Err(e) => Err(e)
        case Ok(e) => Ok(m[e.id := e])
  }

  predicate AllReadable(core: Core, es: seq<PersistedEntry>) {
    forall i :: 0 <= i < |es| ==> IntoEntry(core, es[i]).Ok?
  }

  function Read(core: Core, es: seq<PersistedEntry>): (ps: seq<(ContentId, Entry)>)
    requires AllReadable(core, es)
    ensures |ps| == |es|
    ensures forall i :: 0 <= i < |es| ==> ps[i] == (es[i].id, IntoEntry(core, es[i]).value)
  {
    seq(|es|, i requires 0 <= i < |es| => (es[i].id, IntoEntry(core, es[i]).value))
  }

  lemma {:induction false} EntriesCollect(core: Core, es: seq<PersistedEntry>)
    ensures Entries(core, es).Ok? <==> AllReadable(core, es)
    ensures AllReadable(core, es) ==> Entries(core, es) == Ok(Collect(Read(core, es)))
  {
    if es != [] {
      var n := |es| - 1;
      EntriesCollect(core, es[..n]);
      IntoKeepsId(core, es[n]);
      hide IntoEntry;
      if AllReadable(core, es) {
        assert Read(core, es)[..n] == Read(core, es[..n]);
      }
    }
  }

  lemma IntoKeepsId(core: Core, p: PersistedEntry)
    ensures IntoEntry(core, p).Ok? ==> IntoEntry(core, p).value.id == p.id
  {
  }

  /** Reading the list back gives every entry of the table, and fails exactly when one is refused. */
  lemma EntriesOfListing(core: Core, es: seq<PersistedEntry>, table: map<ContentId, PersistedEntry>)
    requires Lists(Keyed(es), table)
    ensures Entries(core, es).Ok? <==> forall id :: id in table ==> IntoEntry(core, table[id]).Ok?
    ensures Entries(core, es).Ok? ==>
              && (forall id :: id in table ==> IntoEntry(core, table[id]).Ok?)
              && Entries(core, es).value == map id | id in table :: IntoEntry(core, table[id]).value
  {
    hide IntoEntry, Entries, Collect;
    EntriesCollect(core, es);
    var ps := Keyed(es);
    forall i | 0 <= i < |es|
      ensures es[i].id in table && table[es[i].id] == es[i]
    {
      assert ps[i].0 in table && table[ps[i].0] == ps[i].1;
    }
    forall id | id in table
      ensures exists i :: 0 <= i < |es| && es[i] == table[id] && es[i].id == id
    {
      var i :| 0 <= i < |ps| && ps[i] == (id, table[id]);
      assert es[i] == table[id];
    }
    if AllReadable(core, es) {
      ReadLists(core, es, table);
    }
  }

  lemma ReadLists(core: Core, es: seq<PersistedEntry>, table: map<ContentId, PersistedEntry>)
    requires Lists(Keyed(es), table) && AllReadable(core, es)
    requires forall id :: id in table ==> IntoEntry(core, table[id]).Ok?
    ensures Collect(Read(core, es)) == map id | id in table :: IntoEntry(core, table[id]).value
  {
    hide IntoEntry, Collect;
    var ps, rs := Keyed(es), Read(core, es);
    var m := map id | id in table :: IntoEntry(core, table[id]).value;
    forall i, j | 0 <= i < j < |rs|
      ensures rs[i].0 != rs[j].0
    {
      assert ps[i].0 != ps[j].0;
    }
    forall i | 0 <= i < |rs|
      ensures rs[i].0 in m && m[rs[i].0] == rs[i].1
    {
      assert ps[i].0 in table && table[ps[i].0] == ps[i].1;
    }
    forall id | id in m
      ensures exists i :: 0 <= i < |rs| && rs[i] == (id, m[id])
    {
      var i :| 0 <= i < |ps| && ps[i] == (id, table[id]);
      assert rs[i] == (id, m[id]);
    }
    CollectOfListing(rs, m);
  }
}
