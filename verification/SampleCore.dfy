/** A core that meets `Mote.Lawful`: a self-delimiting encoding, and validation by the content address alone. */
module SampleCore {
  import opened Prelude
  import opened MixDirectory
  import opened Mote
  import Onion

  // --- a self-delimiting encoding -----------------------------------------------------------------------

  /** Each octet behind a 1, and a 0 at the end. */
  function Field(b: Bytes): Bytes {
    if b == [] then [0] else [1, b[0]] + Field(b[1..])
  }

  /** The first field of `s` and what follows it. */
  function ReadField(s: Bytes): Option<(Bytes, Bytes)> {
    if s == [] then None
    else if s[0] == 0 then Some(([], s[1..]))
    else if |s| == 1 then None
    else
      match ReadField(s[2..])
      case None => None
      case Some((b, rest)) => Some(([s[1]] + b, rest))
  }

  lemma {:induction false} ReadBack(b: Bytes, rest: Bytes)
    ensures ReadField(Field(b) + rest) == Some((b, rest))
  {
    var s := Field(b) + rest;
    if b == [] {
      assert s[1..] == rest;
    } else {
      assert Field(b) == [1, b[0]] + Field(b[1..]);
      assert s[0] == 1 && s[1] == b[0] && s[2..] == Field(b[1..]) + rest;
      ReadBack(b[1..], rest);
      assert [b[0]] + b[1..] == b;
    }
  }

  /** A number as that many octets. */
  function Tally(n: nat): (b: Bytes)
    ensures |b| == n
  {
    seq(n, _ => 0)
  }

  /** Five fields, one after another. */
  function Record(a: Bytes, b: Bytes, c: Bytes, d: Bytes, e: Bytes): Bytes {
    Field(a) + (Field(b) + (Field(c) + (Field(d) + Field(e))))
  }

  datatype Fields = Fields(a: Bytes, b: Bytes, c: Bytes, d: Bytes, e: Bytes, rest: Bytes)

  function ReadRecord(s: Bytes): Option<Fields> {
    match ReadField(s)
    case None => None
    case Some((a, t)) =>
      match ReadField(t)
      case None => None
      case Some((b, u)) =>
        match ReadField(u)
        case None => None
        case Some((c, v)) =>
          match ReadField(v)
          case None => None
          case Some((d, w)) =>
            match ReadField(w)
            case None => None
            case Some((e, rest)) => Some(Fields(a, b, c, d, e, rest))
  }

  lemma RecordBack(a: Bytes, b: Bytes, c: Bytes, d: Bytes, e: Bytes, rest: Bytes)
    ensures ReadRecord(Record(a, b, c, d, e) + rest) == Some(Fields(a, b, c, d, e, rest))
  {
    hide Field, ReadField;
    var w := Field(e) + rest;
    var v := Field(d) + w;
    var u := Field(c) + v;
    var t := Field(b) + u;
    assert Record(a, b, c, d, e) + rest == Field(a) + t;
    ReadBack(a, t);
    ReadBack(b, u);
    ReadBack(c, v);
    ReadBack(d, w);
    ReadBack(e, rest);
  }

  // --- envelopes and directories ----------------------------------------------------------------------------

  function EncodeEnvelope(e: Envelope): Bytes {
    Record(e.id.of, e.ciphertext, e.to, Tally(e.suite), Tally(if e.hasPow then 1 else 0)) + Field(e.rest)
  }

  function DecodeEnvelope(s: Bytes): Option<Envelope> {
    match ReadRecord(s)
    case None => None
    case Some(f) =>
      match ReadField(f.rest)
      case None => None
      case Some((rest, _)) => Some(Envelope(Address(f.a), f.b, f.c, |f.d|, f.e != [], rest))
  }

  lemma EnvelopeBack(e: Envelope)
    ensures DecodeEnvelope(EncodeEnvelope(e)) == Some(e)
  {
    hide ReadRecord, Record, Field, ReadField;
    RecordBack(e.id.of, e.ciphertext, e.to, Tally(e.suite), Tally(if e.hasPow then 1 else 0), Field(e.rest));
    ReadBack(e.rest, []);
    assert Field(e.rest) + [] == Field(e.rest);
  }

  function EncodeDirectory(d: Directory): Bytes {
    Record(d.authority, Tally(d.epoch), Tally(d.version), d.fleet, Tally(if d.verified then 1 else 0))
  }

  function DecodeDirectory(s: Bytes): Option<Directory> {
    match ReadRecord(s)
    case None => None
    case Some(f) => Some(Directory(f.a, |f.b|, |f.c|, f.d, f.e != []))
  }

  lemma DirectoryBack(d: Directory)
    ensures DecodeDirectory(EncodeDirectory(d)) == Some(d)
  {
    hide ReadRecord, Record;
    RecordBack(d.authority, Tally(d.epoch), Tally(d.version), d.fleet, Tally(if d.verified then 1 else 0), []);
    assert EncodeDirectory(d) + [] == EncodeDirectory(d);
  }

  // --- the core ---------------------------------------------------------------------------------------------

  const SUITES: set<nat> := {1, 2}

  /** Two known suites; `rest` names the author, and a `to` other than the recipient marks a message as sensitive. */
  function CheckEnvelope(e: Envelope, us: Ik, known: bool): CoreOutcome {
    if e.suite !in SUITES then Rejected(BadVersionOrSuite)
    else if !e.Verified() then Rejected(BadContentAddress)
    else Accepted(Payload(e.rest, e.to != us, e.ciphertext))
  }

  function Sample(): Core {
    Core(EncodeEnvelope, DecodeEnvelope, CheckEnvelope, (p: Payload) => p.body, SUITES, (b: Bytes) => Onion.Zeros(32),
         DirCodec(EncodeDirectory, DecodeDirectory))
  }

  /** What the theorems assume of a core can be met. */
  lemma SampleIsLawful()
    ensures Lawful(Sample())
  {
    hide EncodeEnvelope, DecodeEnvelope, EncodeDirectory, DecodeDirectory;
    forall e: Envelope
      ensures DecodeEnvelope(EncodeEnvelope(e)) == Some(e)
    {
      EnvelopeBack(e);
    }
    forall d: Directory
      ensures DecodeDirectory(EncodeDirectory(d)) == Some(d)
    {
      DirectoryBack(d);
    }
  }
}
