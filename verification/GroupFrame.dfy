/** The group-message frame (node/src/group.rs): kind, epoch, length-prefixed group id, body. */
module GroupFrame {
  import opened Prelude
  import opened Positional

  /** A kind is represented by its byte; which bytes name a kind is fixed outside this repository. */
  datatype GroupMote = GroupMote(groupId: Bytes, kind: Byte, epoch: nat, body: Bytes)

  datatype GroupError = Malformed

  /** The values a `GroupMote` can hold: a known kind and a 64-bit epoch. */
  predicate WellTyped(m: GroupMote, kinds: set<Byte>) {
    m.kind in kinds && m.epoch <= U64_MAX
  }

  /** The length is written as a `u32`, so it wraps for a group id of 2^32 octets or more. */
  function Encode(m: GroupMote): Bytes {
    [m.kind] + Be(m.epoch, 8) + Be(|m.groupId|, 4) + m.groupId + m.body
  }

  function Decode(b: Bytes, kinds: set<Byte>): Result<GroupMote, GroupError> {
    if |b| < 13 then Err(Malformed)
    else if b[0] !in kinds then Err(Malformed)
    else
      var gidLen := FromBe(b[9..13]);
      if |b| < 13 + gidLen then Err(Malformed)
      else Ok(GroupMote(b[13..13 + gidLen], b[0], FromBe(b[1..9]), b[13 + gidLen..]))
  }

  /** The frame is written field by field into one buffer. */
  method WriteFrame(m: GroupMote) returns (out: Bytes)
    ensures out == Encode(m)
  {
    out := [m.kind];
    out := out + Be(m.epoch, 8);
    out := out + Be(|m.groupId|, 4);
    out := out + m.groupId;
    out := out + m.body;
  }

  lemma FieldsOfEncode(m: GroupMote)
    ensures var b := Encode(m);
            && |b| == 13 + |m.groupId| + |m.body|
            && b[0] == m.kind && b[1..9] == Be(m.epoch, 8) && b[9..13] == Be(|m.groupId|, 4)
            && b[13..] == m.groupId + m.body
  {
  }

  lemma FieldWidths()
    ensures Pow2(64) == U64_MAX + 1 && Pow2(32) == U32_MAX + 1
  {
    assert Pow2(8) == 16 * Pow2(4) == 256;
    Pow2Add(8, 8);
    Pow2Add(16, 16);
    Pow2Add(32, 32);
  }

  /** The frame octet by octet: kind, epoch and length most significant first, then the id and the body. */
  lemma FrameLayout(m: GroupMote)
    ensures var b := Encode(m);
            && |b| == 13 + |m.groupId| + |m.body| && b[0] == m.kind
            && (forall i :: 1 <= i < 9 ==> b[i] == Octet(m.epoch, 8 - i))
            && (forall i :: 9 <= i < 13 ==> b[i] == Octet(|m.groupId|, 12 - i))
            && b[13..13 + |m.groupId|] == m.groupId && b[13 + |m.groupId|..] == m.body
  {
    FieldsOfEncode(m);
    hide *;
    var b := Encode(m);
    forall i | 1 <= i < 9
      ensures b[i] == Octet(m.epoch, 8 - i)
    {
      BeOctet(m.epoch, 8, i - 1);
      assert b[i] == b[1..9][i - 1];
    }
    forall i | 9 <= i < 13
      ensures b[i] == Octet(|m.groupId|, 12 - i)
    {
      BeOctet(|m.groupId|, 4, i - 9);
      assert b[i] == b[9..13][i - 9];
    }
    assert b[13..][..|m.groupId|] == m.groupId && b[13..][|m.groupId|..] == m.body;
  }

  /** Decoding undoes encoding exactly when the group id's length fits its field. */
  lemma DecodeOfEncode(m: GroupMote, kinds: set<Byte>)
    requires WellTyped(m, kinds)
    ensures Decode(Encode(m), kinds) == Ok(m) <==> |m.groupId| <= U32_MAX
  {
    hide Encode, Be, FromBe;
    FieldsOfEncode(m);
    FieldWidths();
    FromBeOfBe(m.epoch, 8);
    FromBeOfBe(|m.groupId|, 4);
    var b := Encode(m);
    if |m.groupId| <= U32_MAX {
      assert b[13..13 + |m.groupId|] == b[13..][..|m.groupId|] == m.groupId;
      assert b[13 + |m.groupId|..] == b[13..][|m.groupId|..] == m.body;
    }
  }

  lemma FiveParts(b: Bytes, n: nat)
    requires 13 + n <= |b|
    ensures [b[0]] + b[1..9] + b[9..13] + b[13..13 + n] + b[13 + n..] == b
  {
    assert [b[0]] + b[1..9] == b[..9];
    assert b[..9] + b[9..13] == b[..13];
    assert b[..13] + b[13..13 + n] == b[..13 + n];
  }

  /** Whatever decodes is the encoding of what it decodes to: the frame has one spelling. */
  lemma EncodeOfDecode(b: Bytes, kinds: set<Byte>)
    requires Decode(b, kinds).Ok?
    ensures Encode(Decode(b, kinds).value) == b
    ensures WellTyped(Decode(b, kinds).value, kinds)
  {
    hide Be, FromBe, Pow2;
    var m, n := Decode(b, kinds).value, FromBe(b[9..13]);
    BeOfFromBe(b[1..9]);
    BeOfFromBe(b[9..13]);
    FieldWidths();
    FromBeOfBe(m.epoch, 8);
    FiveParts(b, n);
  }
}
