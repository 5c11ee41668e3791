/** Replay-stable identifiers: a digest folded into the version 7 layout of section 5.7 of RFC 9562 under the
    timestamp of the import run.
 */
module StableUuid {

  /** A digest as its bytes; only the first ten are used. */
  type Digest = d: seq<bv8> | |d| >= 10 witness seq(10, i => 0)

  function Widen(b: bv8): bv128 {
    b as bv128
  }

  /** The first two bytes, big-endian, cut to twelve bits. */
  function RandomA(d: Digest): bv128 {
    ((Widen(d[0]) << 8) | Widen(d[1])) & 0x0FFF
  }

  function BigEndian8(d: Digest): bv128 {
    (Widen(d[2]) << 56) | (Widen(d[3]) << 48) | (Widen(d[4]) << 40) | (Widen(d[5]) << 32)
    | (Widen(d[6]) << 24) | (Widen(d[7]) << 16) | (Widen(d[8]) << 8) | Widen(d[9])
  }

  /** The next eight bytes, big-endian, cut to sixty-two bits. */
  function RandomB(d: Digest): bv128 {
    BigEndian8(d) & 0x3FFF_FFFF_FFFF_FFFF
  }

  function Timestamp(id: bv128): bv128 {
    id >> 80
  }

  function Pack(timestamp: bv128, a: bv128, b: bv128): bv128 {
    (timestamp << 80) | (7 << 76) | (a << 64) | (2 << 62) | b
  }

  function StableId(run: bv128, d: Digest): bv128 {
    Pack(Timestamp(run), RandomA(d), RandomB(d))
  }

  /** Bytes 6 and 8 of the sixteen bytes of an identifier, most significant first. */
  function Byte6(id: bv128): bv128 {
    (id >> 72) & 0xFF
  }

  function Byte8(id: bv128): bv128 {
    (id >> 56) & 0xFF
  }

  /** The database's test for a version 7 identifier. */
  predicate DatabaseAccepts(id: bv128) {
    Byte6(id) >> 4 == 7 && Byte8(id) & 192 == 128
  }

  predicate Fits(timestamp: bv128, a: bv128, b: bv128) {
    timestamp <= 0xFFFF_FFFF_FFFF && a <= 0xFFF && b <= 0x3FFF_FFFF_FFFF_FFFF
  }

  /** The five fields do not overlap: each can be read back from where it was put. */
  lemma FieldsReadBack(timestamp: bv128, a: bv128, b: bv128)
    requires Fits(timestamp, a, b)
    ensures var id := Pack(timestamp, a, b);
            && id >> 80 == timestamp
            && (id >> 76) & 0xF == 7
            && (id >> 64) & 0xFFF == a
            && (id >> 62) & 3 == 2
            && id & 0x3FFF_FFFF_FFFF_FFFF == b
  {
  }

  lemma PackedIsVersion7(timestamp: bv128, a: bv128, b: bv128)
    requires Fits(timestamp, a, b)
    ensures DatabaseAccepts(Pack(timestamp, a, b))
  {
  }

  lemma DerivedFit(run: bv128, d: Digest)
    ensures Fits(Timestamp(run), RandomA(d), RandomB(d))
  {
    MaskBounds((Widen(d[0]) << 8) | Widen(d[1]), BigEndian8(d));
    ShiftBound(run);
  }

  lemma MaskBounds(x: bv128, y: bv128)
    ensures x & 0x0FFF <= 0xFFF && y & 0x3FFF_FFFF_FFFF_FFFF <= 0x3FFF_FFFF_FFFF_FFFF
  {
  }

  lemma ShiftBound(run: bv128)
    ensures run >> 80 <= 0xFFFF_FFFF_FFFF
  {
  }

  /** For every run and digest the derived identifier keeps the run's timestamp, keeps the digest's two fields, and
      passes the database's test. */
  lemma StableIdIsVersion7(run: bv128, d: Digest)
    ensures var id := StableId(run, d);
            && Timestamp(id) == Timestamp(run)
            && (id >> 64) & 0xFFF == RandomA(d)
            && id & 0x3FFF_FFFF_FFFF_FFFF == RandomB(d)
            && DatabaseAccepts(id)
  {
    DerivedFit(run, d);
    FieldsReadBack(Timestamp(run), RandomA(d), RandomB(d));
    PackedIsVersion7(Timestamp(run), RandomA(d), RandomB(d));
  }

  /** Two derived identifiers are equal exactly when their runs share a timestamp and their digests agree on the
      seventy-four bits used. */
  lemma StableIdsAgreeExactly(run: bv128, d: Digest, other: bv128, e: Digest)
    ensures StableId(run, d) == StableId(other, e) <==>
            Timestamp(run) == Timestamp(other) && RandomA(d) == RandomA(e) && RandomB(d) == RandomB(e)
  {
    StableIdIsVersion7(run, d);
    StableIdIsVersion7(other, e);
  }
}
