/**
 * The 64-bit ID layout: `(elapsed << 22) | (sequence << 16) | machineId`.
 *
 * Bit 63 is the sign bit, bits 22-62 hold the elapsed milliseconds, bits 16-21
 * the per-millisecond sequence and bits 0-15 the machine id.  `Pack` computes
 * the Java expression exactly for arguments within their Java types, as
 * `next()` passes them: `elapsed` is a `long`, shifted as a `long`;
 * `sequence` is an `int`, shifted as an `int` and widened; the machine id is
 * an `int` (within the 32-bit range, as `getId()` returns it), widened with
 * its sign.
 */
module IdLayout {
  import opened JavaBits

  /** The fields an ID is made of. */
  datatype Fields = Fields(elapsed: int, sequence: int, machineId: int)

  /** The ID: the `long` value of `(elapsed << 22) | (sequence << 16) | machineId`. */
  function Pack(elapsed: int, sequence: int, machineId: int): int
  {
    BitOr(BitOr(Shl(elapsed, 22, LONG), Shl(sequence, 16, INT), LONG), machineId, LONG)
  }

  /**
   * The fields read back from an ID: `id >> 22`, `(id >> 16) & 63` and
   * `id & 0xFFFF`.  On a non-negative `long` Java's arithmetic shift is floor
   * division and masking with 2^k - 1 is the remainder modulo 2^k, which is
   * what Dafny's `/` and `%` compute.
   */
  function Decode(id: int): (f: Fields)
    ensures 0 <= f.sequence < 64 && 0 <= f.machineId < 0x1_0000
  {
    Fields(id / 0x40_0000, (id / 0x1_0000) % 64, id % 0x1_0000)
  }

  /** An integer reassembled from its quotient by 2^22, bits 16-21 and its low 16 bits. */
  lemma DivModParts(id: int)
    ensures id == (id / 0x40_0000) * 0x40_0000 + ((id / 0x1_0000) % 64) * 0x1_0000 + id % 0x1_0000
  {
    var q := id / 0x1_0000;
    assert id == q * 0x1_0000 + id % 0x1_0000;
    assert q == (q / 64) * 64 + q % 64;
    assert q / 64 == id / 0x40_0000;
  }

  /** The three fields fit their bit ranges with the machine id in the low 16 bits. */
  predicate InLayout(elapsed: int, sequence: int, machineId: int)
  {
    0 <= elapsed < 0x200_0000_0000 && 0 <= sequence < 64 && 0 <= machineId < 0x1_0000
  }

  /**
   * The other round trip: every non-negative `long` is the ID of the fields
   * it decodes to, and those fields lie within the layout.
   */
  lemma DecodeRoundTrip(id: int)
    requires 0 <= id < 0x8000_0000_0000_0000
    ensures var f := Decode(id);
      InLayout(f.elapsed, f.sequence, f.machineId) && Pack(f.elapsed, f.sequence, f.machineId) == id
  {
    var f := Decode(id);
    DivModParts(id);
    assert id == f.elapsed * 0x40_0000 + f.sequence * 0x1_0000 + f.machineId;
    assert 0 <= f.elapsed < 0x200_0000_0000;
    PackSum(f.elapsed, f.sequence, f.machineId);
  }

  /**
   * Within the layout the ID is the sum of the shifted fields, a non-negative
   * `long`, and decoding it gives the fields back.
   */
  lemma PackLayout(elapsed: int, sequence: int, machineId: int)
    requires InLayout(elapsed, sequence, machineId)
    ensures Pack(elapsed, sequence, machineId)
         == elapsed * 0x40_0000 + sequence * 0x1_0000 + machineId
    ensures 0 <= Pack(elapsed, sequence, machineId) < 0x8000_0000_0000_0000
    ensures Decode(Pack(elapsed, sequence, machineId)) == Fields(elapsed, sequence, machineId)
  {
    PackSum(elapsed, sequence, machineId);
    DecodeSum(elapsed, sequence, machineId);
  }

  /** The bitwise OR of the shifted fields is their sum. */
  lemma PackSum(elapsed: int, sequence: int, machineId: int)
    requires InLayout(elapsed, sequence, machineId)
    ensures Pack(elapsed, sequence, machineId)
         == (elapsed * 64 + sequence) * 0x1_0000 + machineId
  {
    Pow2Values();
    var e := elapsed * Pow2(22);
    var s := sequence * Pow2(16);
    assert e == elapsed * 0x40_0000 && s == sequence * 0x1_0000;
    ShlExact(elapsed, 22, LONG);
    ShlExact(sequence, 16, INT);
    assert Shl(elapsed, 22, LONG) == e && Shl(sequence, 16, INT) == s;
    BitOrDisjoint(elapsed, s, 22, LONG);
    var inner := BitOr(Shl(elapsed, 22, LONG), Shl(sequence, 16, INT), LONG);
    assert inner == e + s;
    var high := elapsed * 64 + sequence;
    assert inner == high * Pow2(16);
    BitOrDisjoint(high, machineId, 16, LONG);
    assert Pack(elapsed, sequence, machineId) == BitOr(inner, machineId, LONG);
  }

  /** Decoding the sum of the shifted fields gives them back. */
  lemma DecodeSum(elapsed: int, sequence: int, machineId: int)
    requires InLayout(elapsed, sequence, machineId)
    ensures Decode(elapsed * 0x40_0000 + sequence * 0x1_0000 + machineId)
         == Fields(elapsed, sequence, machineId)
  {
    var mid := elapsed * 64 + sequence;
    var id := mid * 0x1_0000 + machineId;
    assert id / 0x1_0000 == mid && id % 0x1_0000 == machineId;
    assert id / 0x40_0000 == elapsed;
    assert mid % 64 == sequence;
  }

  /** Within the layout distinct field triples give distinct IDs. */
  lemma PackInjective(e1: int, s1: int, m1: int, e2: int, s2: int, m2: int)
    requires InLayout(e1, s1, m1) && InLayout(e2, s2, m2)
    requires Pack(e1, s1, m1) == Pack(e2, s2, m2)
    ensures e1 == e2 && s1 == s2 && m1 == m2
  {
    PackLayout(e1, s1, m1);
    PackLayout(e2, s2, m2);
  }

  /**
   * For one machine id, IDs are ordered like (elapsed, sequence) pairs ordered
   * lexicographically.
   */
  lemma PackMonotone(e1: int, s1: int, e2: int, s2: int, machineId: int)
    requires InLayout(e1, s1, machineId) && InLayout(e2, s2, machineId)
    requires e1 < e2 || (e1 == e2 && s1 < s2)
    ensures Pack(e1, s1, machineId) < Pack(e2, s2, machineId)
  {
    PackSum(e1, s1, machineId);
    PackSum(e2, s2, machineId);
    var h1, h2 := e1 * 64 + s1, e2 * 64 + s2;
    assert h1 + 1 <= h2 by {
      if e1 < e2 {
        assert e1 * 64 + 64 <= e2 * 64;
      }
    }
    assert h1 * 0x1_0000 + 0x1_0000 <= h2 * 0x1_0000;
    assert Pack(e1, s1, machineId) == h1 * 0x1_0000 + machineId;
    assert Pack(e2, s2, machineId) == h2 * 0x1_0000 + machineId;
  }

  /**
   * At sequence 0 a machine id of up to 22 bits is added to the shifted
   * elapsed time, bits 16-21 included.
   */
  lemma PackWideMachineId(elapsed: int, machineId: int)
    requires 0 <= elapsed < 0x200_0000_0000 && 0 <= machineId < 0x40_0000
    ensures Pack(elapsed, 0, machineId) == elapsed * 0x40_0000 + machineId
  {
    Pow2Values();
    ShlExact(elapsed, 22, LONG);
    ShlExact(0, 16, INT);
    BitOrDisjoint(elapsed, 0, 22, LONG);
    var inner := BitOr(Shl(elapsed, 22, LONG), Shl(0, 16, INT), LONG);
    assert inner == elapsed * Pow2(22);
    BitOrDisjoint(elapsed, machineId, 22, LONG);
    assert Pack(elapsed, 0, machineId) == BitOr(inner, machineId, LONG);
  }

  /**
   * The machine id is documented to range over 0-262143, but only 16 bits are
   * reserved for it: a machine id of 65536 sets bit 16, the lowest sequence
   * bit, so generator 65536 at sequence 0 and generator 0 at sequence 1 issue
   * the same ID in every millisecond.
   */
  lemma MachineIdOverlapsSequence(elapsed: int)
    requires 0 <= elapsed < 0x200_0000_0000
    ensures Pack(elapsed, 0, 0x1_0000) == Pack(elapsed, 1, 0)
    ensures Decode(Pack(elapsed, 0, 0x1_0000)) == Fields(elapsed, 1, 0)
  {
    PackWideMachineId(elapsed, 0x1_0000);
    PackLayout(elapsed, 1, 0);
    assert Pack(elapsed, 1, 0) == elapsed * 0x40_0000 + 0x1_0000;
  }

  /**
   * Within one generator, too: with machine id 65536, sequence 0 and
   * sequence 1 of the same millisecond give the same ID, because the
   * machine id already sets the one bit sequence 1 adds.
   */
  lemma WideMachineIdRepeatsId(elapsed: int)
    requires 0 <= elapsed < 0x200_0000_0000
    ensures Pack(elapsed, 0, 0x1_0000) == Pack(elapsed, 1, 0x1_0000)
  {
    PackWideMachineId(elapsed, 0x1_0000);
    Pow2Values();
    assert Pow2(17) == 2 * Pow2(16);
    ShlExact(elapsed, 22, LONG);
    ShlExact(1, 16, INT);
    BitOrDisjoint(elapsed, 0x1_0000, 22, LONG);
    var inner := BitOr(Shl(elapsed, 22, LONG), Shl(1, 16, INT), LONG);
    assert inner == (elapsed * 32) * Pow2(17) + 0x1_0000;
    BitOrAlreadySet(elapsed * 32, 0x1_0000, 17, LONG);
    assert Pack(elapsed, 1, 0x1_0000) == BitOr(inner, 0x1_0000, LONG);
  }
}
