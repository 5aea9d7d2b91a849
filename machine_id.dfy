/**
 * The default machine id: bytes 2 and 3 of the local host's address,
 * `(unsigned(a[2]) << 8) | unsigned(a[3])`, which are the low 16 bits of an
 * IPv4 address and lie inside the routing prefix of an IPv6 address.  The host lookup itself is an
 * input: either the address bytes it returned or the information that the
 * host name could not be resolved.
 */
module DefaultMachineId {
  import opened JavaBits
  import opened Errors

  /** A Java `byte`: signed, -128..127. */
  newtype JavaByte = x: int | -128 <= x < 128

  /** The result of looking up the local host: its address bytes, or an unknown host. */
  datatype HostLookup = Address(bytes: seq<JavaByte>) | UnknownHost

  /** `Byte.toUnsignedInt`: the byte's bit pattern read as 0..255. */
  function ToUnsignedInt(b: JavaByte): (r: int)
    ensures 0 <= r < 256
    ensures r % 256 == (b as int) % 256
  {
    if b < 0 then b as int + 256 else b as int
  }

  /** Distinct bytes have distinct unsigned readings. */
  lemma ToUnsignedIntInjective(x: JavaByte, y: JavaByte)
    requires ToUnsignedInt(x) == ToUnsignedInt(y)
    ensures x == y
  {
  }

  /**
   * `getId()`.  Java's `getAddress()` yields 4 bytes for an IPv4 and 16 for an
   * IPv6 address; the code reads bytes 2 and 3, so it needs at least 4.
   */
  function GetId(lookup: HostLookup): (r: Result<int>)
    requires lookup.Address? ==> |lookup.bytes| >= 4
    ensures r.Ok? <==> lookup.Address?
    ensures r.Err? ==> r.error == ConfigurationError
  {
    match lookup
    case UnknownHost => Err(ConfigurationError)
    case Address(a) => Ok(BitOr(Shl(ToUnsignedInt(a[2]), 8, INT), ToUnsignedInt(a[3]), INT))
  }

  /**
   * The id is byte 2 times 256 plus byte 3, both read unsigned; it lies in
   * 0..65535 and gives both bytes back, so it never reaches the sequence bits
   * of an ID.
   */
  lemma GetIdValue(a: seq<JavaByte>)
    requires |a| >= 4
    ensures GetId(Address(a)).Ok?
    ensures GetId(Address(a)).value == ToUnsignedInt(a[2]) * 256 + ToUnsignedInt(a[3])
    ensures 0 <= GetId(Address(a)).value < 0x1_0000
    ensures GetId(Address(a)).value / 256 == ToUnsignedInt(a[2])
    ensures GetId(Address(a)).value % 256 == ToUnsignedInt(a[3])
  {
    Pow2Values();
    var hi, lo := ToUnsignedInt(a[2]), ToUnsignedInt(a[3]);
    ShlExact(hi, 8, INT);
    assert Shl(hi, 8, INT) == hi * Pow2(8);
    BitOrDisjoint(hi, lo, 8, INT);
  }

  /** Bytes 0 and 1 (and any IPv6 bytes past 3) play no part. */
  lemma GetIdUsesOnlyBytes2And3(a: seq<JavaByte>, b: seq<JavaByte>)
    requires |a| >= 4 && |b| >= 4
    requires a[2] == b[2] && a[3] == b[3]
    ensures GetId(Address(a)) == GetId(Address(b))
  {
  }

  /** Addresses whose bytes 2 and 3 differ give different ids. */
  lemma GetIdDistinguishesLowBytes(a: seq<JavaByte>, b: seq<JavaByte>)
    requires |a| >= 4 && |b| >= 4
    requires a[2] != b[2] || a[3] != b[3]
    ensures GetId(Address(a)) != GetId(Address(b))
  {
    GetIdValue(a);
    GetIdValue(b);
    if GetId(Address(a)) == GetId(Address(b)) {
      ToUnsignedIntInjective(a[2], b[2]);
      ToUnsignedIntInjective(a[3], b[3]);
    }
  }

  /** A failed lookup yields a configuration error and no id. */
  lemma GetIdUnknownHost()
    ensures GetId(UnknownHost) == Err(ConfigurationError)
  {
  }

  /**
   * Any address whose bytes 2 and 3 are 0 and 1 gives machine id 1: every
   * IPv4 address ending in .0.1, 127.0.0.1 among them.  Hosts that differ
   * only in their other bytes share a machine id.
   */
  lemma GetIdEndingZeroOne(a: seq<JavaByte>)
    requires |a| >= 4 && a[2] == 0 && a[3] == 1
    ensures GetId(Address(a)) == Ok(1)
  {
    GetIdValue(a);
  }
}
