/** Solidity's packed encoding, as far as the bridge's encoder supports it. */
module Packed {
  import opened Prelude
  import opened Words

  /** A 256-bit number as its four 64-bit limbs, least significant first. */
  type Limbs = l: seq<u64> | |l| == 4 witness [0, 0, 0, 0]

  datatype SolidityData =
    | Text(utf8: Bytes)
    | Address(address: Bytes20)
    | Raw(bytes: Bytes)
    | Boolean(flag: bool)
    | Number(number: Limbs)
    | NumberWithShift(shifted: Limbs, takeBits: nat)

  function Value(l: Limbs): nat {
    ((l[3] * TWO_64 + l[2]) * TWO_64 + l[1]) * TWO_64 + l[0]
  }

  /** The packed form of one item. */
  function PackedForm(d: SolidityData): Bytes {
    match d
    case Text(utf8) => utf8
    case Address(address) => address
    case Raw(bytes) => bytes
    case Boolean(flag) => [if flag then 1 else 0]
    case Number(number) => Word(Value(number))
    case NumberWithShift(number, takeBits) =>
      if takeBits / 8 <= 32 then Word(Value(number))[32 - takeBits / 8..] else []
  }

  /** A number splits into the bytes of its high part followed by those of its low part. */
  lemma {:induction false} SplitBigEndian(high: nat, low: nat, m: nat, n: nat)
    requires low < Pow256(n)
    ensures BigEndian(high * Pow256(n) + low, m + n) == BigEndian(high, m) + BigEndian(low, n)
  {
    if n > 0 {
      LastByte(high, Pow256(n - 1), low);
      SplitBigEndian(high, low / 256, m, n - 1);
    }
  }

  lemma LastByte(high: nat, p: nat, low: nat)
    ensures var v := high * (256 * p) + low;
            v >= 0 && v / 256 == high * p + low / 256 && v % 256 == low % 256
  {
    var h := high * p;
    assert high * (256 * p) == 256 * h;
  }

  /** The big-endian limbs, most significant limb first. */
  method LimbBytes(l: Limbs) returns (res: Bytes)
    ensures res == Word(Value(l))
  {
    res := [];
    ghost var high: nat := 0;
    var i := 4;
    while i > 0
      invariant 0 <= i <= 4
      invariant res == BigEndian(high, 8 * (4 - i))
      invariant high == (if i == 4 then 0 else if i == 3 then l[3] else if i == 2 then l[3] * TWO_64 + l[2]
                         else if i == 1 then (l[3] * TWO_64 + l[2]) * TWO_64 + l[1] else Value(l))
    {
      i := i - 1;
      assert Pow256(8) == TWO_64;
      SplitBigEndian(high, l[i], 8 * (3 - i), 8);
      res := res + BigEndian(l[i], 8);
      high := high * TWO_64 + l[i];
    }
  }

  method Pack(d: SolidityData) returns (res: Bytes)
    ensures res == PackedForm(d)
  {
    res := [];
    match d {
      case Text(utf8) => res := res + utf8;
      case Address(address) => res := res + address;
      case Raw(bytes) => res := res + bytes;
      case Boolean(flag) =>
        if flag { res := res + [1]; } else { res := res + [0]; }
      case Number(number) =>
        var bytes := LimbBytes(number);
        res := res + bytes;
      case NumberWithShift(number, takeBits) =>
        var bytes := LimbBytes(number);
        // Past 32 bytes the number of bytes to skip wraps around and skips everything.
        if takeBits / 8 <= |bytes| { res := res + bytes[|bytes| - takeBits / 8..]; }
    }
  }

  function Join(parts: seq<Bytes>): Bytes {
    if parts == [] then [] else Join(parts[..|parts| - 1]) + parts[|parts| - 1]
  }

  function PackedForms(items: seq<SolidityData>): seq<Bytes> {
    seq(|items|, i requires 0 <= i < |items| => PackedForm(items[i]))
  }

  method EncodePacked(items: seq<SolidityData>) returns (res: Bytes)
    ensures res == Join(PackedForms(items))
  {
    var parts: seq<Bytes> := [];
    for i := 0 to |items|
      invariant parts == PackedForms(items[..i])
    {
      var part := Pack(items[i]);
      parts := parts + [part];
    }
    assert items[..|items|] == items;
    res := [];
    for i := 0 to |parts|
      invariant res == Join(parts[..i])
    {
      assert parts[..i + 1][..i] == parts[..i];
      res := res + parts[i];
    }
    assert parts[..|parts|] == parts;
  }

  lemma Parts(v: nat, p: nat) returns (high: nat, low: nat)
    requires p > 0
    ensures v == high * p + low && low < p && low == v % p
  {
    high, low := v / p, v % p;
  }

  /** The last bytes of a number are its remainder by a power of 256. */
  lemma LastBytes(v: nat, n: nat, k: nat)
    requires k <= n
    ensures FromBigEndian(BigEndian(v, n)[n - k..]) == v % Pow256(k)
  {
    var high, low := Parts(v, Pow256(k));
    SplitBigEndian(high, low, n - k, k);
    DecodeEncode(low, k);
  }

  /** The limbs of a number, from the least significant on. */
  lemma LimbsAreLittleEndian(l: Limbs)
    ensures Value(l) % TWO_64 == l[0] && Value(l) / TWO_64 % TWO_64 == l[1]
    ensures Value(l) / TWO_64 / TWO_64 % TWO_64 == l[2] && Value(l) / TWO_64 / TWO_64 / TWO_64 == l[3]
  {}

  lemma ValueFits(l: Limbs)
    ensures Value(l) < TWO_256
  {}

  /** What a packed form reads as: text and bytes themselves, numbers and their low bits in big-endian bytes. */
  lemma PackedMeaning(d: SolidityData)
    ensures var f := PackedForm(d);
            match d
            case Text(utf8) => f == utf8
            case Address(address) => f == address
            case Raw(bytes) => f == bytes
            case Boolean(flag) => |f| == 1 && FromBigEndian(f) == if flag then 1 else 0
            case Number(n) => |f| == 32 && FromBigEndian(f) == Value(n)
            case NumberWithShift(n, bits) =>
              if bits / 8 <= 32 then |f| == bits / 8 && FromBigEndian(f) == Value(n) % Pow256(bits / 8) else f == []
  {
    match d
    case Number(n) =>
      ValueFits(n);
      WordRoundTrip(Value(n));
    case NumberWithShift(n, bits) =>
      if bits / 8 <= 32 { LastBytes(Value(n), 32, bits / 8); }
    case Boolean(flag) =>
      assert PackedForm(d)[..0] == [];
    case _ =>
  }
}
