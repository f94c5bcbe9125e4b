/** Big-endian words, as produced by `U256::to_big_endian` and read by `U256::from_big_endian`. */
module Words {
  import opened Prelude

  function Pow256(n: nat): (p: nat)
    ensures p > 0
  {
    if n == 0 then 1 else 256 * Pow256(n - 1)
  }

  /** The `n` low-order bytes of `v`, most significant first. */
  function BigEndian(v: nat, n: nat): (b: Bytes)
    ensures |b| == n
  {
    if n == 0 then [] else BigEndian(v / 256, n - 1) + [v % 256]
  }

  function FromBigEndian(b: Bytes): nat {
    if b == [] then 0 else FromBigEndian(b[..|b| - 1]) * 256 + b[|b| - 1]
  }

  /** One 32-byte word. */
  function Word(v: nat): Bytes32 {
    BigEndian(v, 32)
  }

  lemma FromBigEndianOne(b: Bytes, last: u8)
    ensures FromBigEndian(b + [last]) == FromBigEndian(b) * 256 + last
  {
    assert (b + [last])[..|b|] == b;
  }

  lemma {:induction false} DecodeEncode(v: nat, n: nat)
    requires v < Pow256(n)
    ensures FromBigEndian(BigEndian(v, n)) == v
  {
    if n > 0 {
      var high := v / 256;
      assert high < Pow256(n - 1);
      DecodeEncode(high, n - 1);
      FromBigEndianOne(BigEndian(high, n - 1), v % 256);
    }
  }

  lemma {:induction false} EncodeDecode(b: Bytes)
    ensures FromBigEndian(b) < Pow256(|b|)
    ensures BigEndian(FromBigEndian(b), |b|) == b
  {
    if b != [] {
      var init, last := b[..|b| - 1], b[|b| - 1];
      EncodeDecode(init);
      var high := FromBigEndian(init);
      assert (high * 256 + last) / 256 == high && (high * 256 + last) % 256 == last;
      assert b == init + [last];
    }
  }

  lemma Pow256Of32()
    ensures Pow256(16) == TWO_128
    ensures Pow256(32) == TWO_256
  {
    assert Pow256(8) == TWO_64;
    assert Pow256(12) == 0x1_0000_0000_0000_0000_0000_0000;
    assert Pow256(16) == TWO_128;
    assert Pow256(20) == TWO_128 * 0x1_0000_0000;
    assert Pow256(24) == TWO_128 * TWO_64;
    assert Pow256(28) == TWO_128 * 0x1_0000_0000_0000_0000_0000_0000;
  }

  /** Words decode to the number they were built from, and every 32 bytes are the word of their value. */
  lemma WordRoundTrip(v: u256)
    ensures FromBigEndian(Word(v)) == v
  {
    Pow256Of32();
    DecodeEncode(v, 32);
  }

  lemma WordOfValue(b: Bytes32)
    ensures FromBigEndian(b) < TWO_256
    ensures Word(FromBigEndian(b)) == b
  {
    Pow256Of32();
    EncodeDecode(b);
  }

  lemma WordInjective(v: u256, w: u256)
    requires Word(v) == Word(w)
    ensures v == w
  {
    WordRoundTrip(v);
    WordRoundTrip(w);
  }
}
