/** Used nonces as 64-bit words, one bit per nonce. */
module Bitmap {
  import opened Prelude

  type Words = map<(u8, u64), bv64>

  /** A word that was never written is zero. */
  function WordAt(m: Words, d: u8, index: u64): bv64 {
    if (d, index) in m then m[(d, index)] else 0
  }

  function Mask(k: int): bv64
    requires 0 <= k < 64
  {
    (1 as bv64) << (k as bv8)
  }

  predicate TestBit(w: bv64, k: int)
    requires 0 <= k < 64
  {
    w & Mask(k) != 0
  }

  function PutBit(w: bv64, k: int): bv64
    requires 0 <= k < 64
  {
    w | Mask(k)
  }

  predicate IsSet(m: Words, d: u8, n: u64) {
    TestBit(WordAt(m, d, n / 64), n % 64)
  }

  function Set(m: Words, d: u8, n: u64): Words {
    m[(d, n / 64) := PutBit(WordAt(m, d, n / 64), n % 64)]
  }

  lemma PositionIsExact(k: int)
    requires 0 <= k < 64
    ensures (k as bv8) as int == k
  {
    if k < 32 {
    } else {
    }
  }

  lemma PositionIsSmall(k: int)
    requires 0 <= k < 64
    ensures k as bv8 < 64
  {}

  lemma PositionsDiffer(j: int, k: int)
    requires 0 <= j < 64 && 0 <= k < 64 && j != k
    ensures j as bv8 != k as bv8
  {
    PositionIsExact(j);
    PositionIsExact(k);
  }

  lemma OwnBit(w: bv64, k: bv8)
    requires k < 64
    ensures (w | ((1 as bv64) << k)) & ((1 as bv64) << k) != 0
  {}

  lemma OtherBit(w: bv64, j: bv8, k: bv8)
    requires j < 64 && k < 64 && j != k
    ensures (w | ((1 as bv64) << j)) & ((1 as bv64) << k) == w & ((1 as bv64) << k)
  {}

  lemma BitInWord(w: bv64, j: int, k: int)
    requires 0 <= j < 64 && 0 <= k < 64
    ensures (w | Mask(j)) & Mask(k) != 0 <==> w & Mask(k) != 0 || j == k
  {
    PositionIsSmall(j);
    PositionIsSmall(k);
    if j == k {
      OwnBit(w, k as bv8);
    } else {
      PositionsDiffer(j, k);
      OtherBit(w, j as bv8, k as bv8);
    }
  }

  lemma PutThenTest(w: bv64, j: int, k: int)
    requires 0 <= j < 64 && 0 <= k < 64
    ensures TestBit(PutBit(w, j), k) <==> TestBit(w, k) || j == k
  {
    BitInWord(w, j, k);
  }

  lemma WordAfterSet(m: Words, d: u8, n: u64, d': u8, index: u64)
    ensures WordAt(Set(m, d, n), d', index) ==
            if d == d' && n / 64 == index then PutBit(WordAt(m, d, index), n % 64) else WordAt(m, d', index)
  {}

  /** Marking a nonce marks that nonce of that domain and no other. */
  lemma SetMarksExactlyOne(m: Words, d: u8, n: u64, d': u8, n': u64)
    ensures IsSet(Set(m, d, n), d', n') <==> IsSet(m, d', n') || (d == d' && n == n')
  {
    WordAfterSet(m, d, n, d', n' / 64);
    if d == d' && n / 64 == n' / 64 {
      PutThenTest(WordAt(m, d, n / 64), n % 64, n' % 64);
      assert n == n / 64 * 64 + n % 64 && n' == n' / 64 * 64 + n' % 64;
    }
  }

  /** The bitmap and the set agree on one nonce. */
  predicate Agrees(m: Words, used: set<(u8, u64)>, d: u8, n: u64) {
    (d, n) in used <==> IsSet(m, d, n)
  }

  /** The bitmap holds exactly the given nonces. */
  ghost predicate Represents(m: Words, used: set<(u8, u64)>) {
    forall d: u8, n: u64 :: Agrees(m, used, d, n)
  }

  lemma SetAgrees(m: Words, used: set<(u8, u64)>, d: u8, n: u64, d': u8, n': u64)
    requires Agrees(m, used, d', n')
    ensures Agrees(Set(m, d, n), used + {(d, n)}, d', n')
  {
    SetMarksExactlyOne(m, d, n, d', n');
  }

  lemma SetRepresents(m: Words, used: set<(u8, u64)>, d: u8, n: u64)
    requires Represents(m, used)
    ensures Represents(Set(m, d, n), used + {(d, n)})
  {
    forall d': u8, n': u64
      ensures Agrees(Set(m, d, n), used + {(d, n)}, d', n')
    {
      assert Agrees(m, used, d', n');
      SetAgrees(m, used, d, n, d', n');
    }
  }

  /** Bits count from the lowest. */
  lemma BitsCountFromTheLowest()
    ensures Mask(0) == 1 && Mask(1) == 2 && Mask(63) == 0x8000_0000_0000_0000
  {}

  /** Word `index` of a domain holds its nonces from `64 * index` on, bit by bit. */
  lemma WordsHoldTheirNonces(m: Words, used: set<(u8, u64)>, d: u8, index: u64, k: int)
    requires Represents(m, used) && 0 <= k < 64 && 64 * index + k < TWO_64
    ensures (d, 64 * index + k) in used <==> TestBit(WordAt(m, d, index), k)
  {
    var n: u64 := 64 * index + k;
    assert n / 64 == index && n % 64 == k;
    assert Agrees(m, used, d, n);
  }
}
