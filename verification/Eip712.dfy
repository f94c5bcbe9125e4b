/** The typed-data message that the relayers sign for a list of proposals. */
module Eip712 {
  import opened Prelude
  import opened Words
  import opened Packed

  type DomainId = u8
  type Nonce = u64
  type ResourceId = Bytes32

  datatype Proposal = Proposal(origin: DomainId, nonce: Nonce, resource: ResourceId, data: Bytes)

  datatype Domain = Domain(name: Bytes, version: Bytes, chainId: u256, contract: Bytes20, salt: Option<Bytes32>)

  /** The hash function; nothing is known about it except the width of its digests. */
  type Keccak = Bytes -> Bytes32

  const DOMAIN_TYPE_HASH: Bytes32 := [
    139, 115, 195, 198, 155, 184, 254, 61, 81, 46, 204, 76, 247, 89, 204, 121, 35, 159, 123, 23,
    155, 15, 250, 202, 169, 167, 93, 82, 43, 57, 64, 15]

  const DOMAIN_TYPE_HASH_WITH_SALT: Bytes32 := [
    216, 124, 214, 239, 121, 212, 226, 185, 94, 21, 206, 138, 191, 115, 45, 181, 30, 199, 113, 241,
    202, 46, 220, 207, 34, 164, 108, 114, 154, 197, 100, 114]

  function Ascii(s: string): Bytes {
    seq(|s|, i requires 0 <= i < |s| => s[i] as int % 256)
  }

  const PROPOSAL_TYPE := "Proposal(uint8 originDomainID,uint64 depositNonce,bytes32 resourceID,bytes data)"
  const PROPOSALS_TYPE := "Proposals(Proposal[] proposals)" + PROPOSAL_TYPE

  const TYPED_DATA_PREFIX: Bytes := [0x19, 0x01]

  // ---- The message as EIP-712 defines it: hashStruct(s) = keccak(typeHash ++ encodeData(s)).

  function ProposalPreimage(h: Keccak, p: Proposal): Bytes {
    h(Ascii(PROPOSAL_TYPE)) + Word(p.origin) + Word(p.nonce) + p.resource + h(p.data)
  }

  function ProposalHashes(h: Keccak, ps: seq<Proposal>): (r: seq<Bytes32>)
    ensures |r| == |ps|
    ensures forall i :: 0 <= i < |ps| ==> r[i] == h(ProposalPreimage(h, ps[i]))
  {
    if ps == [] then []
    else ProposalHashes(h, ps[..|ps| - 1]) + [h(ProposalPreimage(h, ps[|ps| - 1]))]
  }

  function Flatten(digests: seq<Bytes32>): Bytes {
    if digests == [] then [] else Flatten(digests[..|digests| - 1]) + digests[|digests| - 1]
  }

  function ProposalsPreimage(h: Keccak, ps: seq<Proposal>): Bytes {
    h(Ascii(PROPOSALS_TYPE)) + h(Flatten(ProposalHashes(h, ps)))
  }

  function PaddedAddress(a: Bytes20): Bytes32 {
    seq(12, i => 0) + a
  }

  function SeparatorPreimage(h: Keccak, d: Domain): Bytes {
    (if d.salt.Some? then DOMAIN_TYPE_HASH_WITH_SALT else DOMAIN_TYPE_HASH)
    + h(d.name) + h(d.version) + Word(d.chainId) + PaddedAddress(d.contract)
    + if d.salt.Some? then d.salt.value else []
  }

  function MessagePreimage(h: Keccak, d: Domain, ps: seq<Proposal>): Bytes {
    TYPED_DATA_PREFIX + h(SeparatorPreimage(h, d)) + h(ProposalsPreimage(h, ps))
  }

  /** The signed message; the empty list has no message and gets the zero digest. */
  function SigningMessage(h: Keccak, d: Domain, ps: seq<Proposal>): Bytes32 {
    if ps == [] then seq(32, i => 0) else h(MessagePreimage(h, d, ps))
  }

  // ---- The same message as the pallet computes it, through ABI tokens.

  datatype Token = Uint(value: u256) | FixedBytes(bytes: Bytes) | AddressToken(address: Bytes20)

  /** All the tokens used are static: each fills whole words, and the encoding is their concatenation. */
  function EncodeToken(t: Token): Bytes {
    match t
    case Uint(v) => Word(v)
    case FixedBytes(b) => b + seq((32 - |b| % 32) % 32, i => 0)
    case AddressToken(a) => PaddedAddress(a)
  }

  method AbiEncode(tokens: seq<Token>) returns (res: Bytes)
    ensures res == Join(seq(|tokens|, i requires 0 <= i < |tokens| => EncodeToken(tokens[i])))
  {
    res := [];
    for i := 0 to |tokens|
      invariant res == Join(seq(i, j requires 0 <= j < i => EncodeToken(tokens[j])))
    {
      ghost var next := seq(i + 1, j requires 0 <= j < i + 1 => EncodeToken(tokens[j]));
      assert next[..i] == seq(i, j requires 0 <= j < i => EncodeToken(tokens[j]));
      res := res + EncodeToken(tokens[i]);
    }
  }

  lemma JoinFive(a: Bytes, b: Bytes, c: Bytes, d: Bytes, e: Bytes)
    ensures Join([a, b, c, d, e]) == a + b + c + d + e
  {
    assert [a, b, c, d, e][..4] == [a, b, c, d];
    JoinThree(a, b, c);
    assert [a, b, c, d][..3] == [a, b, c];
  }

  lemma JoinThree(a: Bytes, b: Bytes, c: Bytes)
    ensures Join([a]) == a
    ensures Join([a, b]) == a + b
    ensures Join([a, b, c]) == a + b + c
  {
    assert [a][..0] == [];
    assert Join([a]) == a;
    assert [a, b][..1] == [a];
    assert Join([a, b]) == a + b;
    assert [a, b, c][..2] == [a, b];
  }

  /** Tokens fill whole words: numbers and addresses from the right, bytes from the left. */
  lemma TokensFillWords(t: Token)
    ensures |EncodeToken(t)| % 32 == 0
    ensures match t
            case Uint(v) => |EncodeToken(t)| == 32 && FromBigEndian(EncodeToken(t)) == v
            case FixedBytes(b) =>
              b <= EncodeToken(t) && forall i :: |b| <= i < |EncodeToken(t)| ==> EncodeToken(t)[i] == 0
            case AddressToken(a) => |EncodeToken(t)| == 32 && EncodeToken(t)[12..] == a
  {
    if t.Uint? { WordRoundTrip(t.value); }
  }

  lemma WholeWord(b: Bytes32)
    ensures EncodeToken(FixedBytes(b)) == b
  {
    assert EncodeToken(FixedBytes(b)) == b;
  }

  method Separator(h: Keccak, d: Domain) returns (r: Bytes32)
    ensures r == h(SeparatorPreimage(h, d))
  {
    var typeHash := if d.salt.Some? then DOMAIN_TYPE_HASH_WITH_SALT else DOMAIN_TYPE_HASH;
    WordOfValue(typeHash);
    WordOfValue(h(d.name));
    WordOfValue(h(d.version));
    var tokens := [Uint(FromBigEndian(typeHash)), Uint(FromBigEndian(h(d.name))),
                   Uint(FromBigEndian(h(d.version))), Uint(d.chainId), AddressToken(d.contract)];
    ghost var five := [typeHash, h(d.name), h(d.version), Word(d.chainId), PaddedAddress(d.contract)];
    JoinFive(five[0], five[1], five[2], five[3], five[4]);
    if d.salt.Some? {
      WordOfValue(d.salt.value);
      tokens := tokens + [Uint(FromBigEndian(d.salt.value))];
      ghost var six: seq<Bytes> := five + [d.salt.value];
      assert six[..5] == five;
      assert seq(6, i requires 0 <= i < 6 => EncodeToken(tokens[i])) == six;
    } else {
      assert seq(5, i requires 0 <= i < 5 => EncodeToken(tokens[i])) == five;
    }
    var encoded := AbiEncode(tokens);
    assert encoded == SeparatorPreimage(h, d);
    r := h(encoded);
  }

  method HashProposal(h: Keccak, typeHash: Bytes32, p: Proposal) returns (r: Bytes32)
    ensures typeHash == h(Ascii(PROPOSAL_TYPE)) ==> r == h(ProposalPreimage(h, p))
  {
    var tokens := [FixedBytes(typeHash), Uint(p.origin), Uint(p.nonce), FixedBytes(p.resource), FixedBytes(h(p.data))];
    var encoded := AbiEncode(tokens);
    ghost var five := [typeHash, Word(p.origin), Word(p.nonce), p.resource, h(p.data)];
    WholeWord(typeHash);
    WholeWord(p.resource);
    WholeWord(h(p.data));
    assert seq(5, i requires 0 <= i < 5 => EncodeToken(tokens[i])) == five;
    JoinFive(five[0], five[1], five[2], five[3], five[4]);
    r := h(encoded);
  }

  /** The digests of all proposals, one after the other. */
  method HashProposals(h: Keccak, typeHash: Bytes32, ps: seq<Proposal>) returns (flat: Bytes)
    requires typeHash == h(Ascii(PROPOSAL_TYPE))
    ensures flat == Flatten(ProposalHashes(h, ps))
  {
    var digests: seq<Bytes32> := [];
    for i := 0 to |ps|
      invariant digests == ProposalHashes(h, ps[..i])
    {
      var digest := HashProposal(h, typeHash, ps[i]);
      assert ps[..i + 1][..i] == ps[..i];
      digests := digests + [digest];
    }
    assert ps[..|ps|] == ps;
    flat := [];
    for i := 0 to |digests|
      invariant flat == Flatten(digests[..i])
    {
      assert digests[..i + 1][..i] == digests[..i];
      flat := flat + digests[i];
    }
    assert digests[..|digests|] == digests;
  }

  method HashList(h: Keccak, typeHash: Bytes32, flat: Bytes) returns (r: Bytes32)
    ensures r == h(typeHash + h(flat))
  {
    var packed := EncodePacked([Raw(flat)]);
    JoinThree(flat, flat, flat);
    assert PackedForms([Raw(flat)]) == [flat];
    var listHash := h(packed);
    var tokens := [FixedBytes(typeHash), FixedBytes(listHash)];
    var encoded := AbiEncode(tokens);
    WholeWord(typeHash);
    WholeWord(listHash);
    assert seq(2, i requires 0 <= i < 2 => EncodeToken(tokens[i])) == [typeHash, listHash];
    JoinThree(typeHash, listHash, []);
    r := h(encoded);
  }

  method ConstructSigningMessage(h: Keccak, d: Domain, ps: seq<Proposal>) returns (r: Bytes32)
    ensures r == SigningMessage(h, d, ps)
  {
    if ps == [] {
      return seq(32, i => 0);
    }
    var flat := HashProposals(h, h(Ascii(PROPOSAL_TYPE)), ps);
    var structHash := HashList(h, h(Ascii(PROPOSALS_TYPE)), flat);
    var separator := Separator(h, d);
    var items := [Text(TYPED_DATA_PREFIX), Raw(separator), Raw(structHash)];
    var packed := EncodePacked(items);
    JoinThree(TYPED_DATA_PREFIX, separator, structHash);
    assert PackedForms(items) == [TYPED_DATA_PREFIX, separator, structHash];
    r := h(packed);
  }

  // ---- Binding: equal messages come from equal inputs, or exhibit a collision of the hash.

  ghost predicate Collision(h: Keccak, x: Bytes, y: Bytes) {
    x != y && h(x) == h(y)
  }

  lemma Aligned(a: Bytes, b: Bytes, x: Bytes, y: Bytes)
    requires |a| == |b| && a + x == b + y
    ensures a == b && x == y
  {
    assert (a + x)[..|a|] == a && (a + x)[|a|..] == x;
    assert (b + y)[..|b|] == b && (b + y)[|b|..] == y;
  }

  lemma {:induction false} FlattenInjective(xs: seq<Bytes32>, ys: seq<Bytes32>)
    requires Flatten(xs) == Flatten(ys)
    ensures xs == ys
  {
    FlattenLength(xs);
    FlattenLength(ys);
    if xs != [] {
      var i := |xs| - 1;
      FlattenLength(xs[..i]);
      FlattenLength(ys[..i]);
      Aligned(Flatten(xs[..i]), Flatten(ys[..i]), xs[i], ys[i]);
      FlattenInjective(xs[..i], ys[..i]);
      assert xs == xs[..i] + [xs[i]] && ys == ys[..i] + [ys[i]];
    }
  }

  lemma {:induction false} FlattenLength(xs: seq<Bytes32>)
    ensures |Flatten(xs)| == 32 * |xs|
  {
    if xs != [] { FlattenLength(xs[..|xs| - 1]); }
  }

  /** Two domains with one separator agree in every field, salt included. */
  lemma SeparatorBinds(h: Keccak, c: Domain, d: Domain) returns (x: Bytes, y: Bytes)
    requires h(SeparatorPreimage(h, c)) == h(SeparatorPreimage(h, d))
    ensures c == d || Collision(h, x, y)
  {
    x, y := SeparatorPreimage(h, c), SeparatorPreimage(h, d);
    if x == y {
      assert c.salt.Some? == d.salt.Some?;
      SeparatorFields(h, c, d);
      if c.name != d.name {
        x, y := c.name, d.name;
      } else if c.version != d.version {
        x, y := c.version, d.version;
      }
    }
  }

  lemma SeparatorFields(h: Keccak, c: Domain, d: Domain)
    requires SeparatorPreimage(h, c) == SeparatorPreimage(h, d)
    ensures h(c.name) == h(d.name) && h(c.version) == h(d.version)
    ensures c.chainId == d.chainId && c.contract == d.contract && c.salt == d.salt
  {
    SeparatorParts(h, c);
    SeparatorParts(h, d);
    WordInjective(c.chainId, d.chainId);
  }

  /** Where each field of a domain sits in what is hashed for it. */
  lemma SeparatorParts(h: Keccak, d: Domain)
    ensures var x := SeparatorPreimage(h, d);
            && |x| == 160 + (if d.salt.Some? then 32 else 0)
            && x[32..64] == h(d.name) && x[64..96] == h(d.version)
            && x[96..128] == Word(d.chainId) && x[140..160] == d.contract
            && (d.salt.Some? ==> x[160..] == d.salt.value)
  {}

  lemma ProposalBinds(h: Keccak, p: Proposal, q: Proposal) returns (x: Bytes, y: Bytes)
    requires h(ProposalPreimage(h, p)) == h(ProposalPreimage(h, q))
    ensures p == q || Collision(h, x, y)
  {
    x, y := ProposalPreimage(h, p), ProposalPreimage(h, q);
    if x == y {
      assert x[32..64] == Word(p.origin) && y[32..64] == Word(q.origin);
      assert x[64..96] == Word(p.nonce) && y[64..96] == Word(q.nonce);
      assert x[96..128] == p.resource && y[96..128] == q.resource;
      assert x[128..] == h(p.data) && y[128..] == h(q.data);
      WordInjective(p.origin, q.origin);
      WordInjective(p.nonce, q.nonce);
      x, y := p.data, q.data;
    }
  }

  lemma {:induction false} ProposalListBinds(h: Keccak, ps: seq<Proposal>, qs: seq<Proposal>)
    returns (x: Bytes, y: Bytes)
    requires ProposalHashes(h, ps) == ProposalHashes(h, qs)
    ensures ps == qs || Collision(h, x, y)
  {
    x, y := [], [];
    assert |ps| == |ProposalHashes(h, ps)| == |qs|;
    if ps != qs {
      var i :| 0 <= i < |ps| && ps[i] != qs[i];
      assert ProposalHashes(h, ps)[i] == ProposalHashes(h, qs)[i];
      x, y := ProposalBinds(h, ps[i], qs[i]);
    }
  }

  /**
   * One signature authorises one thing: equal messages for non-empty lists mean the same domain and
   * the same proposals field by field, or the hash has collided on two byte strings that are returned.
   */
  lemma SigningMessageBinds(h: Keccak, c: Domain, ps: seq<Proposal>, d: Domain, qs: seq<Proposal>)
    returns (x: Bytes, y: Bytes)
    requires ps != [] && qs != []
    requires SigningMessage(h, c, ps) == SigningMessage(h, d, qs)
    ensures (c == d && ps == qs) || Collision(h, x, y)
  {
    x, y := MessagePreimage(h, c, ps), MessagePreimage(h, d, qs);
    if x == y {
      assert x[2..34] == h(SeparatorPreimage(h, c)) && y[2..34] == h(SeparatorPreimage(h, d));
      assert x[34..] == h(ProposalsPreimage(h, ps)) && y[34..] == h(ProposalsPreimage(h, qs));
      if c != d {
        x, y := SeparatorBinds(h, c, d);
        return;
      }
      x, y := ProposalsPreimage(h, ps), ProposalsPreimage(h, qs);
      if x == y {
        assert x[32..] == h(Flatten(ProposalHashes(h, ps))) && y[32..] == h(Flatten(ProposalHashes(h, qs)));
        x, y := Flatten(ProposalHashes(h, ps)), Flatten(ProposalHashes(h, qs));
        if x == y {
          FlattenInjective(ProposalHashes(h, ps), ProposalHashes(h, qs));
          x, y := ProposalListBinds(h, ps, qs);
        }
      }
    }
  }
}
