/**
 * Typed data as EIP-712 defines it, for any struct: "Definition of hashStruct", "Definition of encodeType",
 * "Definition of encodeData" and "Definition of domainSeparator".
 */
module TypedData {
  import opened Prelude
  import opened Words
  import opened Packed
  import opened Eip712

  /** A member's value; an array of structs comes as the hashes of its elements. */
  datatype Value =
    | UintOf(bits: nat, number: u256)
    | AddressOf(account: Bytes20)
    | Bytes32Of(word: Bytes32)
    | BytesOf(content: Bytes)
    | StringOf(utf8: Bytes)
    | StructsOf(element: string, hashes: seq<Bytes32>)

  datatype Member = Member(name: string, value: Value)

  function Decimal(n: nat): string {
    if n < 10 then [Digit(n)] else Decimal(n / 10) + [Digit(n % 10)]
  }

  function Digit(n: nat): char
    requires n < 10
  {
    "0123456789"[n]
  }

  function TypeName(v: Value): string {
    match v
    case UintOf(bits, _) => "uint" + Decimal(bits)
    case AddressOf(_) => "address"
    case Bytes32Of(_) => "bytes32"
    case BytesOf(_) => "bytes"
    case StringOf(_) => "string"
    case StructsOf(element, _) => element + "[]"
  }

  function Declared(m: Member): string {
    TypeName(m.value) + " " + m.name
  }

  function DeclaredAll(members: seq<Member>): string {
    if members == [] then ""
    else if |members| == 1 then Declared(members[0])
    else DeclaredAll(members[..|members| - 1]) + "," + Declared(members[|members| - 1])
  }

  function EncodeType(name: string, members: seq<Member>): string {
    name + "(" + DeclaredAll(members) + ")"
  }

  /** Atomic values are words, dynamic ones are hashed, and arrays are the hash of their elements put together. */
  function EncodeValue(h: Keccak, v: Value): Bytes {
    match v
    case UintOf(_, number) => Word(number)
    case AddressOf(account) => Word(FromBigEndian(account))
    case Bytes32Of(word) => word
    case BytesOf(content) => h(content)
    case StringOf(utf8) => h(utf8)
    case StructsOf(_, hashes) => h(Join(hashes))
  }

  function EncodeData(h: Keccak, members: seq<Member>): Bytes {
    if members == [] then []
    else EncodeData(h, members[..|members| - 1]) + EncodeValue(h, members[|members| - 1].value)
  }

  /** What is hashed for a struct, given its type with the types it refers to. */
  function StructPreimage(h: Keccak, typeOf: string, members: seq<Member>): Bytes {
    h(Ascii(typeOf)) + EncodeData(h, members)
  }

  // ---- The bridge's structs

  function ProposalMembers(p: Proposal): seq<Member> {
    [Member("originDomainID", UintOf(8, p.origin)), Member("depositNonce", UintOf(64, p.nonce)),
     Member("resourceID", Bytes32Of(p.resource)), Member("data", BytesOf(p.data))]
  }

  function ListMembers(hashes: seq<Bytes32>): seq<Member> {
    [Member("proposals", StructsOf("Proposal", hashes))]
  }

  function DomainMembers(d: Domain): seq<Member> {
    [Member("name", StringOf(d.name)), Member("version", StringOf(d.version)),
     Member("chainId", UintOf(256, d.chainId)), Member("verifyingContract", AddressOf(d.contract))]
    + if d.salt.Some? then [Member("salt", Bytes32Of(d.salt.value))] else []
  }

  lemma EncodeOne(h: Keccak, members: seq<Member>, m: Member)
    ensures EncodeData(h, members + [m]) == EncodeData(h, members) + EncodeValue(h, m.value)
  {
    assert (members + [m])[..|members|] == members;
  }

  lemma EncodeTwo(h: Keccak, a: Member, b: Member)
    ensures EncodeData(h, [a, b]) == EncodeValue(h, a.value) + EncodeValue(h, b.value)
  {
    assert [a, b] == [] + [a] + [b];
    EncodeOne(h, [], a);
    EncodeOne(h, [] + [a], b);
    assert EncodeData(h, []) == [];
  }

  lemma EncodeFour(h: Keccak, a: Member, b: Member, c: Member, d: Member)
    ensures EncodeData(h, [a, b, c, d])
            == EncodeValue(h, a.value) + EncodeValue(h, b.value) + EncodeValue(h, c.value) + EncodeValue(h, d.value)
  {
    EncodeTwo(h, a, b);
    EncodeOne(h, [a, b], c);
    EncodeOne(h, [a, b] + [c], d);
    assert [a, b, c, d] == [a, b] + [c] + [d];
  }

  lemma Regrouped(t: Bytes, a: Bytes, b: Bytes, c: Bytes, d: Bytes, e: Bytes)
    ensures t + a + b + c + d == t + (a + b + c + d)
    ensures t + a + b + c + d + e == t + (a + b + c + d + e)
  {
    assert (a + b + c + d) + e == a + b + c + d + e;
  }

  /** Where each field of a proposal sits in what is hashed for it. */
  lemma ProposalLayout(h: Keccak, p: Proposal)
    ensures var x := ProposalPreimage(h, p);
            && |x| == 160 && x[..32] == h(Ascii(PROPOSAL_TYPE))
            && FromBigEndian(x[32..64]) == p.origin && FromBigEndian(x[64..96]) == p.nonce
            && x[96..128] == p.resource && x[128..] == h(p.data)
  {
    var x := ProposalPreimage(h, p);
    assert x[32..64] == Word(p.origin) && x[64..96] == Word(p.nonce);
    WordRoundTrip(p.origin);
    WordRoundTrip(p.nonce);
  }

  /** A proposal's data: each field in the place its name has in the type. */
  lemma ProposalData(h: Keccak, p: Proposal)
    ensures ProposalPreimage(h, p) == StructPreimage(h, PROPOSAL_TYPE, ProposalMembers(p))
  {
    var ms := ProposalMembers(p);
    EncodeFour(h, ms[0], ms[1], ms[2], ms[3]);
    Regrouped(h(Ascii(PROPOSAL_TYPE)), Word(p.origin), Word(p.nonce), p.resource, h(p.data), []);
  }

  lemma {:induction false} FlattenIsJoin(digests: seq<Bytes32>)
    ensures Flatten(digests) == Join(digests)
  {
    if digests != [] { FlattenIsJoin(digests[..|digests| - 1]); }
  }

  lemma ListData(h: Keccak, hashes: seq<Bytes32>)
    ensures h(Ascii(PROPOSALS_TYPE)) + h(Flatten(hashes)) == StructPreimage(h, PROPOSALS_TYPE, ListMembers(hashes))
  {
    FlattenIsJoin(hashes);
    EncodeOne(h, [], ListMembers(hashes)[0]);
    assert [] + [ListMembers(hashes)[0]] == ListMembers(hashes);
  }

  lemma AddressWord(a: Bytes20)
    ensures PaddedAddress(a) == Word(FromBigEndian(a))
  {
    EncodeDecode(a);
    SplitBigEndian(0, FromBigEndian(a), 12, 20);
    Zeros(12);
  }

  lemma {:induction false} Zeros(n: nat)
    ensures BigEndian(0, n) == seq(n, i => 0)
  {
    if n > 0 { Zeros(n - 1); }
  }

  lemma DomainData(h: Keccak, d: Domain)
    ensures SeparatorPreimage(h, d)
            == (if d.salt.Some? then DOMAIN_TYPE_HASH_WITH_SALT else DOMAIN_TYPE_HASH) + EncodeData(h, DomainMembers(d))
  {
    var ms := [Member("name", StringOf(d.name)), Member("version", StringOf(d.version)),
               Member("chainId", UintOf(256, d.chainId)), Member("verifyingContract", AddressOf(d.contract))];
    AddressWord(d.contract);
    EncodeFour(h, ms[0], ms[1], ms[2], ms[3]);
    if d.salt.Some? {
      EncodeOne(h, ms, Member("salt", Bytes32Of(d.salt.value)));
      Regrouped(DOMAIN_TYPE_HASH_WITH_SALT, h(d.name), h(d.version), Word(d.chainId), PaddedAddress(d.contract),
                d.salt.value);
    } else {
      assert DomainMembers(d) == ms;
      Regrouped(DOMAIN_TYPE_HASH, h(d.name), h(d.version), Word(d.chainId), PaddedAddress(d.contract), []);
    }
  }

  // ---- The types are spelt as the members are declared

  lemma TwoDigits()
    ensures Decimal(8) == "8" && Decimal(64) == "64" && Decimal(256) == "256"
  {
    assert Decimal(6) == "6" && Decimal(25) == "25";
  }

  lemma ProposalDeclarations(p: Proposal)
    ensures var ms := ProposalMembers(p);
            && Declared(ms[0]) == "uint8 originDomainID" && Declared(ms[1]) == "uint64 depositNonce"
            && Declared(ms[2]) == "bytes32 resourceID" && Declared(ms[3]) == "bytes data"
  {
    TwoDigits();
    assert "uint" + "8" == "uint8" && "uint" + "64" == "uint64";
    assert "uint8" + " " + "originDomainID" == "uint8 originDomainID";
    assert "uint64" + " " + "depositNonce" == "uint64 depositNonce";
    assert "bytes32" + " " + "resourceID" == "bytes32 resourceID";
    assert "bytes" + " " + "data" == "bytes data";
  }

  lemma DeclaredFour(a: Member, b: Member, c: Member, d: Member)
    ensures DeclaredAll([a, b, c, d])
            == Declared(a) + "," + Declared(b) + "," + Declared(c) + "," + Declared(d)
  {
    assert [a, b, c, d][..3] == [a, b, c] && [a, b, c][..2] == [a, b] && [a, b][..1] == [a];
    assert DeclaredAll([a, b]) == Declared(a) + "," + Declared(b);
    assert DeclaredAll([a, b, c]) == Declared(a) + "," + Declared(b) + "," + Declared(c);
  }

  lemma ProposalSpellingStarts()
    ensures "Proposal" + "(" + "uint8 originDomainID" == "Proposal(uint8 originDomainID"
  {}

  lemma ProposalSpelling()
    ensures "Proposal" + "(" + "uint8 originDomainID" + "," + "uint64 depositNonce"
            == "Proposal(uint8 originDomainID,uint64 depositNonce"
  {
    ProposalSpellingStarts();
    assert "Proposal(uint8 originDomainID" + "," == "Proposal(uint8 originDomainID,";
  }

  lemma ProposalSpellingEnds()
    ensures "Proposal(uint8 originDomainID,uint64 depositNonce" + "," + "bytes32 resourceID" + "," + "bytes data" + ")"
            == PROPOSAL_TYPE
  {
    assert "Proposal(uint8 originDomainID,uint64 depositNonce" + "," + "bytes32 resourceID"
           == "Proposal(uint8 originDomainID,uint64 depositNonce,bytes32 resourceID";
    assert "Proposal(uint8 originDomainID,uint64 depositNonce,bytes32 resourceID" + "," + "bytes data"
           == "Proposal(uint8 originDomainID,uint64 depositNonce,bytes32 resourceID,bytes data";
  }

  /** Strings read the same however they are put together. */
  lemma Unbracket(n: string, a: string, b: string, c: string, d: string, z: string)
    ensures n + (a + "," + b + "," + c + "," + d) + z == n + a + "," + b + "," + c + "," + d + z
  {
    assert n + (a + "," + b) == n + a + "," + b;
    assert n + (a + "," + b + "," + c) == n + (a + "," + b) + "," + c;
    assert n + (a + "," + b + "," + c + "," + d) == n + (a + "," + b + "," + c) + "," + d;
  }

  /** The type of a proposal is its members' declarations, in the order in which their data is encoded. */
  lemma ProposalTypeIsDeclared(p: Proposal)
    ensures EncodeType("Proposal", ProposalMembers(p)) == PROPOSAL_TYPE
  {
    var ms := ProposalMembers(p);
    ProposalDeclarations(p);
    DeclaredFour(ms[0], ms[1], ms[2], ms[3]);
    Unbracket("Proposal" + "(", Declared(ms[0]), Declared(ms[1]), Declared(ms[2]), Declared(ms[3]), ")");
    ProposalSpelling();
    ProposalSpellingEnds();
  }

  /** And the type of a list is its one member's declaration, followed by the type it refers to. */
  lemma ListTypeIsDeclared(hashes: seq<Bytes32>, p: Proposal)
    ensures EncodeType("Proposals", ListMembers(hashes)) + EncodeType("Proposal", ProposalMembers(p)) == PROPOSALS_TYPE
  {
    ProposalTypeIsDeclared(p);
    assert Declared(ListMembers(hashes)[0]) == "Proposal[] proposals";
    assert "Proposals" + "(" + "Proposal[] proposals" + ")" == "Proposals(Proposal[] proposals)";
  }

  /** The domain's type hashes to the constant that is used in its place. */
  ghost predicate KnowsDomainType(h: Keccak, d: Domain) {
    h(Ascii(EncodeType("EIP712Domain", DomainMembers(d))))
    == if d.salt.Some? then DOMAIN_TYPE_HASH_WITH_SALT else DOMAIN_TYPE_HASH
  }

  function ProposalHash(h: Keccak, p: Proposal): Bytes32 {
    h(StructPreimage(h, EncodeType("Proposal", ProposalMembers(p)), ProposalMembers(p)))
  }

  function StructHashes(h: Keccak, ps: seq<Proposal>): seq<Bytes32> {
    if ps == [] then [] else StructHashes(h, ps[..|ps| - 1]) + [ProposalHash(h, ps[|ps| - 1])]
  }

  /** What a wallet signs for a non-empty list of proposals under a domain. */
  function Digest(h: Keccak, d: Domain, ps: seq<Proposal>): Bytes32
    requires ps != []
  {
    var hashes := StructHashes(h, ps);
    var listType := EncodeType("Proposals", ListMembers(hashes)) + EncodeType("Proposal", ProposalMembers(ps[0]));
    h([0x19, 0x01]
      + h(StructPreimage(h, EncodeType("EIP712Domain", DomainMembers(d)), DomainMembers(d)))
      + h(StructPreimage(h, listType, ListMembers(hashes))))
  }

  lemma ProposalHashIsTyped(h: Keccak, p: Proposal)
    ensures ProposalHash(h, p) == h(ProposalPreimage(h, p))
  {
    ProposalTypeIsDeclared(p);
    ProposalData(h, p);
  }

  lemma {:induction false} HashesAreTyped(h: Keccak, ps: seq<Proposal>)
    ensures StructHashes(h, ps) == ProposalHashes(h, ps)
  {
    if ps != [] {
      HashesAreTyped(h, ps[..|ps| - 1]);
      ProposalHashIsTyped(h, ps[|ps| - 1]);
    }
  }

  /**
   * The pallet's message is the typed-data digest of its proposals, member by member as the types declare them; without
   * proposals it is the zero word.
   */
  lemma SigningMessageIsTypedData(h: Keccak, d: Domain, ps: seq<Proposal>)
    requires KnowsDomainType(h, d)
    ensures SigningMessage(h, d, ps) == if ps == [] then Word(0) else Digest(h, d, ps)
  {
    if ps == [] {
      Zeros(32);
    } else {
      ListIsTypedData(h, d, ps);
    }
  }

  lemma ListIsTypedData(h: Keccak, d: Domain, ps: seq<Proposal>)
    requires ps != [] && KnowsDomainType(h, d)
    ensures SigningMessage(h, d, ps) == Digest(h, d, ps)
  {
    HashesAreTyped(h, ps);
    ListTypeIsDeclared(ProposalHashes(h, ps), ps[0]);
    ListData(h, ProposalHashes(h, ps));
    DomainData(h, d);
  }
}
