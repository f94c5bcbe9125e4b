/** The XCM vocabulary the pallets pattern-match on: locations, assets, and where a location points. */
module Xcm {
  import opened Prelude

  /** A 32-byte account identifier, read as a number; only its identity matters. */
  type Account = nat
  type NetworkId = nat

  /** Who makes a call. */
  datatype Origin = Root | Unsigned | Signed(who: Account)

  datatype Junction =
    | Parachain(para: u32)
    | AccountId32(network: Option<NetworkId>, id: Account)
    | AccountKey20(network20: Option<NetworkId>, key: Bytes20)
    | PalletInstance(pallet: u8)
    | GeneralIndex(index: u128)
    | GeneralKey(length: u8, data: Bytes32)
    | OtherJunction(tag: nat)

  datatype MultiLocation = MultiLocation(parents: u8, interior: seq<Junction>)

  datatype AssetId = Concrete(location: MultiLocation) | Abstract(name: Bytes32)

  datatype Fungibility = Fungible(amount: u128) | NonFungible(instance: nat)

  datatype MultiAsset = MultiAsset(id: AssetId, fun: Fungibility)

  const HERE := MultiLocation(0, [])
  const PARENT := MultiLocation(1, [])

  function Sibling(para: u32): MultiLocation {
    MultiLocation(1, [Parachain(para)])
  }

  function AccountLocation(who: Account): MultiLocation {
    MultiLocation(0, [AccountId32(None, who)])
  }

  /** A consensus system or an entity inside one, as a path from the relay chain. */
  type Absolute = seq<Junction>

  /** What `loc` denotes for an observer at `base`; nothing when it climbs above the root. */
  function Resolve(base: Absolute, loc: MultiLocation): Option<Absolute> {
    if loc.parents <= |base| then Some(base[..|base| - loc.parents] + loc.interior) else None
  }

  lemma ResolveInside(base: Absolute, interior: seq<Junction>)
    ensures Resolve(base, MultiLocation(0, interior)) == Some(base + interior)
    ensures Resolve([], MultiLocation(0, interior)) == Some(interior)
  {
    assert base[..|base|] == base;
    assert [] + interior == interior;
  }

  lemma ResolveBeside(base: Absolute, last: Junction, interior: seq<Junction>)
    ensures Resolve(base + [last], MultiLocation(1, interior)) == Some(base + interior)
    ensures Resolve([last], MultiLocation(1, interior)) == Some(interior)
  {
    assert (base + [last])[..|base|] == base;
    assert [] + interior == interior;
  }
}
