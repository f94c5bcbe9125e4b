/** The runtime's choices for the bridge: which assets are reserved here and how destinations are read. */
module SygmaRuntime {
  import opened Prelude
  import opened Xcm

  const SYGMA_PARA: u32 := 2004

  const SYGMA: Bytes := [0x73, 0x79, 0x67, 0x6d, 0x61]
  const SYGMA_BRIDGE: Bytes := [0x73, 0x79, 0x67, 0x6d, 0x61, 0x2d, 0x62, 0x72, 0x69, 0x64, 0x67, 0x65]

  /** Bytes padded to a general key. */
  function Key(bytes: Bytes): Junction
    requires |bytes| <= 32
  {
    GeneralKey(|bytes|, bytes + seq(32 - |bytes|, i => 0))
  }

  /** Where an asset originates, as far as the bridge is concerned. */
  function AssetOrigin(asset: MultiAsset): Option<MultiLocation> {
    if asset.id.Concrete? && asset.fun.Fungible? then
      var id := asset.id.location;
      var first := if id.interior == [] then None else Some(id.interior[0]);
      if id.parents == 1 && first.Some? && first.value.Parachain? then
        if first.value.para == SYGMA_PARA then Some(MultiLocation(0, [Key(SYGMA)])) else Some(HERE)
      else if id.parents == 1 then Some(HERE)
      else if id.parents == 0 && first.Some? && first.value.Parachain? then Some(MultiLocation(0, [first.value]))
      else if id.parents == 0 && first.None? then Some(id)
      else None
    else None
  }

  function IsReserve(asset: MultiAsset): bool {
    AssetOrigin(asset) == Some(HERE)
  }

  /** The reserve check depends on the asset's identity, never on the amount being moved. */
  lemma ReserveIgnoresAmount(id: AssetId, a: u128, b: u128)
    ensures IsReserve(MultiAsset(id, Fungible(a))) == IsReserve(MultiAsset(id, Fungible(b)))
  {}

  /** Destination format of the standalone chain: recipient key, then a key whose first byte is the domain. */
  function StandaloneExtractDest(dest: MultiLocation): Option<(Bytes, u8)> {
    if dest.parents == 0 && |dest.interior| == 2 && dest.interior[0].GeneralKey? && dest.interior[1].GeneralKey?
       && dest.interior[0].length <= 32
    then
      var domain := dest.interior[1].data[0];
      if domain == 0 then None else Some((dest.interior[0].data[..dest.interior[0].length], domain))
    else None
  }

  /** Destination format of the parachain: the key `sygma`, the domain as an index, the recipient key. */
  function ParachainExtractDest(dest: MultiLocation): Option<(Bytes, u8)> {
    if dest.parents == 0 && |dest.interior| == 3 && dest.interior[0].GeneralKey? && dest.interior[1].GeneralIndex?
       && dest.interior[2].GeneralKey? && dest.interior[0].length <= 32 && dest.interior[2].length <= 32
       && dest.interior[0].data[..dest.interior[0].length] == SYGMA && dest.interior[1].index < 256
    then Some((dest.interior[2].data[..dest.interior[2].length], dest.interior[1].index))
    else None
  }

  // ---- What they mean

  /** Reserved here are the native asset and every asset from one level up but those of parachain 2004. */
  lemma ReservedHereExactlyWhen(id: MultiLocation, n: u128)
    ensures IsReserve(MultiAsset(Concrete(id), Fungible(n))) <==>
            || id == MultiLocation(0, [])
            || (id.parents == 1 && !([Parachain(2004)] <= id.interior))
  {
    assert [Parachain(2004)] <= id.interior <==> |id.interior| > 0 && id.interior[0] == Parachain(2004);
  }

  lemma NothingElseIsReserved(asset: MultiAsset)
    requires asset.id.Abstract? || asset.fun.NonFungible?
    ensures !IsReserve(asset)
  {}

  /** A destination written for the standalone chain reads back, with any non-zero domain. */
  lemma StandaloneRoundTrip(recipient: Bytes, domain: u8)
    requires |recipient| <= 32 && domain != 0
    ensures StandaloneExtractDest(MultiLocation(0, [Key(recipient), Key([domain])])) == Some((recipient, domain))
  {
    assert Key(recipient).data[..|recipient|] == recipient;
  }

  /** And whatever reads is two keys: the recipient in the first, a non-zero domain in the first byte of the second. */
  lemma StandaloneReads(dest: MultiLocation)
    requires StandaloneExtractDest(dest).Some?
    ensures var (recipient, domain) := StandaloneExtractDest(dest).value;
            && domain != 0 && dest.parents == 0 && |dest.interior| == 2
            && (exists n: u8, data: Bytes32 ::
                  dest.interior[0] == GeneralKey(n, data) && n <= 32 && recipient == data[..n])
            && (exists n: u8, data: Bytes32 :: dest.interior[1] == GeneralKey(n, data) && domain == data[0])
  {
    var first, second := dest.interior[0], dest.interior[1];
    assert first == GeneralKey(first.length, first.data) && second == GeneralKey(second.length, second.data);
  }

  /** A destination written for the parachain reads back, with any domain. */
  lemma ParachainRoundTrip(recipient: Bytes, domain: u8)
    requires |recipient| <= 32
    ensures ParachainExtractDest(MultiLocation(0, [Key(SYGMA), GeneralIndex(domain), Key(recipient)]))
            == Some((recipient, domain))
  {
    assert Key(recipient).data[..|recipient|] == recipient;
    assert Key(SYGMA).data[..|SYGMA|] == SYGMA;
  }

  /** And whatever reads is the key `sygma`, the domain as an index below 256, and the recipient's key. */
  lemma ParachainReads(dest: MultiLocation)
    requires ParachainExtractDest(dest).Some?
    ensures var (recipient, domain) := ParachainExtractDest(dest).value;
            && dest.parents == 0 && |dest.interior| == 3 && dest.interior[1] == GeneralIndex(domain)
            && (exists n: u8, data: Bytes32 :: dest.interior[0] == GeneralKey(n, data) && n <= 32 && data[..n] == SYGMA)
            && (exists n: u8, data: Bytes32 ::
                  dest.interior[2] == GeneralKey(n, data) && n <= 32 && recipient == data[..n])
  {
    var first, third := dest.interior[0], dest.interior[2];
    assert first == GeneralKey(first.length, first.data) && third == GeneralKey(third.length, third.data);
  }
}
