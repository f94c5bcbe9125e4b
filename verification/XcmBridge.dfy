/** Building the XCM program that carries an asset to a location on another chain. */
module XcmBridge {
  import opened Prelude
  import opened Xcm

  datatype Instruction =
    | TransferReserveAsset(transferred: seq<MultiAsset>, dest: MultiLocation, onDest: seq<Instruction>)
    | WithdrawAsset(withdrawn: seq<MultiAsset>)
    | InitiateReserveWithdraw(reserve: MultiLocation, onReserve: seq<Instruction>)
    | DepositReserveAsset(maxAssets: nat, next: MultiLocation, onNext: seq<Instruction>)
    | BuyExecution(fees: MultiAsset, weight: nat)
    | DepositAsset(maxDeposits: nat, beneficiary: MultiLocation)

  datatype TransferKind = SelfReserveAsset | ToReserve | ToNonReserve

  datatype XcmError =
    | InvalidDestination | CannotReanchor | NoXcmMinFeeSet | AssetReservedLocationNotFound | XcmExecutionFailed

  /** `reanchor(id, at)` names the asset as seen from `at`; library code that may refuse, and never sees the amount. */
  datatype XcmConfig = XcmConfig(
    isNative: MultiAsset -> bool,
    reanchor: (AssetId, MultiLocation) -> Option<AssetId>,
    minFees: seq<(AssetId, u128)>)

  /** The chain that holds the reserve of an asset, seen from here. */
  function ReservedLocation(asset: MultiAsset): Option<MultiLocation> {
    if asset.id.Concrete? && asset.fun.Fungible? then
      var id := asset.id.location;
      if id.parents == 1 then
        if |id.interior| > 0 && id.interior[0].Parachain? then Some(Sibling(id.interior[0].para)) else Some(PARENT)
      else if id.parents == 0 && |id.interior| > 0 && id.interior[0].Parachain? then
        Some(MultiLocation(0, [id.interior[0]]))
      else if id == HERE then Some(id)
      else None
    else None
  }

  /** The chain part and the recipient part of a destination. */
  function ExtractDest(dest: MultiLocation): Option<(MultiLocation, MultiLocation)> {
    if dest.parents != 1 then None
    else if |dest.interior| > 0 && dest.interior[0].Parachain? then
      Some((Sibling(dest.interior[0].para), MultiLocation(0, dest.interior[1..])))
    else Some((PARENT, MultiLocation(0, dest.interior)))
  }

  function KindOf(cfg: XcmConfig, asset: MultiAsset, reserve: MultiLocation, dest: MultiLocation): TransferKind {
    if cfg.isNative(asset) then SelfReserveAsset
    else if reserve == dest then ToReserve
    else ToNonReserve
  }

  function Half(asset: MultiAsset): MultiAsset {
    MultiAsset(asset.id, Fungible(if asset.fun.Fungible? then asset.fun.amount / 2 else 0))
  }

  function PayFor(cfg: XcmConfig, fee: MultiAsset, at: MultiLocation, weight: nat): Result<Instruction, XcmError> {
    var id :- cfg.reanchor(fee.id, at).OkOr(CannotReanchor);
    Success(BuyExecution(MultiAsset(id, fee.fun), weight))
  }

  function SelfReserveProgram(cfg: XcmConfig, asset: MultiAsset, fee: MultiAsset, dest: MultiLocation,
                              recipient: MultiLocation, weight: nat): Result<seq<Instruction>, XcmError> {
    var pay :- PayFor(cfg, fee, dest, weight);
    Success([TransferReserveAsset([asset], dest, [pay, DepositAsset(1, recipient)])])
  }

  function ToReserveProgram(cfg: XcmConfig, asset: MultiAsset, fee: MultiAsset, reserve: MultiLocation,
                            recipient: MultiLocation, weight: nat): Result<seq<Instruction>, XcmError> {
    var pay :- PayFor(cfg, fee, reserve, weight);
    Success([WithdrawAsset([asset]), InitiateReserveWithdraw(reserve, [pay, DepositAsset(1, recipient)])])
  }

  /** The destination as the reserve chain has to address it. */
  function ReanchoredDest(reserve: MultiLocation, dest: MultiLocation): MultiLocation {
    if reserve == PARENT && dest.parents == 1 && |dest.interior| == 1 && dest.interior[0].Parachain?
    then MultiLocation(0, dest.interior)
    else dest
  }

  function ToNonReserveProgram(cfg: XcmConfig, asset: MultiAsset, fee: MultiAsset, reserve: MultiLocation,
                               dest: MultiLocation, recipient: MultiLocation, weight: nat)
    : Result<seq<Instruction>, XcmError>
  {
    var payReserve :- PayFor(cfg, Half(fee), reserve, weight);
    var payDest :- PayFor(cfg, Half(fee), dest, weight);
    Success([
      WithdrawAsset([asset]),
      InitiateReserveWithdraw(reserve, [
        payReserve,
        DepositReserveAsset(1, ReanchoredDest(reserve, dest), [payDest, DepositAsset(1, recipient)])])])
  }

  /** The builder as written: the destination starts out as given and is replaced in one case. */
  method TransferToNonReserve(cfg: XcmConfig, asset: MultiAsset, fee: MultiAsset, reserve: MultiLocation,
                              dest: MultiLocation, recipient: MultiLocation, weight: nat)
    returns (r: Result<seq<Instruction>, XcmError>)
    ensures r == ToNonReserveProgram(cfg, asset, fee, reserve, dest, recipient, weight)
  {
    var reanchoredDest := dest;
    if reserve == PARENT {
      if dest.parents == 1 && |dest.interior| == 1 && dest.interior[0].Parachain? {
        reanchoredDest := MultiLocation(0, [Parachain(dest.interior[0].para)]);
        assert dest.interior == [dest.interior[0]];
      }
    }
    var payReserve := PayFor(cfg, Half(fee), reserve, weight);
    if payReserve.Failure? { return Failure(payReserve.error); }
    var payDest := PayFor(cfg, Half(fee), dest, weight);
    if payDest.Failure? { return Failure(payDest.error); }
    return Success([
      WithdrawAsset([asset]),
      InitiateReserveWithdraw(reserve, [
        payReserve.value,
        DepositReserveAsset(1, reanchoredDest, [payDest.value, DepositAsset(1, recipient)])])]);
  }

  function CreateInstructions(cfg: XcmConfig, asset: MultiAsset, fee: MultiAsset, dest: MultiLocation,
                              recipient: MultiLocation, weight: nat): Result<seq<Instruction>, XcmError> {
    var reserve :- ReservedLocation(asset).OkOr(AssetReservedLocationNotFound);
    match KindOf(cfg, asset, reserve, dest)
    case SelfReserveAsset => SelfReserveProgram(cfg, asset, fee, dest, recipient, weight)
    case ToReserve => ToReserveProgram(cfg, asset, fee, dest, recipient, weight)
    case ToNonReserve => ToNonReserveProgram(cfg, asset, fee, reserve, dest, recipient, weight)
  }

  /** The program `transfer` runs for an asset bound to `dest`. */
  function BuildTransfer(cfg: XcmConfig, asset: MultiAsset, dest: MultiLocation, weight: nat)
    : Result<seq<Instruction>, XcmError>
  {
    var (chain, recipient) :- ExtractDest(dest).OkOr(InvalidDestination);
    var minFee :- FirstMatch<AssetId, u128>(cfg.minFees, asset.id).OkOr(NoXcmMinFeeSet);
    CreateInstructions(cfg, asset, MultiAsset(asset.id, Fungible(minFee)), chain, recipient, weight)
  }

  // ---- Properties

  predicate IsRelayOrSibling(loc: MultiLocation) {
    loc.parents == 1 && (loc.interior == [] || (|loc.interior| == 1 && loc.interior[0].Parachain?))
  }

  predicate IsChildChain(loc: MultiLocation) {
    loc.parents == 0 && |loc.interior| == 1
  }

  /**
   * Exactly the locations one level up are accepted; the chain part is the relay chain or a sibling,
   * and the two parts recompose, both as paths and in what they denote.
   */
  lemma ExtractDestRecomposes(self: u32, dest: MultiLocation)
    ensures ExtractDest(dest).Some? <==> dest.parents == 1
    ensures match ExtractDest(dest)
            case None => true
            case Some((chain, recipient)) =>
              && IsRelayOrSibling(chain)
              && recipient.parents == 0
              && chain.interior + recipient.interior == dest.interior
              && (var at := Resolve([Parachain(self)], chain);
                  at.Some? && Resolve(at.value, recipient) == Resolve([Parachain(self)], dest))
  {
    if dest.parents == 1 {
      var (chain, recipient) := ExtractDest(dest).value;
      if chain != PARENT {
        assert chain == Sibling(dest.interior[0].para);
        assert [dest.interior[0]] + dest.interior[1..] == dest.interior;
      }
      ResolveBeside([], Parachain(self), chain.interior);
      ResolveBeside([], Parachain(self), dest.interior);
      ResolveInside(chain.interior, recipient.interior);
    }
  }

  /** Where the asset finally comes to rest when a program starts at `at`: the deposit's beneficiary. */
  function Landing(at: Absolute, program: seq<Instruction>): Option<Absolute>
    decreases program, 0
  {
    if program == [] then None
    else
      match program[0]
      case TransferReserveAsset(_, dest, onDest) => LandingAfter(Resolve(at, dest), onDest)
      case InitiateReserveWithdraw(reserve, onReserve) => LandingAfter(Resolve(at, reserve), onReserve)
      case DepositReserveAsset(_, next, onNext) => LandingAfter(Resolve(at, next), onNext)
      case DepositAsset(_, beneficiary) => Resolve(at, beneficiary)
      case _ => Landing(at, program[1..])
  }

  function LandingAfter(at: Option<Absolute>, program: seq<Instruction>): Option<Absolute>
    decreases program, 1
  {
    if at.None? then None else Landing(at.value, program)
  }

  /** The tail of every program: pay, then deposit. */
  lemma LandingOfTail(at: Absolute, pay: Instruction, recipient: MultiLocation)
    requires pay.BuyExecution? && recipient.parents == 0
    ensures Landing(at, [pay, DepositAsset(1, recipient)]) == Some(at + recipient.interior)
  {
    assert [pay, DepositAsset(1, recipient)][1..] == [DepositAsset(1, recipient)];
    ResolveInside(at, recipient.interior);
  }

  lemma LandingOfTwoHops(base: Absolute, withdraw: Instruction, reserve: MultiLocation, outer: seq<Instruction>,
                         atReserve: Absolute, atDest: Absolute, recipient: MultiLocation)
    requires withdraw.WithdrawAsset? && |outer| == 2 && outer[0].BuyExecution? && outer[1].DepositReserveAsset?
    requires |outer[1].onNext| == 2 && outer[1].onNext[0].BuyExecution?
    requires outer[1].onNext[1] == DepositAsset(1, recipient)
    requires Resolve(base, reserve) == Some(atReserve) && Resolve(atReserve, outer[1].next) == Some(atDest)
    requires recipient.parents == 0
    ensures Landing(base, [withdraw, InitiateReserveWithdraw(reserve, outer)]) == Some(atDest + recipient.interior)
  {
    var inner := outer[1].onNext;
    assert inner == [inner[0], DepositAsset(1, recipient)];
    LandingOfTail(atDest, inner[0], recipient);
    assert outer[1..] == [outer[1]];
    assert [withdraw, InitiateReserveWithdraw(reserve, outer)][1..] == [InitiateReserveWithdraw(reserve, outer)];
    calc {
      Landing(base, [withdraw, InitiateReserveWithdraw(reserve, outer)]);
      Landing(base, [InitiateReserveWithdraw(reserve, outer)]);
      Landing(atReserve, outer);
      Landing(atReserve, [outer[1]]);
      Landing(atDest, inner);
    }
  }

  /** The chain the second hop reaches, counted from the root. */
  function SecondHop(self: u32, reserve: MultiLocation, dest: MultiLocation): Absolute {
    if IsChildChain(reserve) then [Parachain(self)] + dest.interior else dest.interior
  }

  lemma ReserveReachesDest(self: u32, reserve: MultiLocation, dest: MultiLocation)
    requires IsRelayOrSibling(reserve) || reserve == HERE || IsChildChain(reserve)
    requires IsRelayOrSibling(dest) && reserve != dest
    ensures var atReserve := Resolve([Parachain(self)], reserve);
            && atReserve.Some?
            && Resolve(atReserve.value, ReanchoredDest(reserve, dest)) == Some(SecondHop(self, reserve, dest))
  {
    var base := [Parachain(self)];
    if reserve.parents == 1 {
      ResolveBeside([], Parachain(self), reserve.interior);
      if reserve.interior == [] {
        assert ReanchoredDest(reserve, dest) == MultiLocation(0, dest.interior);
        ResolveInside([], dest.interior);
      } else {
        assert reserve.interior == [reserve.interior[0]];
        ResolveBeside([], reserve.interior[0], dest.interior);
      }
    } else {
      ResolveInside(base, reserve.interior);
      if reserve == HERE {
        assert base + [] == base;
        ResolveBeside([], Parachain(self), dest.interior);
      } else {
        assert reserve.interior == [reserve.interior[0]];
        ResolveBeside(base, reserve.interior[0], dest.interior);
      }
    }
  }

  lemma ReservedLocationShape(asset: MultiAsset)
    requires ReservedLocation(asset).Some?
    ensures var r := ReservedLocation(asset).value; IsRelayOrSibling(r) || r == HERE || IsChildChain(r)
  {}

  lemma DirectProgramsLand(cfg: XcmConfig, base: Absolute, asset: MultiAsset, fee: MultiAsset, dest: MultiLocation,
                           recipient: MultiLocation, weight: nat, at: Absolute)
    requires Resolve(base, dest) == Some(at) && recipient.parents == 0
    ensures var p := SelfReserveProgram(cfg, asset, fee, dest, recipient, weight);
            p.Success? ==> Landing(base, p.value) == Some(at + recipient.interior)
    ensures var p := ToReserveProgram(cfg, asset, fee, dest, recipient, weight);
            p.Success? ==> Landing(base, p.value) == Some(at + recipient.interior)
  {
    var pay := PayFor(cfg, fee, dest, weight);
    if pay.Success? {
      LandingOfTail(at, pay.value, recipient);
      var tail := [pay.value, DepositAsset(1, recipient)];
      var program := [WithdrawAsset([asset]), InitiateReserveWithdraw(dest, tail)];
      assert program[1..] == [program[1]];
      assert Landing(base, program) == Landing(base, [program[1]]) == Landing(at, tail);
    }
  }

  lemma IndirectProgramLands(cfg: XcmConfig, self: u32, asset: MultiAsset, fee: MultiAsset, reserve: MultiLocation,
                             dest: MultiLocation, recipient: MultiLocation, weight: nat)
    requires IsRelayOrSibling(reserve) || reserve == HERE || IsChildChain(reserve)
    requires IsRelayOrSibling(dest) && reserve != dest && recipient.parents == 0
    ensures var p := ToNonReserveProgram(cfg, asset, fee, reserve, dest, recipient, weight);
            p.Success? ==>
              Landing([Parachain(self)], p.value) == Some(SecondHop(self, reserve, dest) + recipient.interior)
  {
    var p := ToNonReserveProgram(cfg, asset, fee, reserve, dest, recipient, weight);
    if p.Success? {
      var base := [Parachain(self)];
      ReserveReachesDest(self, reserve, dest);
      LandingOfTwoHops(base, p.value[0], reserve, p.value[1].onReserve, Resolve(base, reserve).value,
                       SecondHop(self, reserve, dest), recipient);
    }
  }

  /**
   * Change of viewpoint: the program of every transfer leaves the asset exactly where the caller's
   * destination pointed, seen from here - except that going through the reserve on a child chain, the
   * destination is not re-addressed and the asset misses it.
   */
  lemma TransfersLandAtTheirDestination(cfg: XcmConfig, self: u32, asset: MultiAsset, dest: MultiLocation, weight: nat)
    requires BuildTransfer(cfg, asset, dest, weight).Success?
    ensures var reserve := ReservedLocation(asset).value;
            Landing([Parachain(self)], BuildTransfer(cfg, asset, dest, weight).value)
            == Resolve([Parachain(self)], dest)
            <==> !(IsChildChain(reserve) && KindOf(cfg, asset, reserve, ExtractDest(dest).value.0).ToNonReserve?)
  {
    var (chain, recipient) := ExtractDest(dest).value;
    ExtractDestRecomposes(self, dest);
    var reserve := ReservedLocation(asset).value;
    var fee := MultiAsset(asset.id, Fungible(FirstMatch<AssetId, u128>(cfg.minFees, asset.id).value));
    var base, at := [Parachain(self)], chain.interior;
    ResolveBeside([], Parachain(self), at);
    ResolveInside(at, recipient.interior);
    if KindOf(cfg, asset, reserve, chain).ToNonReserve? {
      ReservedLocationShape(asset);
      IndirectProgramLands(cfg, self, asset, fee, reserve, chain, recipient, weight);
      assert |SecondHop(self, reserve, chain)| == |at| + if IsChildChain(reserve) then 1 else 0;
    } else {
      DirectProgramsLand(cfg, base, asset, fee, chain, recipient, weight, at);
    }
  }

  /** So every built transfer of a child chain's asset that is not native here misses its destination. */
  lemma ChildChainTransfersMiss(cfg: XcmConfig, self: u32, asset: MultiAsset, dest: MultiLocation, weight: nat)
    requires BuildTransfer(cfg, asset, dest, weight).Success? && !cfg.isNative(asset)
    requires IsChildChain(ReservedLocation(asset).value)
    ensures Landing([Parachain(self)], BuildTransfer(cfg, asset, dest, weight).value)
            != Resolve([Parachain(self)], dest)
  {
    ExtractDestRecomposes(self, dest);
    TransfersLandAtTheirDestination(cfg, self, asset, dest, weight);
  }

  /** And such transfers get built. */
  lemma ChildChainTransferIsBuilt(self: u32, child: u32, sibling: u32, who: Account, amount: u128, weight: nat)
    ensures var asset := MultiAsset(Concrete(MultiLocation(0, [Parachain(child)])), Fungible(amount));
            var dest := MultiLocation(1, [Parachain(sibling), AccountId32(None, who)]);
            var cfg := XcmConfig(_ => false, (id, _) => Some(id), [(asset.id, 2)]);
            var program := BuildTransfer(cfg, asset, dest, weight);
            program.Success? && Landing([Parachain(self)], program.value) != Resolve([Parachain(self)], dest)
  {
    var asset := MultiAsset(Concrete(MultiLocation(0, [Parachain(child)])), Fungible(amount));
    var dest := MultiLocation(1, [Parachain(sibling), AccountId32(None, who)]);
    var cfg := XcmConfig(_ => false, (id, _) => Some(id), [(asset.id, 2)]);
    ChildChainTransfersMiss(cfg, self, asset, dest, weight);
  }

  /** All the fees a program buys execution with, over every chain it visits. */
  function TotalFees(program: seq<Instruction>): nat
    decreases program
  {
    if program == [] then 0
    else
      (match program[0]
       case TransferReserveAsset(_, _, onDest) => TotalFees(onDest)
       case InitiateReserveWithdraw(_, onReserve) => TotalFees(onReserve)
       case DepositReserveAsset(_, _, onNext) => TotalFees(onNext)
       case BuyExecution(fees, _) => if fees.fun.Fungible? then fees.fun.amount else 0
       case _ => 0)
      + TotalFees(program[1..])
  }

  lemma TotalFeesOfTwo(a: Instruction, b: Instruction)
    ensures TotalFees([a, b]) == TotalFees([a]) + TotalFees([b])
  {
    assert [a, b][1..] == [b];
    assert [a][1..] == [];
    assert TotalFees([a]) == TotalFees([a]) + TotalFees([]);
  }

  /**
   * However many chains a transfer visits, it never spends more than the configured fee on execution:
   * all of it with one remote chain, two equal halves (losing an odd unit) with two.
   */
  lemma FeesStayWithinTheMinimum(cfg: XcmConfig, asset: MultiAsset, dest: MultiLocation, weight: nat)
    requires BuildTransfer(cfg, asset, dest, weight).Success?
    ensures var fee := FirstMatch<AssetId, u128>(cfg.minFees, asset.id).value;
            TotalFees(BuildTransfer(cfg, asset, dest, weight).value) ==
            if KindOf(cfg, asset, ReservedLocation(asset).value, ExtractDest(dest).value.0).ToNonReserve?
            then fee - fee % 2 else fee
  {
    var program := BuildTransfer(cfg, asset, dest, weight).value;
    var (chain, recipient) := ExtractDest(dest).value;
    var fee := FirstMatch<AssetId, u128>(cfg.minFees, asset.id).value;
    match KindOf(cfg, asset, ReservedLocation(asset).value, chain)
    case SelfReserveAsset =>
      FeesOfTail(program[0].onDest[0], recipient);
      assert program == [program[0]] + [];
    case ToReserve =>
      FeesOfTail(program[1].onReserve[0], recipient);
      TotalFeesOfTwo(program[0], program[1]);
    case ToNonReserve =>
      var outer := program[1].onReserve;
      FeesOfTail(outer[1].onNext[0], recipient);
      TotalFeesOfTwo(outer[0], outer[1]);
      TotalFeesOfTwo(program[0], program[1]);
  }

  lemma FeesOfTail(pay: Instruction, recipient: MultiLocation)
    requires pay.BuyExecution? && pay.fees.fun.Fungible?
    ensures TotalFees([pay, DepositAsset(1, recipient)]) == pay.fees.fun.amount
  {
    TotalFeesOfTwo(pay, DepositAsset(1, recipient));
  }

  // ---- The reserve and what a program moves

  /** The reserve of an asset on a sibling is that sibling, seen from anywhere. */
  lemma SiblingAssetsLiveOnTheirSibling(self: u32, n: u32, rest: seq<Junction>, amount: u128)
    ensures var r := ReservedLocation(MultiAsset(Concrete(MultiLocation(1, [Parachain(n)] + rest)), Fungible(amount)));
            r.Some? && Resolve([Parachain(self)], r.value) == Some([Parachain(n)])
  {
    ResolveBeside([], Parachain(self), [Parachain(n)]);
  }

  /** The reserve of any other asset one level up is the relay chain. */
  lemma RelayAssetsLiveOnTheRelay(self: u32, path: seq<Junction>, amount: u128)
    requires path == [] || !path[0].Parachain?
    ensures var r := ReservedLocation(MultiAsset(Concrete(MultiLocation(1, path)), Fungible(amount)));
            r.Some? && Resolve([Parachain(self)], r.value) == Some([])
  {
    ResolveBeside([], Parachain(self), []);
  }

  /** The reserve of an asset below this chain is the child chain it is on. */
  lemma ChildAssetsLiveOnTheirChild(self: u32, n: u32, rest: seq<Junction>, amount: u128)
    ensures var r := ReservedLocation(MultiAsset(Concrete(MultiLocation(0, [Parachain(n)] + rest)), Fungible(amount)));
            r.Some? && Resolve([Parachain(self)], r.value) == Some([Parachain(self), Parachain(n)])
  {
    ResolveInside([Parachain(self)], [Parachain(n)]);
    assert [Parachain(self)] + [Parachain(n)] == [Parachain(self), Parachain(n)];
  }

  /** The chain's own asset has its reserve here. */
  lemma OwnAssetLivesHere(self: u32, amount: u128)
    ensures var r := ReservedLocation(MultiAsset(Concrete(MultiLocation(0, [])), Fungible(amount)));
            r.Some? && Resolve([Parachain(self)], r.value) == Some([Parachain(self)])
  {
    ResolveInside([Parachain(self)], []);
    assert [Parachain(self)] + [] == [Parachain(self)];
  }

  /** Every other asset has none. */
  lemma OtherAssetsHaveNoReserve(asset: MultiAsset)
    requires asset.id.Abstract? || asset.fun.NonFungible? || asset.id.location.parents > 1
             || (asset.id.location.parents == 0 && asset.id.location.interior != []
                 && !asset.id.location.interior[0].Parachain?)
    ensures ReservedLocation(asset) == None
  {}

  /** However an asset is reserved, the reserve is a chain on the way to where the asset is. */
  lemma ReserveHoldsTheAsset(self: u32, asset: MultiAsset)
    requires ReservedLocation(asset).Some?
    ensures var at, home := Resolve([Parachain(self)], ReservedLocation(asset).value),
                            Resolve([Parachain(self)], asset.id.location);
            at.Some? && home.Some? && at.value <= home.value && forall j :: j in at.value ==> j.Parachain?
  {
    var id := asset.id.location;
    var below, here := id.interior, [Parachain(self)];
    if id.parents == 1 {
      ResolveBeside([], Parachain(self), below);
      ResolveBeside([], Parachain(self), ReservedLocation(asset).value.interior);
    } else {
      ResolveInside(here, below);
      ResolveInside(here, ReservedLocation(asset).value.interior);
      if below != [] { assert below == [below[0]] + below[1..]; }
    }
  }

  /** `fees` is the name, at `at`, of some of the asset. */
  predicate NamedAt(cfg: XcmConfig, asset: MultiAsset, at: MultiLocation, pay: Instruction, weight: nat) {
    pay.BuyExecution? && cfg.reanchor(asset.id, at) == Some(pay.fees.id) && pay.weight == weight
  }

  /**
   * A program moves exactly the asset it was built for: a native one by a transfer to the destination's chain, any
   * other by withdrawing it and calling it back from its reserve; from there it is deposited, if the reserve is the
   * destination's chain, or sent on to it.  On every chain the fee is named as that chain names it.
   */
  lemma ProgramsMoveTheAsset(cfg: XcmConfig, asset: MultiAsset, dest: MultiLocation, weight: nat)
    requires BuildTransfer(cfg, asset, dest, weight).Success?
    ensures var program := BuildTransfer(cfg, asset, dest, weight).value;
            var (chain, recipient) := ExtractDest(dest).value;
            var reserve := ReservedLocation(asset);
            && reserve.Some?
            && if cfg.isNative(asset) then
                 && |program| == 1 && program[0].TransferReserveAsset?
                 && program[0].transferred == [asset] && program[0].dest == chain
                 && |program[0].onDest| == 2 && NamedAt(cfg, asset, chain, program[0].onDest[0], weight)
                 && program[0].onDest[1] == DepositAsset(1, recipient)
               else
                 && |program| == 2 && program[0] == WithdrawAsset([asset])
                 && program[1].InitiateReserveWithdraw? && program[1].reserve == reserve.value
                 && |program[1].onReserve| == 2 && NamedAt(cfg, asset, reserve.value, program[1].onReserve[0], weight)
                 && (var last := program[1].onReserve[1];
                     if reserve.value == chain then last == DepositAsset(1, recipient)
                     else
                       && last.DepositReserveAsset? && last.maxAssets == 1 && |last.onNext| == 2
                       && NamedAt(cfg, asset, chain, last.onNext[0], weight)
                       && last.onNext[1] == DepositAsset(1, recipient))
  {}
}
