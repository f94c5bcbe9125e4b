# Sygma substrate pallets, modelled and proved

A Dafny model of the Sygma bridge pallets for Substrate chains and proofs about it. The bridge locks or burns assets
here when someone deposits them for another domain, announces the deposit in an event with a per-domain nonce, and
pays out proposals that a committee of relayers has signed with one MPC key. Value crosses in 18-decimal units,
whatever the decimals of the asset, and recipients may be local accounts, accounts on other chains reachable by XCM,
or recipients in another domain, to which the bridge forwards.

`dafny verify dfyconfig.toml` checks everything.

## How the model is organised

* `Bridge` is the protocol as a state machine on values: storage, a ledger `(asset, account) -> amount`, the event log,
  and a history of value flows. `Dispatch` performs one call, `Run` any sequence of calls from an empty store. Whatever
  a call consults outside the bridge - access grants, fee handler, balance rules, XCM executor, signature recovery - is
  a record of functions (`Env`) chosen afresh for every call, so statements hold for every behaviour of those parts.
  A call `Elsewhere` replaces the ledger arbitrarily: the rest of the chain acts between bridge calls.
* `Pallet.BridgePallet` is the pallet on mutable storage: fields updated step by step, a bitmap of 64-bit words for
  used nonces, loops over proposals and domains, storage transactions with rollback, and the mutual recursion between
  the transactor and `deposit`. Every method is proved to do what `Bridge` says; `Perform` closes the
  correspondence for all calls.
* `Atoms` decomposes every run into elementary changes with local side conditions, so a run-level invariant is proved
  once per atom. `Safety`, `Batches`, `Solvency`, `Stranding`, `ReturnTrip`, `Forwarding`, `Acceptance`,
  `Routing`, `Calls` and `Authorisation` hold the theorems about the protocol, and `LiveRun` one run from the first
  call on.
* `FixedPoint` and `Decimals` model the converter down to the bits of `U112F16`; `Words`, `DepositData`, `Packed`,
  `Eip712` the byte formats and the signed message, which `TypedData` compares with EIP-712 itself; `Xcm` and `XcmBridge` locations and the XCM programs;
  `SygmaRuntime` the shipped reserve check and destination parsers; `PercentageFee` and `AccessSegregator` the two
  pallets with invariants of their own.

## What the proofs found

* The dividing branches of the decimal converter have no range check, and the scale factor saturates and wraps like
  the amount. `DivideByIsFloorExactlyWhen` gives the exact condition for every amount and every number of decimals: up to
  33 decimals apart it is that the amount is below 2^112, beyond that an amount below 2^112 must be below the wrapped
  scale, and from 39 on everything is refused but the amounts one short of a wrap. `DivideByMisses` has an input for
  either failure. The multiplying branch is exact if and only if the numbers are at most 33 decimals apart, the amount
  is zero, or the wrapped product reaches the cap anyway (`MultiplyByIsProductExactlyWhen`, `MultiplyByMisses`).
  Solvency survives all of it (`ReleasedNeverExceedsLocked`); the returned amount does not. `RoundTripLoss` says
  exactly when it does and what is lost otherwise; `WrappedDepositIsLost` and `CappedDepositIsLost` are deposits that the
  bridge accepts and never gives back whole.
* A failed proposal is not atomic. Its error is caught in the batch loop and not rolled back, so a proposal whose
  withdrawal succeeds and whose delivery fails leaves the reserve debited and its nonce unused. For a recipient on this
  chain a failed proposal keeps all balances if and only if it is not the case that its domain is open, its nonce
  fresh, its claim readable, positive and reserved here, and its reserve can be drawn on
  (`FailureKeepsBalancesExactlyWhen`). `FailureLosesBalance` is an input, and every further attempt at such a
  proposal costs the amount again, in the same batch (`AttemptsAddUp`) or in later calls (`CallsAddUp`). Over runs, nothing is stranded if and only if every executed
  proposal can deliver what it takes, whatever its route (`RunStrandsNothingExactlyWhen`).
* The parachain runtime's transactor forwards locations of four junctions. Its own destination parser reads three,
  the standalone runtime's (which has no forwarding transactor) two. Forwarding to another domain therefore never
  succeeds with either parser (`ForwardingNeedsAParser`): the route of a proposal alone decides that it fails. The
  amount then stays with the transit account, if that can be credited. For an asset that is not reserved here nothing
  was withdrawn before, so this is new issuance (`FailedForwardingIssues`, `ShippedParserIssues`), again in every call
  that presents the proposal (`CallsIssue`). `FailureIssuesBalance` is an input.
* A transfer routed through a reserve that is a child chain does not re-address its destination for that chain. A built
  program lands where it should if and only if this is not the case (`TransfersLandAtTheirDestination`,
  `ChildChainTransfersMiss`, `ChildChainTransferIsBuilt`).
* The percentage fee is the ideal one unless the 128-bit product saturates under a very large upper bound; then it is
  too small, never too large (`SaturationOnlyUndercharges`, `SaturationUnderchargesHere`).

Where comments and code disagree, the model follows the code. A storage comment says the bridge stays paused after the
MPC address is set (`bridge/src/lib.rs:247`); `set_mpc_address` unpauses every domain. The repository's README shows a
destination of two junctions with the domain as a `GeneralIndex`. The standalone parser reads two junctions and takes
the domain from the first byte of a `GeneralKey`; the parachain parser takes it from a `GeneralIndex`, in the middle of
three junctions.

## What stands in for code outside the model

* Keccak, ECDSA recovery, the SCALE decoding of locations, `reanchored`, sovereign accounts and the fee handler are
  functions of their inputs about which nothing is assumed. Binding theorems return an explicit hash collision instead
  of assuming there is none.
* Accounts and MPC addresses are numbers; the zero address is the one the source calls clear.
* `reanchored` renames an asset and cannot touch its amount.
* An XCM program is refused, or takes the amount from its origin account and then holds or burns it, and may stop
  half-way. A failed nested deposit is rolled back, a failed XCM transfer is not.
* `Config` carries the converter, the reserve check, the parser and the message as functions. `ConvertsWith` says that
  the converter is the one in `Decimals`; `ExecuteProposal` requires that the message is the one in `Eip712`.
* `SigningMessageIsTypedData` takes the two constants for the type hash of the domain to be what the hash function makes
  of the domain's type, since the hash function is a parameter.
* The EIP-712 domain is a parameter; the pallet fills in `Bridge`, `3.1.0`, its configured chain id and contract.
* A `GeneralKey` longer than 32 bytes, which makes the source panic, is read as no destination. Packing a number to
  more than 256 bits, which underflows in the source, yields nothing.

## Model

| member | source | states |
|---|---|---|
| `Solvency.ReleasedNeverExceedsLocked` | bridge/src/lib.rs:482-518 | In every run, if the 18-decimal amounts presented for an asset are at most those announced, what was released is at most what was locked, for every decimals setting, saturated or wrapped conversions included |
| `Solvency.ReserveBacksTheBridge` | bridge/src/lib.rs:889-936 | In every run in which only the bridge draws on a reserve, its balance beyond what is locked and neither released nor stranded never falls below the initial balance; when nothing else feeds it either, forwarding included, it is exactly that |
| `Solvency.ReserveNeverFallsShort` | bridge/src/lib.rs:482-518 | With solvency: the reserve falls below its initial balance by at most the stranded amounts |
| `Stranding.RunStrandsNothingExactlyWhen` | bridge/src/lib.rs:594-626 | In every run the stranded total of an asset is zero if and only if every executed proposal can deliver what it takes from the reserve, in the state it is reached in, by any route |
| `Stranding.ReserveStaysWhole` | bridge/src/lib.rs:916-933 | Then the reserve never falls below its initial balance |
| `Stranding.RuntimeReserveStaysWhole` | substrate-node/standalone/runtime/src/lib.rs:669-679 | In particular for every asset of which the runtime's reserve check accepts any amount |
| `SygmaRuntime.ReservedHereExactlyWhen` | substrate-node/standalone/runtime/src/lib.rs:554-582 | Reserved here are the native asset and every fungible asset from one level up but those of parachain 2004 |
| `SygmaRuntime.StandaloneRoundTrip` | substrate-node/standalone/runtime/src/lib.rs:682-703 | A destination of recipient key and domain key reads back, for every non-zero domain |
| `SygmaRuntime.StandaloneReads` | substrate-node/standalone/runtime/src/lib.rs:682-703 | Whatever reads has the recipient in the first key and a non-zero domain in the first byte of the second |
| `SygmaRuntime.ParachainRoundTrip` | substrate-node/parachain/runtime/src/lib.rs:881-902 | A destination of `sygma`, domain index and recipient key reads back, for every domain |
| `SygmaRuntime.ParachainReads` | substrate-node/parachain/runtime/src/lib.rs:881-902 | Whatever reads is `sygma`, an index below 256 and the recipient's key |
| `Stranding.ProposalStrands` | bridge/src/lib.rs:916-933 | A proposal adds to the stranded total exactly what it takes and cannot deliver |
| `Stranding.FailureKeepsBalancesExactlyWhen` | bridge/src/lib.rs:889-936 | A failed proposal with a local recipient keeps all balances if and only if its first leg takes nothing |
| `Stranding.FailureLosesBalance` | bridge/src/lib.rs:916-933 | A bridge and a proposal whose failure empties the reserve, pays nobody and uses no nonce |
| `Stranding.AttemptsAddUp` | bridge/src/lib.rs:594-626 | n attempts at an undeliverable proposal in one batch take n times its amount from the reserve and use no nonce |
| `Stranding.CallsAddUp` | bridge/src/lib.rs:569-629 | The same for n calls that present it, signed once, each in a batch of its own |
| `Stranding.FailedForwardingIssues` | bridge-forwarder/src/xcm_asset_transactor.rs:29-78 | The balances a failed proposal for another domain leaves; for an unreserved asset it issues the amount to the transit account if that can be credited, records no flow, and keeps balances if and only if it cannot or the amount is zero |
| `Stranding.ShippedParserIssues` | substrate-node/parachain/runtime/src/lib.rs:881-902 | With either shipped parser every due proposal for another domain fails that way, by its route alone |
| `Stranding.CallsIssue` | bridge/src/lib.rs:569-629 | n calls presenting such a proposal issue n times its amount, use no nonce and leave it due |
| `Stranding.FailureIssuesBalance` | bridge-forwarder/src/xcm_asset_transactor.rs:29-78 | A bridge with the parachain's parser and a proposal that issues its amount and forwards nothing |
| `Solvency.RunConverts` | bridge/src/lib.rs:506-509 | In every run each announced and each released amount is what the converter makes of the locked and the presented one |
| `Solvency.RuntimeConverterIsPrudent` | substrate-node/standalone/runtime/src/lib.rs:589-666 | For every asset one scale bounds both directions of the converter, so that totals can be compared |
| `Safety.ProposalsExecuteAtMostOnce` | bridge/src/lib.rs:594-626 | In every run each (domain, nonce) has at most one execution event, the used set is exactly the executed pairs, and it only grows |
| `Safety.DepositNoncesAreContiguous` | bridge/src/lib.rs:499-531 | In every run the deposit events of each domain carry 0, 1, ..., n-1 in order and the counter is n, across pauses, registrations and nested deposits |
| `Safety.PauseHolds` | bridge/src/lib.rs:290-307 | After a successful pause of a domain there is no deposit, retry or execution for it until a call that lifts the pause succeeds |
| `Safety.RunRespectsPause` | bridge/src/lib.rs:889-895 | The same from any state in which the domain is paused |
| `Safety.RegistryAndMpcAreStable` | bridge/src/lib.rs:337-430 | In every run domains and chain ids have the same keys and are what the registration events add up to, every flag is true, a set MPC address never changes, and nothing is transferred before it is set |
| `Calls.AddressFollowsTheCalls` | bridge/src/lib.rs:337-356 | In every run the MPC address is the argument of the last successful call that set it, and clear before any |
| `Calls.RegistryFollowsTheCalls` | bridge/src/lib.rs:361-430 | In every run the registry holds exactly the domains and chain ids that successful calls registered and did not remove, each supported |
| `Calls.PausesFollowTheCalls` | bridge/src/lib.rs:290-332 | In every run a domain is paused if and only if the last successful call that concerns it paused it |
| `Calls.CallsFailAtTheirFirstCheck` | bridge/src/lib.rs:283-686 | Every call fails with the error of the first check it does not pass, in the source's order, and succeeds if it passes all |
| `Calls.ProposalsFailAtTheirFirstCheck` | bridge/src/lib.rs:889-911 | A proposal that fails a check only reports that check's error; one that passes all reports an execution or a failed transaction |
| `Calls.AdministrationReports` | bridge/src/lib.rs:538-566 | An administrative call reports exactly its arguments and signer, and moves neither value nor nonces |
| `LiveRun.BridgeLives` | bridge/src/lib.rs:337-629 | A run from an empty pallet, for every amount: setup, registration, deposit and execution, with every unit where it belongs |
| `Safety.FlowsMirrorEvents` | bridge/src/lib.rs:511-529 | In every run the history of flows tells the same sequence as the public events: deposits with domain, resource of the asset and announced amount, executions with domain, nonce and data hash |
| `Batches.BatchMeaning` | bridge/src/lib.rs:594-626 | A batch reports one outcome per proposal in order, uses exactly the nonces of the successes, and lets only one of the proposals sharing a nonce through |
| `Batches.BatchesCompose` | bridge/src/lib.rs:594-626 | Executing a list is executing a prefix and then the rest |
| `Batches.OneOutcomePerProposal` | bridge/src/lib.rs:594-626 | However deep its payment nests, a proposal adds one outcome and uses its nonce exactly on success |
| `Batches.BatchSquares` | bridge/src/lib.rs:916-933 | With local recipients, for every asset and account, the batch takes from reserves exactly what successes paid plus what was stranded, credits exactly the recipients, and moves nothing else |
| `Batches.ProposalSquares` | bridge/src/lib.rs:889-936 | The same for one proposal |
| `Batches.DepositMovesExactly` | bridge/src/lib.rs:464-497 | A deposit takes the amount from the sender, gives the fee to the treasury and the rest to the reserve of a reserved asset, and moves nothing else, whichever of these accounts coincide |
| `Batches.DepositIssuance` | bridge/src/lib.rs:464-497 | Issuance is kept for reserved assets and falls by the bridged part otherwise |
| `Acceptance.DepositIsAcceptedExactlyWhen` | bridge/src/lib.rs:433-532 | With percentage fees and the runtime's converter: a signed deposit succeeds if and only if its domain is open with a nonce left, the tables have entries for its asset, the amount is above the rate's lower bound, within the balance and convertible after the fee, and the balance pallets permit it |
| `Acceptance.DepositAnnounces` | bridge/src/lib.rs:499-531 | What an accepted deposit counts, reports and records, from its inputs: domain and recipient of the destination, first resource of the asset, nonce, sender, converted amount and fee |
| `Acceptance.AssetForFindsTheFirst` | bridge/src/lib.rs:863-868 | A resource stands for the asset of its first entry, and for none without an entry |
| `Prelude.FirstMatchFindsTheFirst` | bridge/src/lib.rs:812-821 | A table look-up finds the value of the first entry for the key, and nothing if and only if there is none |
| `Acceptance.LocalProposalIsPaidExactlyWhen` | bridge/src/lib.rs:889-936 | A proposal with a local recipient is reported executed if and only if its domain is open, its nonce fresh and its claim payable; the balances it leaves in either case |
| `ReturnTrip.ProposalReturnsTheDeposit` | bridge/src/lib.rs:902-911 | An executed proposal carrying the resource and amount of a deposit event releases the same asset, never more than was bridged, all of it if and only if the amount survives conversion; else with fewer than 18 decimals the most that 112 bits carry, and with more, short by less than one unit if and only if the amount is below 2^112 |
| `ReturnTrip.ReturnIsReceived` | bridge/src/lib.rs:913-933 | With a local recipient exactly the recipient gains the released amount and exactly the reserve of a reserved asset gives it |
| `ReturnTrip.RoundTripLoss` | substrate-node/standalone/runtime/src/lib.rs:589-666 | What the two conversions in a row leave of an amount: exactly when everything, and what otherwise |
| `ReturnTrip.LosslessInPowersOfTen` | substrate-node/standalone/runtime/src/lib.rs:589-666 | Up to 51 decimals the amounts that survive are, in powers of ten, those whose 18-decimal amount is below 2^112, or that are a whole number of 18-decimal units below 2^112 |
| `ReturnTrip.WrappedDepositIsLost` | substrate-node/standalone/runtime/src/lib.rs:598-606 | With 19 decimals 2^112 + 10 units are announced as 1 and return as 10 |
| `ReturnTrip.CappedDepositIsLost` | substrate-node/standalone/runtime/src/lib.rs:607-618 | With 17 decimals 2^111 units are announced at the cap and return as a tenth of it |
| `ReturnTrip.CoarseTrip` | substrate-node/standalone/runtime/src/lib.rs:607-618 | Multiplying and then dividing is exact if and only if the product stays below 2^112, and otherwise the quotient of the cap |
| `ReturnTrip.FineTrip` | substrate-node/standalone/runtime/src/lib.rs:598-606 | Dividing and then multiplying drops the remainder, wrap-around included, and loses less than the divisor if and only if the amount is below 2^112 |
| `ReturnTrip.ResourceRoundTrip` | bridge/src/lib.rs:812-868 | With distinct resource ids, the first resource of an asset is found for it and stands for the asset |
| `Forwarding.ForwardingNestsOneDeposit` | bridge-forwarder/src/xcm_asset_transactor.rs:29-78 | A forwarded deposit makes exactly one bridge deposit, by the transit account, for the whole amount, and reports it after that deposit's events |
| `Forwarding.ForwardingPassesThrough` | bridge-forwarder/src/xcm_asset_transactor.rs:29-78 | It leaves the transit account as it was, gives the treasury the fee and the reserve the rest, and moves nothing else |
| `Forwarding.FailedForwardingStaysInTransit` | bridge-forwarder/src/xcm_asset_transactor.rs:29-78 | A failed one leaves exactly the amount with the transit account if that could be credited, and changes nothing otherwise |
| `Forwarding.SendingPassesThrough` | bridge-forwarder/src/lib.rs:41-59 | With the programs of the XCM bridge, a successful transfer leaves the transit account as it was, has a native asset held for the destination's chain and burns any other; the program it sends lands at the recipient if and only if the asset is native or its reserve is not on a child chain |
| `Forwarding.ForwardingNeedsAParser` | substrate-node/parachain/runtime/src/lib.rs:881-902 | Forwarding to another domain that succeeds uses neither shipped parser |
| `Routing.RecipientsHereAreCredited` | bridge-forwarder/src/xcm_asset_transactor.rs:30-39 | A deposit to an account or 20-byte key here or to a sibling chain credits that location's account, if and only if it has one and the balance rules permit it |
| `Routing.OtherWorldRecipientsAreForwarded` | bridge-forwarder/src/xcm_asset_transactor.rs:41-56 | A deposit to the four-junction pattern credits the transit account, which deposits the whole amount to that location; the state in each outcome |
| `Routing.OtherRecipientsAreSent` | bridge-forwarder/src/xcm_asset_transactor.rs:57-73 | A deposit to any other location goes out by XCM through the transit account: balances and events in each outcome, refused, stopped half-way or complete |
| `Routing.RoutesAreDisjoint` | bridge-forwarder/src/xcm_asset_transactor.rs:29-78 | No location is served in two ways |
| `Routing.AccountsOfRecipients` | bridge-forwarder/src/xcm_asset_transactor.rs:30-39 | The account of an account location is the account in it, of any other what the runtime derives |
| `Authorisation.ExecutedBatchWasSigned` | bridge/src/lib.rs:569-629 | If only messages of signed batches verify, an executed batch is one of them, proposal by proposal, or the proof yields a hash collision |
| `Authorisation.RestrictedCallsComeFromTheCommittee` | access-segregator/src/lib.rs:103-122 | With the access segregator, whoever succeeds with a restricted call is the committee or holds the latest grant for it, and that grant goes back to the committee |
| `Eip712.SigningMessageBinds` | bridge/src/lib.rs:743-808 | Non-empty lists with equal final messages are equal field by field, and so are their domains, or the proof yields a hash collision |
| `TypedData.SigningMessageIsTypedData` | bridge/src/lib.rs:743-808 | The message is the EIP-712 digest of the list: struct hashes whose types are spelt from the members and whose data is encoded member by member in that order; the zero word without proposals |
| `TypedData.ProposalTypeIsDeclared` | bridge/src/lib.rs:749-752 | The proposal's type string is what its members, in the order of their encoding, declare |
| `TypedData.ListTypeIsDeclared` | bridge/src/lib.rs:744-748 | The list's type string is its member's declaration followed by the proposal's type |
| `TypedData.ProposalLayout` | bridge/src/lib.rs:765-771 | Type hash, origin domain, nonce, resource and data hash, word by word in what is hashed for a proposal |
| `TypedData.DomainData` | bridge/src/eip712.rs:58-79 | The separator's data is the domain's members in the standard order, the salt last if there is one |
| `Eip712.SeparatorBinds` | bridge/src/eip712.rs:58-79 | Equal separators bind name, version, chain id, contract and salt, or yield a collision |
| `Eip712.ProposalBinds` | bridge/src/lib.rs:759-776 | Equal proposal hashes bind every field, or yield a collision |
| `Eip712.ProposalListBinds` | bridge/src/lib.rs:759-776 | Equal lists of hashes bind the lists, or yield a collision |
| `Eip712.ConstructSigningMessage` | bridge/src/lib.rs:743-808 | The method with its vectors and loops computes the specified message, the zero word for no proposals included |
| `Eip712.HashProposals` | bridge/src/lib.rs:758-776 | The loop over proposals yields their hashes in order, flattened |
| `Eip712.HashProposal` | bridge/src/lib.rs:759-771 | The five tokens are hashed as the proposal's typed data |
| `Eip712.HashList` | bridge/src/lib.rs:781-788 | The flattened hashes are hashed into the list's typed data |
| `Eip712.AbiEncode` | bridge/src/lib.rs:765-771 | Static tokens are laid out as consecutive 32-byte words |
| `Eip712.TokensFillWords` | bridge/src/lib.rs:765-771 | Numbers and addresses are right-aligned in their word, bytes left-aligned and padded |
| `Eip712.Separator` | bridge/src/eip712.rs:58-79 | Pushing the salt only when present computes the specified separator |
| `Packed.EncodePacked` | bridge/src/encode.rs:65-72 | Folding and joining yields the packed forms in order |
| `Packed.Pack` | bridge/src/encode.rs:25-63 | Each kind of data is packed as the Solidity packed mode says, numbers as big-endian words or their last bytes |
| `Packed.PackedMeaning` | bridge/src/encode.rs:25-63 | What each packed form reads as: numbers, their low bits and booleans in big-endian bytes, text and bytes themselves |
| `Packed.LimbsAreLittleEndian` | bridge/src/encode.rs:35-40 | The limbs of a number are its 64-bit digits from the least significant on |
| `Packed.SplitBigEndian` | bridge/src/encode.rs:35-40 | The bytes of the high part of a number come before those of the low part |
| `Packed.LimbBytes` | bridge/src/encode.rs:35-40 | Writing the limbs in reverse gives the big-endian word of the number they hold |
| `DepositData.ExtractCreate` | bridge/src/lib.rs:823-861 | Reading created deposit data gives back amount and recipient, for any decoder |
| `DepositData.CreateExtract` | bridge/src/lib.rs:840-861 | Every accepted byte string is the created one of its amount and its bytes from 64 on |
| `DepositData.Layout` | bridge/src/lib.rs:823-831 | Amount word, length word, recipient |
| `Words.WordRoundTrip` | bridge/src/lib.rs:870-874 | A number below 2^256 is read back from its 32-byte word |
| `Words.EncodeDecode` | bridge/src/lib.rs:845-850 | Every byte string is the big-endian form of its value |
| `Decimals.DivideByIsFloorExactlyWhen` | substrate-node/standalone/runtime/src/lib.rs:598-606 | For every amount and number of decimals, the dividing branch is the floor of the quotient by the power of ten, refused when zero, if and only if quotient and remainder fit the wrapped scale |
| `Decimals.DividesExactlyUpTo33` | substrate-node/standalone/runtime/src/lib.rs:598-606 | Up to 33 decimals apart these are the amounts below 2^112 |
| `Decimals.DividesExactlyBeyond33` | substrate-node/standalone/runtime/src/lib.rs:598-606 | Beyond 33, of the amounts below 2^112 those below the wrapped scale |
| `Decimals.DividesExactlyFrom39` | substrate-node/standalone/runtime/src/lib.rs:598-606 | From 39 on, all amounts but those one short of a wrap |
| `Decimals.DivideByMisses` | substrate-node/standalone/runtime/src/lib.rs:598-606 | An input for either failure |
| `Decimals.DivideByMeaning` | substrate-node/standalone/runtime/src/lib.rs:598-606 | For all amounts it is the wrapped quotient, refused when zero |
| `Decimals.MultiplyByMeaning` | substrate-node/standalone/runtime/src/lib.rs:607-618 | The multiplying branch refuses amounts from 2^112 on and is otherwise the product with the scale, capped at 2^112 - 1 |
| `Decimals.MultiplyByIsProductExactlyWhen` | substrate-node/standalone/runtime/src/lib.rs:607-618 | Below 2^112 it is the capped product with the power of ten if and only if at most 33 decimals apart, for nothing, or where the wrapped product reaches the cap |
| `Decimals.MultiplyByMisses` | substrate-node/standalone/runtime/src/lib.rs:607-618 | An input on which it is not |
| `Decimals.ScaleIsExactUpTo33` | substrate-node/standalone/runtime/src/lib.rs:599-600 | The scale factor after saturating and wrapping is never zero and is the power of ten if and only if the exponent is at most 33 |
| `Decimals.ConversionsAreMonotone` | substrate-node/standalone/runtime/src/lib.rs:589-666 | Below 2^112 both branches are monotone |
| `Decimals.ConvertToMeaning` | substrate-node/standalone/runtime/src/lib.rs:589-626 | When an outgoing amount of an asset converts at the decimals of its first entry, and to what |
| `Decimals.ConvertFromMeaning` | substrate-node/standalone/runtime/src/lib.rs:628-666 | When an incoming amount converts at those decimals, and to what amount of the same asset |
| `Decimals.UnknownAssetIsRefused` | substrate-node/standalone/runtime/src/lib.rs:589-666 | An asset without an entry converts in neither direction |
| `Decimals.AnnouncedIsWorthTheDeposit` | substrate-node/standalone/runtime/src/lib.rs:589-626 | Within 112 bits and for up to 51 decimals, the announced units at 18 decimals are the deposited units at their decimals, rounded down |
| `Decimals.PaymentIsWorthTheAnnounced` | substrate-node/standalone/runtime/src/lib.rs:628-666 | And the paid units are the presented ones, rounded down |
| `FixedPoint.DivisionIsFloor` | substrate-node/standalone/runtime/src/lib.rs:599-602 | Fixed-point division of integers truncates to the integer quotient of the wrapped operands |
| `FixedPoint.MultiplicationIsCapped` | substrate-node/standalone/runtime/src/lib.rs:611-617 | Saturating fixed-point multiplication truncates to the capped integer product |
| `XcmBridge.TransfersLandAtTheirDestination` | xcm-bridge/src/lib.rs:108-143 | A built program, followed hop by hop from the viewpoint of each chain, delivers to the requested absolute location if and only if it is not routed through a reserve on a child chain |
| `XcmBridge.ProgramsMoveTheAsset` | xcm-bridge/src/lib.rs:108-143 | A program transfers or withdraws exactly its asset, native ones straight to the destination's chain, others through the asset's reserve, deposited there or sent on; on each chain the fee is named as that chain names it |
| `XcmBridge.SiblingAssetsLiveOnTheirSibling` | xcm-bridge/src/lib.rs:177-178 | The reserve of an asset on a sibling denotes that sibling |
| `XcmBridge.RelayAssetsLiveOnTheRelay` | xcm-bridge/src/lib.rs:179-180 | The reserve of any other asset one level up denotes the relay chain |
| `XcmBridge.ChildAssetsLiveOnTheirChild` | xcm-bridge/src/lib.rs:181-182 | The reserve of an asset below denotes its child chain |
| `XcmBridge.OwnAssetLivesHere` | xcm-bridge/src/lib.rs:183-184 | The reserve of the chain's own asset denotes this chain |
| `XcmBridge.OtherAssetsHaveNoReserve` | xcm-bridge/src/lib.rs:168-189 | Every other asset has none |
| `XcmBridge.ReserveHoldsTheAsset` | xcm-bridge/src/lib.rs:168-189 | The reserve is always a chain on the path to the asset's own location |
| `XcmBridge.ChildChainTransfersMiss` | xcm-bridge/src/lib.rs:295-330 | In every configuration, every transfer that is built for an asset of a child chain, not native here, misses its destination |
| `XcmBridge.ChildChainTransferIsBuilt` | xcm-bridge/src/lib.rs:108-143 | A configuration in which such transfers are built |
| `XcmBridge.FeesStayWithinTheMinimum` | xcm-bridge/src/lib.rs:336-363 | The execution fees in a built program total the configured fee, or its even part when it is halved |
| `XcmBridge.ExtractDestRecomposes` | xcm-bridge/src/lib.rs:246-257 | Accepted destinations are those one level up; chain and recipient recompose to the destination, as junctions and as absolute locations |
| `XcmBridge.TransferToNonReserve` | xcm-bridge/src/lib.rs:295-330 | The builder that reassigns its destination yields the specified program |
| `Bitmap.SetMarksExactlyOne` | bridge/src/lib.rs:877-886 | Marking a nonce marks it and changes no other, in any domain |
| `Bitmap.SetRepresents` | bridge/src/lib.rs:877-886 | A bitmap that represents a set of nonces represents the set with the nonce added |
| `Bitmap.PutThenTest` | bridge/src/lib.rs:877-886 | Within a 64-bit word, setting one bit sets exactly that bit |
| `Bitmap.WordsHoldTheirNonces` | bridge/src/lib.rs:877-886 | Word i of a domain holds its used nonces from 64i on, bit by bit |
| `Bitmap.BitsCountFromTheLowest` | bridge/src/lib.rs:877-886 | The first of them in the lowest bit, the last in the highest |
| `PercentageFee.FeesAreReasonable` | percentage-fee-handler/src/lib.rs:128-145 | In every reachable configuration the fee lies within its bounds, grows with the amount, and is exceeded by the amount if and only if the lower bound is |
| `PercentageFee.FeeIsTheBoundedShare` | percentage-fee-handler/src/lib.rs:128-145 | The fee is a ten-thousandth of the saturated product, rounded down, unless one of the bounds takes its place |
| `PercentageFee.LatestRateIsCharged` | percentage-fee-handler/src/lib.rs:85-145 | What is charged is the fee at the rate of the last accepted setting, and nothing is answered where there was none |
| `PercentageFee.SaturationOnlyUndercharges` | percentage-fee-handler/src/lib.rs:128-145 | The fee never exceeds the ideal one, and equals it under an exact condition on rate and amount |
| `PercentageFee.SaturationUnderchargesHere` | percentage-fee-handler/src/lib.rs:128-145 | A valid rate and an amount that pay less than the ideal fee |
| `PercentageFee.ReachableRatesAreValid` | percentage-fee-handler/src/lib.rs:85-124 | Every configured rate is below 100% with its bounds in order, whatever settings were attempted |
| `PercentageFee.ProportionIsSmaller` | percentage-fee-handler/src/lib.rs:128-145 | A valid proportion of a positive amount is smaller than the amount |
| `PercentageFee.ProportionIsMonotone` | percentage-fee-handler/src/lib.rs:128-145 | A larger amount has no smaller proportion, saturated products included |
| `PercentageFee.FeeHandler.SetFeeRate` | percentage-fee-handler/src/lib.rs:85-124 | Stores exactly the given rate and reports it, or returns the specified error and changes nothing |
| `PercentageFee.FeeHandler.Charge` | percentage-fee-handler/src/lib.rs:128-145 | Answers the specified fee, within the bounds of its rate, and exceeded by the amount if and only if the lower bound is |
| `AccessSegregator.GrantsComeFromTheCommittee` | access-segregator/src/lib.rs:80-99 | In every run each grant leads back through grants of `grant_access` to the committee |
| `AccessSegregator.AccessIsTheLatestGrant` | access-segregator/src/lib.rs:103-122 | The committee always has access; anybody else if and only if they signed, the extrinsic is registered and its latest grant names them |
| `AccessSegregator.GrantsNeedAccess` | access-segregator/src/lib.rs:80-99 | A grant extends a run if and only if the committee makes it or the holder of the latest grant of this pallet's `grant_access` |
| `AccessSegregator.TableIsLatestGrant` | access-segregator/src/lib.rs:28-31 | The stored table holds the latest grant for every key |
| `AccessSegregator.Segregator.GrantAccess` | access-segregator/src/lib.rs:80-99 | Grants if and only if the caller has access to `grant_access`, and otherwise changes nothing |
| `AccessSegregator.Segregator.Check` | access-segregator/src/lib.rs:103-122 | The early exits decide access as specified |
| `Pallet.BridgePallet.Perform` | bridge/src/lib.rs:283-686 | Every extrinsic of the pallet - pausing, setup, registry, retry, deposit, execution - is one step of the state machine: the state it prescribes, or its error and no change |
| `Pallet.BridgePallet.constructor` | bridge/src/lib.rs:239-281 | Empty storage represents the initial state |
| `Pallet.BridgePallet.MakeDeposit` | bridge/src/lib.rs:433-532 | The transactional deposit: the specified state, or the error and the state it found, late failures included |
| `Pallet.BridgePallet.DepositBody` | bridge/src/lib.rs:433-532 | The steps of the body in order reach the specified outcome |
| `Pallet.BridgePallet.CheckDeposit` | bridge/src/lib.rs:439-462 | The early exits give the specified quote or the first error |
| `Pallet.BridgePallet.CompleteDeposit` | bridge/src/lib.rs:464-532 | Moving funds and announcing, in order, reach the specified outcome |
| `Pallet.BridgePallet.TakeFunds` | bridge/src/lib.rs:464-497 | The withdrawals and deposits of the transactor give the specified balances |
| `Pallet.BridgePallet.AnnounceDeposit` | bridge/src/lib.rs:499-531 | Counter, conversion and the two events, with their failures |
| `Pallet.BridgePallet.DepositAsset` | bridge-forwarder/src/xcm_asset_transactor.rs:29-78 | Routing, the nested deposit and its termination; the state kept when the onward leg fails |
| `Pallet.BridgePallet.WithdrawAsset` | bridge-forwarder/src/xcm_asset_transactor.rs:80-92 | Withdraws the amount or leaves the balances |
| `Pallet.BridgePallet.MintTo` | bridge-forwarder/src/xcm_asset_transactor.rs:29-40 | Credits the account of a local recipient or leaves the balances |
| `Pallet.BridgePallet.SendXcm` | bridge-forwarder/src/lib.rs:41-59 | The balances after sending by XCM, half-way stops included |
| `Pallet.BridgePallet.ExecuteProposal` | bridge/src/lib.rs:569-629 | Checks, message, signature and the loop reach the specified state or fail without effect |
| `Pallet.BridgePallet.ExecuteEach` | bridge/src/lib.rs:594-626 | The loop executes the whole list, for lists of any length |
| `Pallet.BridgePallet.ExecuteOneOf` | bridge/src/lib.rs:594-626 | One round: the failure event, or the nonce and the execution event |
| `Pallet.BridgePallet.ExecuteProposalInternal` | bridge/src/lib.rs:889-936 | Checks, withdrawal and delivery; a failed delivery keeps the withdrawal |
| `Pallet.BridgePallet.IsProposalExecuted` | bridge/src/lib.rs:877-879 | The bit test answers whether the nonce is in the set of used nonces |
| `Pallet.BridgePallet.SetProposalExecuted` | bridge/src/lib.rs:882-886 | Setting the bit adds exactly that nonce to the set |
| `Pallet.BridgePallet.SetAllDomains` | bridge/src/lib.rs:939-948 | The two loops set the flag of every registered domain and every domain with an entry |
| `Pallet.BridgePallet.SetEach` | bridge/src/lib.rs:939-948 | One loop: exactly the given domains get the flag, the others keep theirs |

## Left out

- Node, CLI, RPC, chain specifications, weights, benchmarks and scripts: configuration and plumbing.
- `basic-fee-handler`, `dynamic-fee-handler` and `fee-handler-router`: table look-ups and dispatch; the bridge sees any function as its fee handler.
- `bridge/src/migration.rs`: a one-off overwrite of the MPC address, not part of runs.
- Rules of `pallet-balances` and `pallet-assets` (existential deposits, frozen accounts): any of them may refuse an operation, and a refusal changes nothing.
- The XCM executor, its weigher and the arrival of programs on other chains: outcomes on this chain are parameters; programs are followed by viewpoint only.
- The parachain runtime's copies of the converter and reserve check: the same code as the standalone runtime's.
- Non-fungible assets beyond their refusal.
- ExecutedBatchWasSigned: that nothing but signed messages verifies is its hypothesis, since ECDSA recovery is a parameter.
- BatchSquares: covers batches whose recipients are on this chain; other recipients are covered by the Forwarding, Solvency and Stranding lemmas.
- FailureKeepsBalancesExactlyWhen: covers recipients on this chain; with another route a failure also leaves what FailedForwardingStaysInTransit and the XCM outcome say.
- AttemptsAddUp: takes the balance rules to refuse the recipient in every state, as they may change between attempts.
- CallsAddUp: takes the balance rules to refuse the recipient in every state, as they may change between calls.
- CallsIssue: takes the transit account to be creditable in every state, as the balance rules may change between calls.
- Perform: a block's other extrinsics appear only as arbitrary changes of the ledger between calls.
