# A verified model of the Bisq MuSig trade protocol

This project models the two-party trade protocol of the bisq-musig repository in
Dafny and proves what the protocol promises. `dafny verify dfyconfig.toml` checks
all of it.

Four parts of the repository are modelled.

- **The trade model of the gRPC service** (`rpc/src/protocol.rs`, driven by
  `rpc/src/server.rs`): `TradeContexts`, `TradeModels`, `TradeRuns`,
  `TradeSecrets`, `TradeProtocol`. A trade is two key contexts and seven signing
  contexts whose fields fill in call by call. Two such objects exchange keys,
  nonces and partial signatures; proved are agreement of the two sides, atomicity
  of the swap, single use of nonces over every run, and when the swap signature can
  be released.
- **The five-round protocol over a graph of transactions**
  (`protocol/src/protocol_musig_adaptor.rs`): `AggKeys`, `Deposits` (with
  `DepositTxs`), `Contracts`, `FiveRounds`, `FiveRoundRuns`, `FiveRoundKeys`,
  `HonestSigning`, `FiveRoundSafety`, `FiveRoundDeal`, `FiveRoundCompletion`,
  `ContractTerms`, `Redirects`, `Chains`, `Settlements`, `BuyersKey`. Both traders
  build, sign and complete deposit, swap, warning, claim and redirect transactions
  separately. Proved are: the fee arithmetic of the merged deposit and its
  canonical form; convergence of the witness merge; that both sides build the same
  contract; that every key locks what it signs for, every nonce is used at most
  once and what is completed is valid, in every run with arbitrary messages; who is
  paid what by each transaction; that honest traders complete all rounds with valid
  signatures and the buyer learns the seller's key; and, on a chain on which anyone
  may broadcast anything, which contract transactions exclude each other, when they
  are valid, and where the deposited value goes. `SampleDeals` holds concrete deals
  (`HonestDealExists`, `HonestContractExists`: an honest deal with all the theorems
  suppose, from an empty chain to a warning that stands) and concrete failures; its
  transaction identifiers are the numbers of `TxNumbers`.
- **The observable map and the confidence cache** (`rpc/src/observable.rs`,
  `rpc/src/wallet.rs`): `Observables`, `ObservableMaps`, `ObservableRuns`,
  `ObservableTraces`, `Wallets`. Lazily purged streams behind a plain map.
- **The in-memory adaptor exchange** (`adaptor/src/adaptorprotocol.rs`):
  `AdaptorExchange`.

Underneath are the scalars and points of a cyclic group of odd order, left
uninterpreted (`Scalars`); key aggregation, taproot tweaking, partial signing,
aggregation, adaption and reveal as in BIP 327 and BIP 340 (`Musig`); stable
sorting (`Sorting`); and transactions with their identifiers and signature
messages (`Transactions`). Points are held by their discrete logarithm. Hash
functions, the parity of a point, transaction identifiers, signature messages and
the byte order of keys and scripts are parameters, so that every theorem holds for
any of them; that identifiers do not collide is assumed only in `Chains`,
`Settlements` and `BuyersKey`, by name.

Objects whose methods update fields in the source are classes whose methods are
proved equal to a step on values (`Trade`, `Party`, `ObsMap`, `Obs`), and the
theorems about runs and about two parties are about these steps. Secret nonces
carry the draw they came from, and each signing context keeps the list of nonces
it signed with. Panics and error returns alike end a step with a fault.

## What the code does differently from its comments

- The scripts that the deposit merge disregards are commented as including the two
  deposit scripts. The list tweaks the aggregated points, which are tweaked
  already, a second time, and so names other scripts but by chance
  (`DepositTxs.DepositScriptNotListed` has the exact condition). An output of the
  other trader with such a script is therefore kept, and may be taken for the
  deposit's own (`DepositTxs.UnlistedIsPicked`, `DepositTxs.PickedExactly`;
  `SampleDeals.DepositCanBeMistaken` is a case). The merge is modelled as written.
- The shares of a redirect are commented as adding up to one. As single-precision
  numbers 0.6 and 0.4 add up to 1 + 2^-25. Up to 7158280448 satoshis the shares can
  still be paid (`Redirects.SharesFit`), for the next amount not
  (`Redirects.SharesCanExceed`, `Redirects.LargestSafe`), and then the redirect
  transaction can never be confirmed (`Settlements.RedirectNever`).
- The call that combines the partial signatures on the swap input takes the key of
  the caller's own output. For the seller this is the key the shares were made for;
  for the buyer it is the other one (`TradeProtocol.BuyersSwapAggregation` says
  exactly when the buyer's call succeeds, `BuyersSwapAggregationCanFail` is a case
  where it does not). The buyer's swap aggregate is formed with the right key when
  its other signatures are.
- Outputs of the merged deposit are ordered by script alone. Two outputs with one
  script and different values therefore can come out in different orders for the
  two traders, and no other outputs can (`DepositTxs.CanonicalExactly`;
  `SampleDeals.DepositsCanDiffer` is a case).
- Where the buyer learns the secret of P' from the swap transaction, on the chain
  or in the mempool, a comment says that no transaction of the seller can interfere
  with the key. But the seller's warning can be confirmed until the swap is, or a
  warning, or a spending of the first output (`BuyersKey.SafeExactly`). And the
  same secret opens more than the deposit's first output: the buyer's own warning
  pays to P' too, so as long as the swap is seen but not confirmed the buyer can
  have that warning and a spending of its output confirmed in one block, ahead of
  claim and redirect (`BuyersKey.OneBlock`; `BuyersKey.OpenExactly` says until
  when).
- The buyer's share on the swap input is optional in the messages, so that it can
  be kept from the seller until payment has started. The service always answers
  with it, as the note at the top of `rpc/src/server.rs` admits
  (`TradeProtocol.SigsAnswerHasSwap`); in the model of a whole trade, as in the
  Java client, it is struck out on the way to the seller.

## Model

| member | source | states |
|---|---|---|
| `Musig.AggregateOfSecrets` | protocol/src/protocol_musig_adaptor.rs:992-997 | the aggregated key of two secrets is the sum of both, each weighted with its coefficient for the ordered pair, and exists unless that sum is zero; tweaking adds the hash of the even point to it |
| `Musig.TweakKeepsKeys` | protocol/src/protocol_musig_adaptor.rs:997-999 | taproot tweaking keeps the aggregate equal to the weighted, possibly negated sum of the two keys plus the tweak, and removing the tweak gives back the untweaked key |
| `Musig.SigningSucceeds` | rpc/src/protocol.rs:555-570 | a partial signature can be made exactly by a holder of one of the two aggregated keys, the only error is an unknown key, and the result passes its own verification |
| `Musig.OnlyOneShare` | rpc/src/protocol.rs:555-570 | a partial signature is accepted for a key and a nonce exactly if it is the one their holder makes |
| `Musig.HonestAggregation` | rpc/src/protocol.rs:580-593 | two honest shares on one input aggregate, in either order and with the same result, exactly when R1 + b*R2 is not infinity; whatever the tweak, the parities and the adaptor point |
| `Musig.AdaptVerifies` | rpc/src/protocol.rs:418-424 | adding the adaptor secret to a valid adaptor signature fails exactly when the adapted nonce is infinity, and otherwise gives a BIP 340 signature |
| `Musig.RevealFromSignature` | rpc/src/protocol.rs:426-432 | any valid plain signature on the adapted nonce, whoever made it, gives the holder of the adaptor signature exactly the adaptor secret, for either nonce parity |
| `Musig.RevealInvertsAdapt` | adaptor/src/adaptorprotocol.rs:181-192 | reveal undoes adapt for every signature whose nonce is not infinity |
| `Scalars.MulIsResidue` | concept/MuSig2adaptor-rust.md:28-131 | the k-fold sum used as scalar multiplication is the product modulo the group order |
| `Scalars.BaseMulIsScalarMul` | protocol/src/protocol_musig_adaptor.rs:977-985 | the public point of a secret is the secret-fold sum of the generator |
| `AdaptorExchange.M2a.ExchangePubkey` | adaptor/src/adaptorprotocol.rs:87-104 | the aggregate of exactly the own and the other's key, the larger first, is set together with the other's key, or nothing but the other's key is |
| `AdaptorExchange.M2a.ExchangePartSig` | adaptor/src/adaptorprotocol.rs:140-162 | the own share is handed out only when both shares form a valid adaptor signature, which is then kept; otherwise nothing is kept |
| `AdaptorExchange.M2a.SignAndPublish` | adaptor/src/adaptorprotocol.rs:164-179 | what is published is the adapted signature and is valid for the aggregated key; every failure has its cause |
| `AdaptorExchange.M2a.MsAdaptor` | adaptor/src/adaptorprotocol.rs:54-68 | the whole exchange on two objects: it succeeds exactly when key, nonce sum and adapted nonce are not infinity, the other side then learns exactly this side's adaptor secret, and learns nothing otherwise |
| `AdaptorExchange.ExchangeReveals` | adaptor/src/adaptorprotocol.rs:54-68 | both sides form the same adaptor signature from shares made separately, and its adapted form is valid and reveals the secret |
| `TradeContexts.KeyCtx.AggregateKeyShares` | rpc/src/protocol.rs:482-488 | object refines the value step: buyer's key first on both sides; keys unchanged on failure |
| `TradeContexts.KeyCtx.AggregatePrvKeyShares` | rpc/src/protocol.rs:498-506 | object refines the value step: the aggregated secret is stored only if it belongs to the aggregated key |
| `TradeContexts.KeyCtx.SetSellersPrvKeyIfBuyer` | rpc/src/protocol.rs:516-521 | object refines the value step: only the buyer takes the seller's secret, and only if it matches the known public share |
| `TradeContexts.SigCtx.InitMyNonceShare` | rpc/src/protocol.rs:525-531 | object refines the value step: a nonce is drawn for the aggregated key or the context stays as it was |
| `TradeContexts.SigCtx.AggregateNonceShares` | rpc/src/protocol.rs:541-553 | object refines the value step: both nonces are summed, buyer's first; two zero sums are refused |
| `TradeContexts.SigCtx.SignPartial` | rpc/src/protocol.rs:555-570 | object refines the value step: the secret nonce leaves the context before signing is tried, also when signing fails |
| `TradeContexts.SigCtx.AggregatePartialSignatures` | rpc/src/protocol.rs:580-593 | object refines the value step: shares are combined under the given key and stored only if the sum is a valid adaptor signature |
| `TradeModels.TradeModel.SetPeerKeyShares` | rpc/src/protocol.rs:167-174 | object with two key contexts and seven signing contexts refines the value step: for the buyer the swap's adaptor point becomes the seller's share for the buyer output |
| `TradeModels.TradeModel.AggregateKeyShares` | rpc/src/protocol.rs:176-181 | object with two key contexts and seven signing contexts refines the value step: both output keys, stopping at the first failure |
| `TradeModels.TradeModel.InitMyNonceShares` | rpc/src/protocol.rs:236-253 | object with two key contexts and seven signing contexts refines the value step: seven draws in the source's order, each for the key that locks the spent output |
| `TradeModels.TradeModel.AggregateNonceShares` | rpc/src/protocol.rs:291-300 | object with two key contexts and seven signing contexts refines the value step: seven sums in the source's order, stopping at the first failure |
| `TradeModels.TradeModel.SignPartial` | rpc/src/protocol.rs:302-322 | object with two key contexts and seven signing contexts refines the value step: seven signatures with the right key and message each, stopping at the first failure |
| `TradeModels.TradeModel.SetPeerPartialSignaturesOnMyTxs` | rpc/src/protocol.rs:342-355 | object with two key contexts and seven signing contexts refines the value step: the peer's shares go to the own warning and redirect inputs and, if supplied, to the swap |
| `TradeModels.TradeModel.AggregatePartialSignatures` | rpc/src/protocol.rs:357-373 | object with two key contexts and seven signing contexts refines the value step: only own inputs are completed; for the buyer also the swap |
| `TradeModels.TradeModel.AggregateSwapPartials` | rpc/src/protocol.rs:379-387 | object with two key contexts and seven signing contexts refines the value step: the key context used is that of the caller's own output |
| `TradeModels.TradeModel.ComputeSwapSignature` | rpc/src/protocol.rs:418-424 | object with two key contexts and seven signing contexts refines the value step: fails without the aggregate, and otherwise adapts it by the own share for the peer's output |
| `TradeModels.TradeModel.RecoverSellersPrvKeyShare` | rpc/src/protocol.rs:426-432 | object with two key contexts and seven signing contexts refines the value step: the revealed secret is stored as the seller's share of the buyer output if it matches |
| `TradeModels.ChainOfSeven` | rpc/src/protocol.rs:291-300 | running one operation over a list of seven contexts is the seven calls in that order, with the first failure stopping the rest |
| `TradeModels.InSourceOrder` | rpc/src/protocol.rs:176-373 | key aggregation, drawing, summing, signing and aggregating are these single calls in this order |
| `TradeProtocol.HandleInitTrade` | rpc/src/server.rs:36-52 | a new trade object holding the two drawn shares, for the seller with the swap's adaptor point, and both public points as the answer |
| `TradeProtocol.HandleGetNonceShares` | rpc/src/server.rs:54-80 | makes exactly the calls of the handler, in its order and up to the first failure, and answers the seven nonce shares or, if one is missing, the failure |
| `TradeProtocol.NonceAnswerIs` | rpc/src/server.rs:72-80 | without a failure the answer is always there, and is the public parts of the nonces just drawn |
| `TradeProtocol.HandleGetPartialSignatures` | rpc/src/server.rs:82-99 | a request without nonces fails and changes nothing; otherwise likewise, and answers the own shares on the peer's transactions, or the failure if one is missing |
| `TradeProtocol.SigsAnswerHasSwap` | rpc/src/server.rs:94-97 | without a failure the answer is always there and holds, for either role, the share on the swap input besides the three others: the service holds nothing back, as the note at the top of the file says |
| `TradeProtocol.HandleSignDepositTx` | rpc/src/server.rs:101-110 | a request without signatures fails and changes nothing; otherwise the two calls, the first failure stopping |
| `TradeProtocol.HandleSignSwapTx` | rpc/src/server.rs:128-142 | likewise. Stated without the step function: only the swap's context changes, there is an answer exactly without a failure, and it is the aggregate adapted by the seller's secret and the own share for the peer's output |
| `TradeProtocol.HandleCloseTrade` | rpc/src/server.rs:144-162 | likewise. Stated without the step function: given neither a share nor a signature nothing changes and the own share for the peer's output is answered; given a share, with or without a signature, it is set and aggregated for the own output alone, and any failure leaves no answer |
| `TradeProtocol.CloseBySignature` | rpc/src/server.rs:150-155 | in any state a buyer who supplies a signature that reveals a secret ends as if told that secret, a seller's only aggregates its own, and a signature that reveals nothing changes nothing |
| `TradeProtocol.ChainResult` | rpc/src/protocol.rs:291-322 | an operation over distinct contexts acts on each by itself and succeeds exactly when each single one does |
| `TradeProtocol.HonestSetupResult` | rpc/src/server.rs:36-112 | the calls up to the signed deposit succeed on both sides exactly when no key and no nonce sum of the random values is infinity, and then leave both in fully determined states |
| `TradeProtocol.SetupAgreement` | rpc/src/protocol.rs:291-373 | two-party agreement: equal aggregated keys, and equal nonces, messages and adaptor points in all seven contexts; own warning and redirect aggregates are plain signatures; the buyer's swap aggregate is an adaptor signature for the seller's share; the seller has no swap aggregate and no buyer share of it |
| `TradeProtocol.SetupByField` | rpc/src/protocol.rs:236-373 | after the calls up to the signed deposit, field by field: which two shares make up each output's key and in what order, each input's two nonces, message and adaptor point, and under which output's key each own warning, redirect and swap input is signed |
| `TradeProtocol.SwapAtomicity` | rpc/src/protocol.rs:379-432 | after any set-up: the seller's swap signature exists unless the adapted nonce is infinity, is valid under the seller output's key, and it or any other valid signature on that nonce gives the buyer exactly the seller's share and the buyer output's secret key, with the same state as receiving the share; the buyer's answer gives the seller the other key |
| `TradeProtocol.BuyerRecovers` | rpc/src/protocol.rs:426-432 | recovery from any valid signature on the adapted nonce never fails and equals the state after being told the share |
| `TradeProtocol.SellerCloses` | rpc/src/protocol.rs:407-416 | with the buyer's share the seller's aggregated secret has the seller output's aggregated key as public point |
| `TradeProtocol.BuyersSwapAggregation` | rpc/src/protocol.rs:379-387 | called by the buyer of an honest trade it succeeds exactly when the buyer output's key and the seller output's key ask for the same signature point: the branch picks another key than the shares were made for |
| `TradeProtocol.BuyersSwapAggregationCanFail` | rpc/src/protocol.rs:379-387 | a concrete honest trade, in every group of order 7 or more, where that call fails |
| `TradeSecrets.StoredSecretsFit` | rpc/src/protocol.rs:450-521 | over every sequence of calls with any messages: a stored secret belongs to its public point, the aggregated point is that of the aggregated key, and an input has a nonce only after the key of its output was aggregated |
| `TradeSecrets.GivenSecretFits` | rpc/src/protocol.rs:450-456 | a secret from the peer is taken exactly if it belongs to the peer's point, and otherwise changes nothing |
| `TradeSecrets.OnlyValidAggregates` | rpc/src/protocol.rs:580-593 | whatever share the peer sent, an aggregate is stored only if it is a valid adaptor signature for the message under the given key |
| `TradeSecrets.OnlyLiveNonces` | rpc/src/protocol.rs:541-553 | the nonces are summed exactly unless one is missing or they cancel in both parts |
| `TradeRuns.NonceSingleUse` | rpc/src/protocol.rs:555-570 | over every sequence of calls, failing and repeated ones included, no secret nonce is used in two signing events, in one context or in two, and each was a drawn one |
| `TradeRuns.AttemptTakesNonce` | rpc/src/protocol.rs:555-570 | over runs: once a signing call went through, or failed after reaching a context, no sequence of calls without a new draw signs in that context or gives it a nonce, and every further signing call fails |
| `TradeRuns.SwapReleaseGate` | rpc/src/protocol.rs:379-424 | in every state a seller can reach, the swap signature is refused for want of the aggregate exactly when no aggregation of the swap input has succeeded, and one succeeds only after a call that gave the buyer's share on that input, alone or with the others, and was not followed by one that took it back |
| `TradeRuns.SwapSigFormed` | rpc/src/protocol.rs:379-387 | the seller's swap aggregate is present exactly when some earlier call of the run aggregated it |
| `Observables.Observable.Observe` | rpc/src/observable.rs:29-34 | a new stream is added at the end and starts with the current value |
| `Observables.Observable.Replace` | rpc/src/observable.rs:38-47 | after each replace the senders are exactly the open streams, in order, each sent the new value exactly when it differs from the old |
| `Observables.ReplaceLeavesOpen` | rpc/src/observable.rs:38-47 | after a replacement the lines are those of the open streams and no others, in order, each with the value added exactly if it is new |
| `Observables.Observable.TryIntoUnobserved` | rpc/src/observable.rs:22-25 | closed streams are purged, and the value comes out exactly when none is left open |
| `ObservableMaps.ObservableHashMap.Observe` | rpc/src/observable.rs:70-75 | an absent key gets an empty observable; no other key changes |
| `ObservableMaps.ObservableHashMap.Insert` | rpc/src/observable.rs:82-91 | returns what the plain map held; only the observable of this key changes |
| `ObservableMaps.ObservableHashMap.Remove` | rpc/src/observable.rs:93-104 | returns what the plain map held; the key stays inside exactly while somebody listens, who is told None |
| `ObservableMaps.ObservableHashMap.Sync` | rpc/src/observable.rs:111-120 | the loop over entries and the loop over the shrinking set of remaining keys amount to inserting the list and removing the rest, in any order of removal |
| `ObservableRuns.PlainOperations` | rpc/src/observable.rs:66-105 | observe, insert and remove are the identity, update and removal of the plain map of keys that hold a value |
| `ObservableRuns.SyncIsAssignment` | rpc/src/observable.rs:111-120 | after sync the plain map is the list, and the keys inside are the listed ones plus absent ones still observed |
| `ObservableRuns.SyncIgnoresOrder` | rpc/src/observable.rs:111-120 | two lists of the same entries with distinct keys give the same observable map, streams included |
| `ObservableRuns.SyncStreams` | rpc/src/observable.rs:111-120 | a sync sends each listening stream exactly one item if its key's value changed and none otherwise, and disconnects nobody |
| `ObservableRuns.RunIsPlain` | rpc/src/observable.rs:66-120 | over every run of watch, put, delete and hang-up the plain map is what the same run makes of an ordinary map |
| `ObservableRuns.StreamHistory` | rpc/src/observable.rs:22-52 | over every run each open stream carries exactly its key's history since it was opened without consecutive repetitions, through removal and reinsertion, and ends with the current value |
| `ObservableRuns.NeverDisconnected` | rpc/src/observable.rs:93-105 | over every run an observer that does not hang up keeps its stream |
| `ObservableRuns.SyncIsRun` | rpc/src/observable.rs:111-120 | in any state a run can reach, a sync is a run of insertions, one for each entry in order, and of removals, one for each key not listed; so the theorems over runs cover runs with syncs in them |
| `ObservableTraces.TraceIsRun` | rpc/src/observable.rs:66-120 | every sequence of calls on the object, in which new channels name the observers, leaves the map that the run with positions for names leaves, line by line |
| `ObservableTraces.ChannelHistory` | rpc/src/observable.rs:22-52 | so on the object each channel still listened to carries the history of the key it was made for, since then, without repetitions, up to the current value |
| `ObservableTraces.ChannelStays` | rpc/src/observable.rs:93-105 | and a channel that is never dropped stays connected |
| `ObservableMaps.ObservableHashMap.HangUp` | rpc/src/observable.rs:21-47 | an observer's drop closes exactly its own line in the map and changes nothing else; the sender is forgotten later |
| `Wallets.ConfirmationCount` | rpc/src/wallet.rs:78-87 | height plus confirmations is the next height for confirmed transactions up to it, and at least one confirmation means confirmed exactly unless the transaction claims the very next block |
| `Wallets.SyncedSaysEntry` | rpc/src/wallet.rs:68-71 | after a sync each open stream's last item is its transaction's entry, or None |
| `Wallets.EntriesOfWallet` | rpc/src/wallet.rs:78-87 | when each transaction is listed once the entries map it to its confidence |
| `Wallets.WalletService.SyncTxConfidenceMap` | rpc/src/wallet.rs:68-71 | afterwards the plain cache is the wallet's transactions with their confidence and every open stream last said so |
| `Wallets.WalletService.GetTxConfidenceStream` | rpc/src/wallet.rs:155-159 | opens one stream, and every stream still says the current value |
| `Wallets.WalletService.Poll` | rpc/src/wallet.rs:126-141 | one round of the loop: any number of blocks and then the mempool reach the wallet, and one sync after the last of them makes the cache and every open stream say what the wallet then lists |
| `Redirects.RoundedNear` | protocol/src/protocol_musig_adaptor.rs:438-445 | rounding to 24 significant bits, ties to even, moves a number by at most one part in 2^24 |
| `Redirects.RoundedExactly` | protocol/src/protocol_musig_adaptor.rs:438-445 | it is the nearest multiple of the last bit's weight, and of two equally near the even one |
| `Redirects.SharesNear` | protocol/src/protocol_musig_adaptor.rs:438-445 | the first share is six tenths and the second four tenths of the amount, to within three parts in 2^24 and one satoshi, for all 64-bit amounts |
| `Redirects.FeeNearNominal` | protocol/src/protocol_musig_adaptor.rs:432-451 | for amounts up to 2^31 the fee left by the two truncated products and the anchor is between 349 and 865 satoshis, nominally 670 |
| `Redirects.SharesFit` | protocol/src/protocol_musig_adaptor.rs:499-505 | for every amount up to 7158280448 satoshis the shares and the anchor do not exceed the warning funds |
| `Redirects.SharesCanExceed` | protocol/src/protocol_musig_adaptor.rs:499-505 | for the next amount they exceed them by 97, since 0.6 and 0.4 in single precision add up to 1 + 2^-25 |
| `Redirects.LargestSafe` | protocol/src/protocol_musig_adaptor.rs:499-505 | the bound is exact: the shares can be paid for all amounts up to a bound exactly when it is at most 7158280448 |
| `Sorting.SortIs` | protocol/src/protocol_musig_adaptor.rs:1316-1334 | sorting gives an ascending permutation |
| `Sorting.OrderIndependence` | protocol/src/protocol_musig_adaptor.rs:1310-1315 | the sorted list is the same for all orders of the input exactly when elements with equal keys are equal |
| `Transactions.CalcPrevouts` | protocol/src/protocol_musig_adaptor.rs:1291-1308 | the loop returns one output per input, in order, namely the referenced one, and fails exactly when some input names another transaction or an index out of range |
| `Transactions.OutputIndex` | protocol/src/protocol_musig_adaptor.rs:1267-1270 | the first output with the script, if there is one |
| `Transactions.WitnessesDoNotCount` | protocol/src/protocol_musig_adaptor.rs:1232-1242 | identifier, messages and referenced outputs are those of the transaction without witnesses |
| `AggKeys.AggregateAgrees` | protocol/src/protocol_musig_adaptor.rs:987-1004 | both holders compute the same aggregate or the same failure, whichever point is smaller |
| `AggKeys.SmallerFirst` | protocol/src/protocol_musig_adaptor.rs:987-997 | aggregated are exactly the own and the other's point, the smaller first, and never two equal ones |
| `AggKeys.OnlyFittingSecret` | protocol/src/protocol_musig_adaptor.rs:1189-1203 | whatever secret is offered, an aggregated secret is stored only if it is the one behind the aggregated point |
| `AggKeys.ScriptLocksAggregate` | protocol/src/protocol_musig_adaptor.rs:1006-1011 | the address of the untweaked aggregate commits to exactly the point the tweaked context signs for |
| `AggKeys.SecretOfAggregate` | protocol/src/protocol_musig_adaptor.rs:1189-1203 | with the other's secret the aggregated secret has the aggregated point as public point, whichever point is smaller |
| `Deposits.TxBuilder.Merge` | protocol/src/protocol_musig_adaptor.rs:1341-1363 | both loops: inputs and kept outputs are appended in order, the running total is the 64-bit wrapped exact sum, and it fails exactly when an input is unknown or lacks its output |
| `Deposits.SortKeepsPairs` | protocol/src/protocol_musig_adaptor.rs:1316-1334 | the PSBT entries stay with their inputs and outputs, and the transaction's lists are sorted |
| `DepositTxs.CheckNotMine` | protocol/src/protocol_musig_adaptor.rs:861-868 | passes exactly when every foreign input has an output that is not the wallet's own |
| `DepositTxs.BuildAndMergeTx` | protocol/src/protocol_musig_adaptor.rs:859-916 | checks, both merges, fee, builder, sort and signing give the merged transaction of the specification, or leave the state as it was |
| `DepositTxs.ExactFee` | protocol/src/protocol_musig_adaptor.rs:899-903 | with the total cast to an unsigned number as absolute fee the builder succeeds exactly when the inputs cover the outputs, and then adds no change output |
| `DepositTxs.MergedIs` | protocol/src/protocol_musig_adaptor.rs:859-916 | merging succeeds exactly when keys are set, nothing of the wallet's own is spent by the other, and the inputs cover the outputs |
| `DepositTxs.DepositBalances` | protocol/src/protocol_musig_adaptor.rs:875-899 | inputs minus outputs is exactly the running total, and the outputs are the two deposits and all kept change, in some order |
| `DepositTxs.MergedInOrder` | protocol/src/protocol_musig_adaptor.rs:1310-1334 | its inputs ascend by transaction identifier and then output number, its outputs by script |
| `DepositTxs.MergedIsSigned` | protocol/src/protocol_musig_adaptor.rs:907-915 | each input that spends an output of the wallet's own carries the wallet's signature of the transaction in its final order |
| `DepositTxs.SameTotals` | protocol/src/protocol_musig_adaptor.rs:888-899 | both traders keep the same outputs and compute the same total |
| `DepositTxs.FeeIsSumOfParts` | protocol/src/protocol_musig_adaptor.rs:841-857 | when each part has one disregarded output of its owner's amount, the combined fee is the sum of the parts' fees |
| `DepositTxs.NoOverflow` | protocol/src/protocol_musig_adaptor.rs:876-899 | with amounts up to 21 million bitcoins and at most 4392 entries no value of the running total leaves 64 bits during either merge; and when each part pays one trader's share and its own fee, the total is not negative and the cast to unsigned keeps it |
| `DepositTxs.CanonicalDeposit` | protocol/src/protocol_musig_adaptor.rs:859-916 | two separately merged PSBTs become the identical unsigned transaction for all orders their builders draw, if outputs with equal scripts are equal |
| `DepositTxs.CanonicalExactly` | protocol/src/protocol_musig_adaptor.rs:1316-1334 | and only then: for two different recipients with one script there are orders that end in different transactions |
| `SampleDeals.DepositsCanDiffer` | protocol/src/protocol_musig_adaptor.rs:1310-1334 | concrete parts for which they do: two change outputs of one script, with 100 and 200 satoshis |
| `DepositTxs.PickedExactly` | protocol/src/protocol_musig_adaptor.rs:1267-1270 | searching the merged deposit for a recipient's script finds that recipient, for all orders the builders draw, exactly when all recipients with the script are the same |
| `DepositTxs.DepositScriptNotListed` | protocol/src/protocol_musig_adaptor.rs:886-895 | a deposit script is in the whole list of six exactly when one of the six points, tweaked as an address tweaks it, is the deposit key up to sign; for the key's own entry exactly when that second tweak is zero or is minus twice the even key |
| `DepositTxs.UnlistedIsPicked` | protocol/src/protocol_musig_adaptor.rs:888-897 | so an output of the other part that pays to an unlisted deposit script is kept, and for some order a search for the deposit's output finds that one |
| `SampleDeals.DepositCanBeMistaken` | protocol/src/protocol_musig_adaptor.rs:888-897 | concrete keys and hashes for which the deposit script is in none of the six entries, and a part whose output of 1 satoshi is found in place of the deposit's 5000 |
| `DepositTxs.TransferSig` | protocol/src/protocol_musig_adaptor.rs:918-942 | the loop completes the own PSBT from the other's witnesses, or leaves the state as it was; it always refuses a PSBT of another transaction |
| `DepositTxs.CompletedIs` | protocol/src/protocol_musig_adaptor.rs:925-936 | completion succeeds exactly for a PSBT of the same transaction with no input unsigned on both sides; then every input is filled, own witnesses are kept, each taken one is from the input that spends the same output, and the identifier stays |
| `DepositTxs.CompletionConverges` | protocol/src/protocol_musig_adaptor.rs:918-942 | when each input is signed by one of the two, both end with the same signed transaction |
| `DepositTxs.SignedOnce` | protocol/src/protocol_musig_adaptor.rs:910-915 | wallets that sign what they brought sign each input of the merged transactions exactly once |
| `FiveRounds.BMPProtocol.CheckRound` | protocol/src/protocol_musig_adaptor.rs:393-398 | passes and advances exactly from the round before |
| `ContractTerms.SwapTerms` | protocol/src/protocol_musig_adaptor.rs:723-756 | in an honest deal both hold a swap that spends the deposit's output of the buyer's amount under Q' and pays it, less 1000, to the seller's address |
| `ContractTerms.WarningTerms` | protocol/src/protocol_musig_adaptor.rs:617-640 | each trader's warning spends both outputs of the deposit and pays the sum, less 1330, to Q' if it is the seller's and to P' if the buyer's, and 330 to the owner's anchor |
| `ContractTerms.ClaimTerms` | protocol/src/protocol_musig_adaptor.rs:525-553 | each trader's claim spends the own warning's first output after two blocks and pays it, less 1000, to the owner |
| `ContractTerms.RedirectTerms` | protocol/src/protocol_musig_adaptor.rs:432-469 | each trader's redirect spends the other's warning's first output after one block and pays six tenths and four tenths of it, less fee and anchor, to the two receivers, and 330 to the owner's anchor |
| `ContractTerms.FirstRoundGives` | protocol/src/protocol_musig_adaptor.rs:240-265 | the first message holds the own points, part and addresses, with a swap address from the seller only; a round that cannot fund fails and still counts |
| `ContractTerms.SecondRoundRefuses` | protocol/src/protocol_musig_adaptor.rs:267-277 | a second round fails before it builds anything when the two points received are equal or one is the own point |
| `ContractTerms.ThirdRoundRefuses` | protocol/src/protocol_musig_adaptor.rs:326-332 | a third round fails before it signs anything when the other's aggregated keys differ or its deposit is another transaction or not fully signed, and fails when the broadcast does |
| `ContractTerms.FifthRoundTakes` | protocol/src/protocol_musig_adaptor.rs:382-391 | whatever transaction is shown, the buyer's fifth round succeeds only with a non-zero secret that gives the secret of P', and the seller's changes nothing |
| `Contracts.OnlyValidAggregate` | protocol/src/protocol_musig_adaptor.rs:1117-1151 | whatever the other sends, a context takes an aggregate only if the share is right for the other's key and nonce and the aggregate a valid adaptor signature for its message, key and adaptor point |
| `Contracts.OnlyValidWitness` | protocol/src/protocol_musig_adaptor.rs:1152-1176 | whatever the secret, a witness is put in only if it is a valid signature for the message under the key, at the input that was signed |
| `Contracts.OnlyRealSecret` | protocol/src/protocol_musig_adaptor.rs:1178-1187 | a secret comes out exactly if the signature reveals one and it is not zero |
| `FiveRoundSafety.CompletedIsValid` | protocol/src/protocol_musig_adaptor.rs:362-380 | over every sequence of round calls with arbitrary messages: if the fourth round succeeds, the own warning, claim and redirect, and the seller's swap, are valid spends of the outputs they name |
| `FiveRounds.BMPProtocol.Round1` | protocol/src/protocol_musig_adaptor.rs:240-265 | the object's fields and the answer are those of the value step, also where the round stops half-way; the theorems below are about these steps |
| `FiveRounds.BMPProtocol.Round2` | protocol/src/protocol_musig_adaptor.rs:267-325 | the object's fields and the answer are those of the value step, also where the round stops half-way; the theorems below are about these steps |
| `FiveRounds.BMPProtocol.Round3` | protocol/src/protocol_musig_adaptor.rs:326-361 | the object's fields and the answer are those of the value step, also where the round stops half-way; the theorems below are about these steps |
| `FiveRounds.BMPProtocol.Round4` | protocol/src/protocol_musig_adaptor.rs:362-380 | the object's fields and the answer are those of the value step, also where the round stops half-way; the theorems below are about these steps |
| `FiveRounds.BMPProtocol.Round5` | protocol/src/protocol_musig_adaptor.rs:382-391 | the object's fields and the answer are those of the value step, also where the round stops half-way; the theorems below are about these steps |
| `FiveRounds.BMPProtocol.SpendWarnings` | protocol/src/protocol_musig_adaptor.rs:293-309 | claim and redirect transactions crosswise: own claim and peer redirect on the own warning, own redirect and peer claim on the peer's |
| `FiveRoundRuns.RoundGuardedNonces` | protocol/src/protocol_musig_adaptor.rs:1071-1108 | over every sequence of round calls with arbitrary messages each of the nine contexts signs at most once, not before round three, with the nonce given to it in the one second round that ran |
| `FiveRoundRuns.NoSharedNonce` | protocol/src/protocol_musig_adaptor.rs:1071-1108 | so if those nine nonces come from different draws, no two signatures of a run share one, in one context or in two, and none is made with the constant placeholder |
| `FiveRoundRuns.ThirdRound` | protocol/src/protocol_musig_adaptor.rs:326-361 | wherever the third round stops, each context signed at most once, with its own nonce |
| `FiveRoundKeys.KeysLockPrevouts` | protocol/src/protocol_musig_adaptor.rs:617-663 | over every sequence of round calls with arbitrary messages, whenever a contract transaction and its context exist, every input of it spends an output of the named transaction and the context's key locks the one it signs for |
| `FiveRoundKeys.SecondRoundMatches` | protocol/src/protocol_musig_adaptor.rs:267-325 | the second round establishes this wherever it stops |
| `FiveRoundKeys.ThirdRoundOnlySigns` | protocol/src/protocol_musig_adaptor.rs:326-361 | the third round changes witnesses and signing progress only |
| `HonestSigning.ContextAggregates` | protocol/src/protocol_musig_adaptor.rs:1117-1151 | the peer's share is accepted exactly when the nonces do not cancel, and the context then holds the joint signature |
| `HonestSigning.JointIs` | protocol/src/protocol_musig_adaptor.rs:1152-1187 | the joint signature is the same on both sides, becomes valid with the adaptor secret unless the adapted nonce is infinity, and shows the secret |
| `HonestSigning.SignatureSpends` | protocol/src/protocol_musig_adaptor.rs:1152-1176 | a signature valid for the message makes the input a valid taproot spend, also after other witnesses are filled in |
| `FiveRoundDeal.MergedSame` | protocol/src/protocol_musig_adaptor.rs:859-916 | in an honest deal both merge, to the same transaction, of which each signs its own inputs |
| `FiveRoundDeal.SecondRoundBuilds` | protocol/src/protocol_musig_adaptor.rs:267-325 | both honest traders pass the second round, and into exactly this state and message |
| `FiveRoundDeal.Mirror` | protocol/src/protocol_musig_adaptor.rs:267-325 | mirror theorem: one trader's own warning, claim and redirect are the other's peer ones, the swap and the deposit are the same, and so are both keys |
| `FiveRoundCompletion.MatchedContexts` | protocol/src/protocol_musig_adaptor.rs:326-361 | after round three each of the nine mirrored pairs of contexts has one key, aggregated nonce, message, input and adaptor point |
| `FiveRoundCompletion.ThirdRoundSigns` | protocol/src/protocol_musig_adaptor.rs:326-361 | both honest traders pass the third round, each share made for the peer's context it is sent to |
| `FiveRoundCompletion.DepositCompletes` | protocol/src/protocol_musig_adaptor.rs:918-942 | both honest traders complete the deposit, to the same transaction with the identifier used in round two |
| `FiveRoundCompletion.FourthRoundCompletes` | protocol/src/protocol_musig_adaptor.rs:362-380 | round four succeeds for a trader exactly when the nonces of the five signatures it completes do not cancel, and then its warning, claim and redirect, and for the seller the swap, are valid in every input |
| `FiveRoundCompletion.Completion` | protocol/src/protocol_musig_adaptor.rs:326-391 | five-round completion: no round fails; same signed deposit; the seller's swap is valid under Q'; the buyer ends with the seller's secret and with a secret whose public point is P' |
| `FiveRoundDeal.FirstMessages` | protocol/src/protocol_musig_adaptor.rs:240-265 | the messages and states the later rounds start from are what round one gives |
| `Chains.RunsAreSound` | protocol/src/protocol_musig_adaptor.rs:454-465 | over every run of blocks, minting and arbitrary transactions no output is spent twice and no input, of minted coins or others, before its relative lock time has passed |
| `Chains.RunsConserve` | protocol/src/protocol_musig_adaptor.rs:432-469 | over every run the unspent value and the fees add up to what was minted |
| `Settlements.AtMostOne` | protocol/src/protocol_musig_adaptor.rs:617-647 | on every chain at most one of the swap and the two warnings is confirmed, and at most one of the claim and the redirect that spend the same warning |
| `Settlements.SpentAfterWarning` | protocol/src/protocol_musig_adaptor.rs:525-553 | a claim or redirect is confirmed only after the warning it spends, two and one blocks later at the least |
| `Settlements.DepositSpendable` | protocol/src/protocol_musig_adaptor.rs:617-640 | while the deposit's outputs are unspent the swap and both warnings can be confirmed at once, and a confirmed warning's output stands from that block on |
| `Settlements.WarningSpends` | protocol/src/protocol_musig_adaptor.rs:432-465 | with the warning's output unspent since a height, the redirect is valid exactly when a block has passed and its shares and anchor do not exceed the funds, the claim exactly when two blocks have |
| `Settlements.RedirectFirst` | protocol/src/protocol_musig_adaptor.rs:452-459 | with the warning's output unspent since a height, the redirect is valid exactly from one and the claim exactly from two blocks later, so at one height only the redirect is |
| `Settlements.RedirectNever` | protocol/src/protocol_musig_adaptor.rs:432-451 | when the shares exceed the funds no height makes the redirect valid, while the claim is valid from two blocks on |
| `Settlements.RedirectCanBeInvalid` | protocol/src/protocol_musig_adaptor.rs:432-451 | a concrete total of the two deposits for which this happens |
| `Settlements.ContractConserves` | protocol/src/protocol_musig_adaptor.rs:617-640 | on any chain on which the deposit stands, in every run from there, minting and foreign transactions included, in which the contract's outputs are spent as agreed: what swap, claim and redirect pay, the warnings' anchors, the fees of all of them, the outputs taken with the secret of P' (the deposit's first, the buyer's warning's first), and what is unspent of the deposit and of the warnings' first outputs add up to the two deposited amounts |
| `BuyersKey.TakingIsSigned` | protocol/src/protocol_musig_adaptor.rs:806-819 | with the secret that round five leaves with the buyer, the deposit's first output and the first output of the buyer's own warning can each be spent to anywhere by a valid signature |
| `BuyersKey.TakingFits` | protocol/src/protocol_musig_adaptor.rs:617-640 | where the buyer's warning stands, its output can be taken in the warning's own block, exactly for outputs up to the funds |
| `BuyersKey.NothingAfter` | protocol/src/protocol_musig_adaptor.rs:617-647 | once anything spends the first output of the buyer's warning, in no later run can the swap, a warning, a claim or a redirect be confirmed |
| `BuyersKey.OneBlock` | protocol/src/protocol_musig_adaptor.rs:802-819 | all of it together: while the deposit's outputs are unspent, the buyer's warning and a validly signed transaction taking its whole output fit in one block, and nothing of the contract can follow |
| `BuyersKey.OpenExactly` | protocol/src/protocol_musig_adaptor.rs:617-647 | in a run as agreed from the deposit, this stays possible exactly while the log has none of: the swap, the seller's warning, a claim or redirect on the buyer's warning, a transaction that took one of the two outputs |
| `BuyersKey.SafeExactly` | protocol/src/protocol_musig_adaptor.rs:813-815 | a warning can still be confirmed exactly as long as neither the swap nor a warning is confirmed and the deposit's first output is not taken: the key is safe from the other's transactions once the swap is confirmed, not once it is seen |

## Left out

- Curve arithmetic, SHA-256 and tagged hashes, and byte encodings: points are logarithms, hashes and orders are parameters. Properties that rest on the hardness of a problem are not stated.
- Random numbers: secret keys, nonces and the orders drawn by the transaction builder are inputs of the steps that draw them.
- The wallet library's coin selection, fee estimate, dust limit and removal of repeated inputs: a partial transaction is an input of round one, and the builder checks amounts only.
- The limit on the fee rate when a transaction is extracted, and lock times and weights. Every transaction is taken to be of version 2, to which BIP 68 applies.
- Overflow checks of debug builds: the deposit total wraps at 64 bits as in release builds. `DepositTxs.NoOverflow` says when the two agree.
- The owned parts of a five-round party (keys, signing contexts, transactions) are values in the fields of the one object that owns them, not objects of their own; nothing in the source shares them.
- In the trade model of the gRPC service: fee-bump addresses, redirection receivers, amounts and fee rates, which are stored and not used; the store of trades, locks, transport and type conversion.
- Messages of the gRPC trade that fail to parse: messages arrive as values.
- Which fault ends rounds two and three: the object's method names one, the value step says only that the round failed.
- Broadcasting and watching the chain: whether the broadcast of the deposit succeeds is an input of round three; transactions reach the model of the chain by arbitrary steps.
- On the chain: scripts other than single-key taproot outputs, reorganisations, time-based lock times (a sequence number of that type counts as a number of blocks) and the weight of transactions. Signatures are not checked when a transaction is confirmed; `FiveRoundCompletion` says which transactions carry valid ones.
- Chains.RunsAreSound: assumes that identifiers do not collide; minted coins have identifiers that no transaction with inputs has.
- FiveRoundCompletion.Completion: states the case where no aggregate degenerates; `FourthRoundCompletes` has the exact condition for each trader's signatures.
- Settlements.ContractConserves: assumes that the two deposit outputs have different scripts, and that the contract's outputs are spent only by what both traders signed in advance and by what the secret of P' signs, which covers the deposit's first output and the first output of the buyer's warning. In the five-round protocol no trader learns the secret of Q', and the seller not that of P'; that signatures under a key need its secret is the hardness of a problem.
- Connecting to the node and the endless repetition of `Wallets.WalletService.Poll`; each update replaces the wallet's transactions as a whole.
- The prototypes and test servers of the adaptor crate, the wallet test crate, the command line and the Java clients.
