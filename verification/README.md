# btcgw, modelled and proved in Dafny

btcgw anchors pairs of BBc-1 ids (a domain id and a transaction digest) in Bitcoin. A POST registers a
pair: the gateway takes the UTXO at the head of its wallet queue, spends it into a new output of the same
address beside an 80-byte OP_RETURN, drops the old head, queues the new output, reads the anchor back from
the node and stores a record under the hex text of both ids. Everything that touches the node or the wallet
runs under one mutex; the store is updated outside it.

`dafny verify dfyconfig.toml` checks the whole project (Dafny 4.11).

## What is modelled

| module | part of the system |
|---|---|
| `Base`, `Hex`, `BigEndian`, `OpReturn` | bytes and errors; base16 text and CR/LF stripping; the big-endian pair, `NewAnchor` and the OP_RETURN codec, in place on arrays |
| `Satoshi`, `Binary64` | the amount pipeline: JSON amount, binary64, `%.8f`, `ParseFloat`, `calcFee`; that such a rounding exists |
| `Ledger`, `Json` | the ledger as an abstract map, and how the node prints its transactions as decoded JSON |
| `BitcoinCli` | the adapter class: both scans, `PutAnchor`, `GetAnchor`, over a node class |
| `Wallet` | `DocstoreWallet` as a class over a Go slice (backing array, offset, length) |
| `Store` | the record store as a class over a map, its key, and lookups |
| `Gateway`, `Service` | `GatewayImpl` and the HTTP handlers as classes, one call at a time |
| `Protocol` | the gateway as a state machine: any number of requests, one step at a time, with the mutex, failing calls, failing saves, broadcasts reported as errors, crashes and confirmations |
| `Accounting`, `History`, `Conservation`, `RoundRobin`, `Index` | inductive invariants of the machine |
| `Runs`, `FaultBound`, `Progress`, `Liveness`, `WalletLife`, `Confirmations`, `Reanchor` | the theorems about whole runs |
| `Bridge`, `StoreBridge` | the machine, when one request runs alone, computes what the gateway methods and the POST handler specify |
| `Serial` | every run of the machine, with all its interleavings and faults, comes to a sequence of complete calls and restarts |

The classes are proved against functions on values (`Wallet.Apply`, `BitcoinCli.Put`, `Gateway.Register`,
`Service.Post`, `Store.UpdateAt`), and the theorems are about these functions or about the machine. How a
foreign call turns out is an argument ("oracle") of the method or a `Choice` of the machine's step, so every
theorem holds for all outcomes. What calcFee leaves of an amount is not an outcome: the machine has it as
the fixed function `Purse.left`, of which the theorems ask only `Ledger.FeeRule`. `Ledger.CalcFeeKeepsRule`
shows that calcFee keeps this rule under every rounding, and the two bridges take calcFee itself. A save or
a store write has three outcomes: done, not done, or done and reported as an error. A `Float` is any pair of
a rounding and a printing that meets `Satoshi.Ieee`: for the magnitudes that occur, all of them normal
numbers, results within half a unit in the last place (round to nearest, section 4.3.1 of IEEE 754-2019,
with ties and the neighbours of a power of two left open), and the nearest multiple of 10^-8 when printed.

## What the proofs found

- `calcFee` can lose one satoshi: 0.29 BTC less the fee of 0.0002 gives 0.28979999 (`Satoshi.OneSatoshiLost`).
  `Satoshi.CalcFeeExact` says exactly when it does not.
- Whatever has failed before, the gateway can still broadcast if and only if its queue, once the wallet update
  under way is done, begins with an unspent output that can pay the fee (`Liveness.BroadcastsAgainIff`). So one
  broadcast that is reported as an error, or one crash between a broadcast and the first save, is the end: a
  spent UTXO stays in front of both copies of the queue (`Liveness.UnreportedBlocks`, `Liveness.CrashBlocks`).
- A wallet does not always last `min(i + k * floor(v_i / fee))` broadcasts. The exact lifetime counts how often
  calcFee can be applied to each v_i (`WalletLife.LifetimeIsExact`). It is that minimum if and only if lost
  satoshi pull no output's own bound below it (`WalletLife.LifetimeIsFormula`); for one output, if and only if
  the subtractions lose no more satoshi than `v mod fee` (`WalletLife.SingleIsFormula`). One output of 0.29 BTC
  lasts 1449 broadcasts instead of 1450 (`WalletLife.LifetimeFallsShort`).
- The store key forgets where the domain id ends. `Store.FoundUnderRawKey` says exactly for which id lengths
  and contents a registered pair is found again. For every other pair a POST answers 500 although the anchor
  was broadcast and stored, and the existence check never stops a repetition
  (`Service.FreshPostAnswers`, `Service.UnfindableRegistersAgain`). The error text of api/var.go:26 asks for 32
  bytes, but neither the handlers nor api/openapi.yml check the length.
- POSTs that have passed the existence check before the first store can all broadcast: the bound of
  `Reanchor.NoReanchoring` is attained (`Reanchor.PostsRace`).
- Stored confirmations can get ahead of the ledger's if and only if the ledger can come to hold two anchors of
  one pair (`Confirmations.AheadIffTwoAnchors`): a refresh is overtaken by a store of the second one. The
  gateway gets there by itself (`Confirmations.AheadFromTheStart`).
- A gateway without a wallet and one that queues just its UTXO stay alike if and only if in every call the first
  save worked or nothing was sent with success (`Gateway.WalletlessIsOneUtxo`).
- The comment at btc/bitcoincli.go:491 (`PutAnchor` does not update the transaction id) disagrees with
  btc/bitcoincli.go:566; the model follows the code.
- cmd/btcgw/btcgw.go:126 always hands Testnet3 to the gateway while the adapter takes its network from the
  environment; with any other network nothing is ever broadcast (`WalletLife.WrongNetworkNeverSends`).
- `ErrNotEnoughConfirm` cannot occur: btc/bitcoincli.go:540 compares an unsigned value with 0.

## Model

| member | source | states |
|---|---|---|
| Hex.DecodeEncode | btc/bitcoincli.go:403-404 | decoding printed hex text gives the bytes back |
| Hex.EncodeDecode | btc/bitcoincli.go:609 | text that decodes is, up to letter case, the encoding of its bytes |
| Hex.EncodeDigits | btc/bitcoincli.go:403-404 | each byte is printed as its high and then its low digit of 0123456789abcdef |
| Hex.DecodeAccepts | btc/bitcoincli.go:609 | decoding accepts an even number of hexadecimal digits in either letter case, and nothing else |
| Hex.EncodeConcat | store/entity.go:31 | the texts of two ids joined are the text of the ids joined |
| Hex.RemoveCRLF | btc/bitcoincli.go:162-176 | the loop computes `Strip`, whose meaning the next three rows give |
| Hex.StripWeave | btc/bitcoincli.go:162-176 | text without line breaks, with CR and LF woven in anywhere, is stripped to itself: order is kept, nothing else is lost |
| Hex.StripIsUnweave | btc/bitcoincli.go:162-176 | conversely every text is its stripped form with only line breaks woven in |
| Hex.StripIdempotent | btc/bitcoincli.go:162-176 | stripping twice is stripping once |
| Hex.BreaksAre | btc/bitcoincli.go:170-172 | what is stripped is 0x0d and 0x0a |
| Hex.DecodeStdout | btc/bitcoincli.go:472-477 | strip, decode, and refuse an empty result |
| Hex.ReadHexExactly | btc/bitcoincli.go:472-477 | exactly which output is read, with one error for the rest |
| Hex.TransportRoundTrip | btc/bitcoincli.go:412-417 | for every byte string and every insertion of line breaks into its hex text the bytes come back, the empty one being refused |
| BigEndian.GetUint64BE | model/opret.go:29-40 | the accumulated sum is the number the eight bytes denote, without leaving uint64 |
| BigEndian.PutUint64BE | model/opret.go:17-26 | writes in place the base-256 digits of v, whose value is v |
| BigEndian.Bijection | model/opret.go:17-40 | put then get and get then put are both the identity |
| BigEndian.CastsAreModular | model/opret.go:43-100 | the casts between int64 and uint64 keep a number modulo 2^64, are inverse to each other, and keep the numbers both types have |
| BigEndian.OrderAgrees | model/opret.go:17-40 | byte-wise order of equal-length strings agrees with numeric order |
| OpReturn.NewAnchor | model/anchor.go:87-109 | both ids become their first 32 bytes, zero-padded |
| OpReturn.PadIdentity | model/anchor.go:84-86 | an id is left as it is exactly when it is 32 bytes long |
| OpReturn.PadBytes | model/anchor.go:88-99 | byte i of a padded id is byte i of the id, or zero beyond its end |
| OpReturn.EncodeOpReturn | model/opret.go:43-66 | filling the zeroed array by assignment and copy gives the specified 80 bytes |
| OpReturn.DecodeOpReturn | model/opret.go:69-100 | the array is decoded as specified, with the error of the first failing check |
| OpReturn.EncodeLayout | model/opret.go:43-66 | where signature, version, network, reserved bytes, time and ids stand in the 80 bytes, with the literal values |
| OpReturn.DecodeExactly | model/opret.go:69-100 | exactly which 80 bytes decode (signature BBc1, version 1 or 255, network 3, 4 or 255), which error the others get, and what is read from where |
| OpReturn.DecodeEncode | model/opret.go:43-100 | decode after encode succeeds exactly for valid versions and networks, and then gives the anchor at whole seconds, negative times included |
| OpReturn.EncodeDecode | model/opret.go:43-100 | encode after decode restores the input exactly when bytes 6 and 7 are zero |
| Satoshi.PrintParse | btc/bitcoincli.go:371-380 | for every amount up to the money supply, the JSON amount printed with eight decimals is the amount |
| Satoshi.RelativeError | btc/bitcoincli.go:328-329 | one rounding moves a value by at most one part in 2^53 - 1 |
| Satoshi.CalcFeeSafe | btc/bitcoincli.go:323-334 | for every balance up to the money supply and every fee that int() keeps: success from fee + 1 on, failure below the fee, and the change is exact or one satoshi short, never more |
| Satoshi.CalcFeeExact | btc/bitcoincli.go:323-334 | the change is exact if and only if the balance covers the fee and the product with 10^8 does not round below the balance |
| Satoshi.CalcFeeMalformed | btc/bitcoincli.go:324-327 | text that is no number is a decode error |
| Satoshi.TruncTowardZero | btc/bitcoincli.go:329 | int() of a float drops its fraction, on either side of zero |
| Satoshi.OneSatoshiLost | btc/bitcoincli.go:329 | a balance on which the satoshi is lost, however ties are rounded |
| Ledger.CalcFeeKeepsRule | btc/bitcoincli.go:323-334 | calcFee under any rounding keeps the rule that the runs of the state machine assume of it |
| Binary64.IeeeExists | btc/bitcoincli.go:323-334 | the assumptions on rounding and printing can be met for all reals |
| Ledger.UnspentAfterSend | btc/bitcoincli.go:396-405 | a broadcast replaces the spent output by the new one among the wallet's unspent outputs |
| Ledger.RecordFields | btc/bitcoincli.go:683-726 | exactly when the ledger has a record under an id, and each of its fields: the time is the transaction's, not the anchor's |
| BitcoinCli.BitcoinCLI.XSetUTXO | btc/bitcoincli.go:495-498 | the current UTXO becomes the argument |
| BitcoinCli.BitcoinCLI.XGetUTXO | btc/bitcoincli.go:502-504 | returns the current UTXO |
| BitcoinCli.BitcoinCLI.ParseTransactionReceived | btc/bitcoincli.go:339-383 | a result is the first matching element and all before it were well-formed and did not match; an error means a malformed element decided or none matched |
| BitcoinCli.BitcoinCLI.ParseRawTransactionOpReturn | btc/bitcoincli.go:632-668 | the same for the first script that begins with OP_RETURN |
| Json.FieldExactly | btc/bitcoincli.go:345 | a key is read from an object only, and a missing one is no value of any type |
| Json.ReceivedExactly | btc/bitcoincli.go:349-381 | how an entry of "details" is judged by what its fields hold: exactly when it matches, with which values, and exactly when it is passed over |
| Json.OpReturnExactly | btc/bitcoincli.go:652-665 | how an output is judged by its script text: passed over without "OP_RETURN ", and else decoded from behind it |
| Json.OpReturnMalformed | btc/bitcoincli.go:643-656 | an output without a script text is malformed |
| BitcoinCli.BitcoinCLI.ParseTransactionConfirmations | btc/bitcoincli.go:571-582 | the number under "confirmations", truncated, or a decode error; the conversion of a negative number is under Left out |
| BitcoinCli.BitcoinCLI.ParseTransactionTime | btc/bitcoincli.go:585-596 | the number under "time", truncated, or a decode error |
| BitcoinCli.BitcoinCLI.ParseHexField | btc/bitcoincli.go:599-615 | succeeds exactly on non-empty hex text under "hex" |
| BitcoinCli.BitcoinCLI.ParseSignRawTransactionWithWallet | btc/bitcoincli.go:436-459 | needs a complete signature; tells an incomplete one from text that cannot be decoded |
| BitcoinCli.ReceivedOfTransaction | btc/bitcoincli.go:339-383 | on every ledger transaction the first scan succeeds with its change output, exact to the satoshi, and only for its own address |
| BitcoinCli.OpReturnOfRawTransaction | btc/bitcoincli.go:632-668 | on every ledger transaction the second scan skips the payment and finds the data |
| BitcoinCli.BitcoinCLI.CreateRawTransactionForAnchor | btc/bitcoincli.go:396-418 | succeeds exactly when the fee can be subtracted and the node answers; the node then knows the raw bytes as spending the given output into the change and the data |
| BitcoinCli.BitcoinCLI.SendRawTransaction | btc/bitcoincli.go:464-478 | for any bytes: the ledger grows by this transaction exactly when the node knows and accepts it, also where an error is reported |
| BitcoinCli.BitcoinCLI.ReadUTXO | btc/bitcoincli.go:524-542 | on every ledger the balance read for the current UTXO is its value to the satoshi, and a wrong id or address is an error |
| BitcoinCli.BitcoinCLI.SignRaw | btc/bitcoincli.go:553-560 | the signed bytes mean what the raw ones meant, and an incomplete or empty signature is an error |
| BitcoinCli.BitcoinCLI.SignAndSendRaw | btc/bitcoincli.go:553-567 | the current UTXO moves on exactly when the broadcast is reported as a success |
| BitcoinCli.BitcoinCLI.PutAnchor | btc/bitcoincli.go:512-568 | node, current UTXO and result are those of the function `Put`, for every outcome of every foreign call; PutSuccess and EndToEnd say what they mean |
| BitcoinCli.PutExactly | btc/bitcoincli.go:512-568 | for every outcome of the calls: exactly when a transaction goes out, that it is the signed one with this input, output, change and data, exactly when that is reported as a success, and when the adapter moves on |
| BitcoinCli.PutSuccess | btc/bitcoincli.go:512-568 | a success spent the current UTXO, which was unspent, into a fresh one of the same address, for the fee or one satoshi more, and made it current |
| BitcoinCli.PutCanSucceed | btc/bitcoincli.go:512-568 | any unspent current UTXO worth at least the fee and one satoshi can be spent when the calls work |
| BitcoinCli.PutKeepsNode | btc/bitcoincli.go:512-568 | success or not, earlier transactions stay as they were |
| BitcoinCli.BitcoinCLI.DecodeData | btc/bitcoincli.go:707-716 | only 80 bytes that decode are an anchor; everything else is one error |
| BitcoinCli.BitcoinCLI.GetAnchor | btc/bitcoincli.go:671-727 | succeeds exactly when every call works and the ledger holds an anchor under the id; the record has that anchor, and the time and confirmations of the transaction |
| BitcoinCli.EndToEnd | btc/bitcoincli.go:512-727 | in every later ledger the anchor of a successful PutAnchor is found under the returned id, floored to seconds, with the time of the send and the confirmations of that ledger, if and only if its version and network are valid |
| Wallet.DocstoreWallet.constructor | btc/wallet.go:124-138 | the queue is the document, or empty when it cannot be loaded |
| Wallet.DocstoreWallet.Load | btc/wallet.go:80-91 | the queue becomes the document; on an error nothing changes |
| Wallet.DocstoreWallet.Save | btc/wallet.go:93-104 | the document becomes the queue unless the write does not happen |
| Wallet.DocstoreWallet.Enqueue | btc/wallet.go:59-61 | append on the slice, in place or into a larger array, adds at the back of the abstract queue |
| Wallet.DocstoreWallet.Dequeue | btc/wallet.go:63-70 | reslicing takes the front of the abstract queue |
| Wallet.DocstoreWallet.PeekNextUTXO | btc/wallet.go:162-168 | the front, or an error on an empty queue |
| Wallet.DocstoreWallet.NextUTXO | btc/wallet.go:150-160 | refines the FIFO operation; when the save fails the front has left the queue and the caller gets an error |
| Wallet.DocstoreWallet.AddUTXO | btc/wallet.go:170-180 | refines the FIFO operation, in memory also when the save fails |
| Wallet.ApplyExactly | btc/wallet.go:150-180 | what each operation leaves in memory and in the document for each outcome of its save |
| Wallet.Fifo | btc/wallet.go:59-70 | over every run of add, peek and next, with any failing saves, what was removed followed by the queue is the initial queue followed by what was added |
| Wallet.DocumentIsSnapshot | btc/wallet.go:80-104 | the document is the queue as the last operation that stored it left it, so reloading right after a save gives the queue in memory |
| Store.EntityRoundTrip | store/entity.go:30-69 | a record is restored from its entity |
| Store.EntityColumns | store/entity.go:30-46 | each column of an entity, and its key as the printed text of both ids |
| Store.CidText | store/entity.go:31 | the key decodes to the domain bytes followed by the transaction bytes |
| Store.CidConcat | store/entity.go:31 | two pairs of ids of any length share a key exactly when their concatenations agree |
| Store.CidInjective | store/entity.go:31 | keys are injective on pairs whose domain ids have equal length |
| Store.FoundUnderRawKey | store/docstore.go:130-138 | a registered pair is looked up under the key it is stored under exactly when both ids are 32 bytes, or they total 64 and the shifted bytes are all zero |
| Store.LookupFindsSameBytes | store/docstore.go:130-138 | for ids of any length a found record has the same domain bytes followed by transaction bytes |
| Store.Docstore.PutEntity | store/docstore.go:79-87 | overwrites the entity under its key unless the write does not happen |
| Store.Docstore.GetEntity | store/docstore.go:89-97 | the entity under the key, or an error when it is absent or the read fails |
| Store.Docstore.Put | store/docstore.go:122-128 | unless the write does not happen, the record is read back under its ids as it was put, whatever was stored there before, and every other key is left alone |
| Store.PutIsReadBack | store/docstore.go:122-138 | the same of the function that specifies it; a write that does not happen changes nothing |
| Store.UpdateExactly | store/docstore.go:102-120 | an update changes the chosen fields of the one entity and creates none |
| Store.Docstore.UpdateEntity | store/docstore.go:102-120 | the collected modifications change only the chosen ones of three fields, and only of an existing entity |
| Store.Docstore.Get | store/docstore.go:130-138 | finds exactly the entity under the raw key |
| Store.Docstore.UpdateConfirmations | store/docstore.go:140-149 | only the confirmations of an existing entity change |
| Store.Docstore.UpdateBBc1DomainName | store/docstore.go:151-160 | only the domain name of an existing entity changes |
| Store.Docstore.UpdateNote | store/docstore.go:162-171 | only the note of an existing entity changes |
| Gateway.GatewayImpl.RegisterTransaction | gw/gw.go:95-123 | ledger, adapter, both copies of the queue and the result are those of the function `Register`, with and without a wallet, for every outcome of every call and save |
| Gateway.RegisterExactly | gw/gw.go:95-123 | what a call leaves of ledger, adapter, queue and document, and what it returns, for every outcome of PutAnchor and of both saves, with and without a wallet |
| Gateway.GatewayImpl.ReplaceHead | gw/gw.go:113-121 | both copies of the queue after dropping the head and queueing the adapter's UTXO, and false when either save fails |
| Gateway.GatewayImpl.StoreRecord | gw/gw.go:125-136 | only what the ledger holds under the id is stored, and exactly when everything works |
| Gateway.GatewayImpl.GetRecord | gw/gw.go:138-144 | the stored record, or one error |
| Gateway.GatewayImpl.RefreshRecord | gw/gw.go:146-171 | the collection and the result are those of the function `Refreshed`, for every outcome of every read and update; RefreshedFields says what they are |
| Gateway.RefreshedFields | gw/gw.go:146-171 | exactly which of three fields of this one entity each outcome changes, also when it fails half way, and exactly when it succeeds |
| Gateway.WalletlessIsOneUtxo | gw/gw.go:101-121 | after any sequence of calls a gateway without a wallet and one that queues just its UTXO have the same ledger and stand at the same UTXO if and only if in each call the first save worked or nothing was sent with success |
| Gateway.WalletlessSameResults | gw/gw.go:101-121 | and while no save fails each call gives both the same result |
| Gateway.MirrorStep | gw/gw.go:114-121 | a call that breaks the likeness leaves the wallet empty |
| Service.GatewayService.GetAnchors | api/anchor-api.go:55-72 | 400, 404 or 200 with the view of the stored record, which names the ids of the path |
| Service.GatewayService.PatchAnchors | api/anchor-api.go:74-92 | the reply and the fields changed, for every outcome |
| Service.GatewayService.PostAnchors | api/anchor-api.go:94-132 | the gateway, the store and the reply are those of the function `Post`, for every outcome |
| Service.GatewayService.RegisterAndStore | api/anchor-api.go:107-131 | the same from the registration on |
| Service.GatewayService.StoreAndReply | api/anchor-api.go:115-131 | the store and the reply once the anchor is broadcast |
| Service.ShowIsFaithful | api/anchor-api.go:169-196 | two records read from the ledger are shown alike only if they are equal |
| Service.ShowFields | api/anchor-api.go:169-196 | each field of a reply: ids and transaction id as hex text that decodes to them, times, confirmations, the names of the networks, and note and name absent exactly when empty |
| Service.ShowsItsParameters | api/anchor-api.go:55-72 | what is found under path parameters is shown under these parameters in lower case, joined for ids of any length and each for itself for 32-byte ids |
| Service.Statuses | api/anchor-api.go:55-132 | the status of every reply |
| Service.PostExactly | api/anchor-api.go:94-132 | for every outcome of the calls: when a POST is refused, what it leaves of the gateway, and that storing and answering follow KeepRecord |
| Service.KeepsExactly | api/anchor-api.go:115-131 | exactly what is stored once the anchor is broadcast, exactly when the answer is 200, and with what |
| Service.PostShowsItsParameters | api/anchor-api.go:94-132 | a POST that is answered with 200 is answered for the ids of its path |
| Service.FreshPostAnswers | api/anchor-api.go:102-131 | a POST of an absent pair whose registration and store calls work answers 200 with its own ledger record if and only if the pair is findable; otherwise 500, with the anchor broadcast and stored |
| Service.RepeatIsRefused | api/anchor-api.go:102-106 | after a 200 the same POST is refused and changes nothing |
| Service.UnfindableRegistersAgain | api/anchor-api.go:102-131 | however many POSTs of an unfindable pair were made, and however they went, the next one registers again |
| Accounting.InvRun | gw/gw.go:95-128 | in every reachable state, faults and crashes included, only the thread that the lock names is inside a locked region, and the queue, its document and the adapter stand as the progress of that thread demands |
| History.HistoryRun | gw/gw.go:95-123 | over every run the ledger only grows, each broadcast pays the fee or one satoshi more and spends an output no other does, and each thread's broadcast carries its own request |
| Runs.FaultsAreAccounted | gw/gw.go:109-121 | after k interrupted registrations the queue in memory and the saved queue each miss at most k unspent outputs and list at most k spent ones, in every reachable state |
| FaultBound.BoundIsAttained | btc/wallet.go:150-160 | for every k up to the queue length some run attains all four bounds exactly |
| Runs.CleanQueueIsUnspent | gw/gw.go:101-121 | without faults the queue, outside a wallet update, lists exactly the unspent outputs, once each, and the document equals it |
| Runs.HeadIsSpentThenDropped | gw/gw.go:101-121 | in every interleaving the adapter's UTXO is the head of the queue from XSetUTXO until the send, NextUTXO removes just what was spent, and AddUTXO queues the unspent output that replaced it |
| Runs.NoDoubleSpend | gw/gw.go:95-123 | no two threads broadcast the same transaction or spend the same output |
| Runs.RegisteredIsOnLedger | gw/gw.go:95-123 | a returned id is that of a ledger record of this very request, found if and only if version and network are valid |
| Conservation.ValueIsConserved | btc/bitcoincli.go:396-418 | in every run unspent value plus fees is the initial value, broadcasts plus the fees that can still be paid never exceed the initial number, and each broadcast costs the fee or one satoshi more |
| Conservation.GenerationValue | btc/bitcoincli.go:323-334 | a generation-g descendant of v0 is worth between v0 - g (fee + 1) and v0 - g fee |
| RoundRobin.GenerationTurns | btc/bitcoincli.go:323-334 | an output has as many turns as its generation-g descendant, and g more |
| RoundRobin.TurnsBracket | btc/bitcoincli.go:323-334 | calcFee can be applied to v at least floor(v / (fee + 1)) and at most floor(v / fee) times in a row |
| RoundRobin.TurnsExactly | btc/bitcoincli.go:323-334 | it can be applied floor(v / fee) times if and only if no more satoshi are lost on the way than v mod fee |
| RoundRobin.CleanRun | btc/wallet.go:59-70 | without faults nothing is lost, the document lags by at most the step under way, and the queue stays in round-robin order |
| Runs.RoundRobinFairness | gw/gw.go:101-121 | after n broadcasts position i of k holds the generation (n + i) / k descendant of initial UTXO (n + i) mod k, at its due value |
| Runs.ChainsStayEven | gw/gw.go:101-121 | in every run without faults no two spend chains of the queue differ by more than one generation |
| RoundRobin.LifetimeIsMin | gw/gw.go:101-121 | the lifetime is the minimum over the k initial outputs i of i + k t_i, where t_i is how often i can be spent on |
| RoundRobin.PayableUpToLifetime | gw/gw.go:101-121 | the first n turns can all be paid exactly when n is at most that minimum |
| WalletLife.LifetimeIsExact | gw/gw.go:101-121 | a run without faults with n broadcasts exists if and only if n is at most that minimum, t_i being counted with what calcFee really leaves |
| WalletLife.LifetimeBracket | btc/bitcoincli.go:323-334 | under every rounding the lifetime lies between the minima of i + k floor(v_i / (fee + 1)) and of i + k floor(v_i / fee) |
| WalletLife.LifetimeIsFormula | btc/bitcoincli.go:323-334 | the lifetime is the minimum of i + k floor(v_i / fee) if and only if no output's own bound is pulled below it |
| WalletLife.LifetimeWhenMadeUp | btc/bitcoincli.go:323-334 | in particular where v_i mod fee makes up for what is lost on every output |
| WalletLife.SingleIsFormula | btc/bitcoincli.go:323-334 | and for one output exactly then |
| WalletLife.LifetimeFallsShort | btc/bitcoincli.go:329 | and smaller on a concrete wallet where satoshi are lost |
| WalletLife.IdleCanPay | gw/gw.go:101-121 | without faults an idle wallet has a live head exactly as long as its lifetime is not used up |
| Progress.GoesThrough | gw/gw.go:101-121 | whenever the mutex is free and the head can pay, a registration can complete, with the change that calcFee leaves, and both copies of the queue end as specified |
| WalletLife.StuckAfterLifetime | btc/wallet.go:72-78 | once the lifetime is used up no continuation, with any faults, broadcasts again |
| Liveness.HaltedForever | btc/wallet.go:72-78 | when neither copy of the queue has a front that can be spent, no continuation broadcasts |
| Liveness.BroadcastsAgain | gw/gw.go:101-121 | in every state that keeps the invariant, some continuation broadcasts if and only if the queue, once the update under way is done, or its document has a live front |
| Liveness.BroadcastsAgainIff | gw/gw.go:101-121 | in every reachable state, whatever failed before, if and only if the queue, once the update under way is done, begins with an unspent output that can pay |
| Liveness.HeadsRun | btc/wallet.go:93-104 | in every reachable state a document with a live front has the front of the queue |
| Liveness.UnreportedBlocks | btc/bitcoincli.go:561-564 | in every run, whatever failed before, a broadcast reported as an error is the last one ever |
| Liveness.CrashBlocks | gw/gw.go:109-117 | so is one followed by a crash before the first save |
| WalletLife.WrongNetworkNeverSends | btc/bitcoincli.go:514-516 | with different networks in gateway and adapter no run broadcasts anything |
| Index.IndexRun | gw/gw.go:125-171 | in every interleaving each entity sits under the key of its own 32-byte ids, names a ledger transaction whose OP_RETURN decodes to its anchor, and every POST answered 200 got such a record of its own bytes |
| Index.KeysStay | store/docstore.go:102-128 | keys never disappear |
| Confirmations.NeverAhead | gw/gw.go:146-159 | if each key is only stored with one Bitcoin transaction, stored confirmations never exceed the ledger's |
| Confirmations.NeverAheadOfOneAnchor | gw/gw.go:125-171 | nor do they, in any interleaving, while the ledger holds one anchor of each pair |
| Confirmations.AheadIffTwoAnchors | gw/gw.go:125-171 | in every reachable state some continuation gets ahead if and only if some continuation brings two anchors of one pair onto the ledger |
| Confirmations.AheadWithoutSingleTx | gw/gw.go:146-159 | the interleaving that gets ahead: from any state with a free mutex and two anchors of one pair on the ledger, the first deeper, a refresh is overtaken by a store |
| Confirmations.TwoAnchorsGetAhead | gw/gw.go:146-159 | with two anchors of one pair some continuation gets ahead from any state, whoever holds the mutex |
| Confirmations.AheadFromTheStart | gw/gw.go:125-159 | from every funded wallet that lasts for two registrations the gateway gets there by itself |
| Confirmations.RefreshTouchesThreeFields | gw/gw.go:146-171 | no step of a refresh changes a wallet, the ledger, another key or another field |
| Reanchor.NoReanchoring | api/anchor-api.go:102-131 | if checks of present keys work, the POSTs that ever broadcast for a stored key are among those that had found it absent before, and so at most as many |
| Reanchor.LateCheckNeverBroadcasts | api/anchor-api.go:102-106 | a POST whose check comes after the first store never broadcasts |
| Reanchor.PostsRace | api/anchor-api.go:102-131 | the bound is attained: for every n up to the lifetime n POSTs of one findable pair can check first and all broadcast before the pair is stored, and then broadcasters and checkers are the same n threads |
| Serial.EveryRunIsSerial | gw/gw.go:95-123 | serialisability: whenever no registration is under way, ledger (up to confirmations), adapter, queue and document are what some sequence of complete RegisterTransaction calls and restarts leaves, for every interleaving, failing save, unreported broadcast and crash; and each successful registration returned the result of one of these calls |
| Serial.CrashIsSerial | btc/wallet.go:80-104 | a crash in the middle of a registration comes to a call whose save does not happen, followed by a restart |
| Serial.LedgersFitNodes | btc/bitcoincli.go:464-478 | every reachable ledger can be held by a node: one serialisation means one transaction |
| Bridge.RegisterAlone | gw/gw.go:95-123 | for every outcome of the calls, steps of one thread alone end in the state and result of `Register` |
| StoreBridge.StoreAlone | gw/gw.go:125-136 | the same for StoreRecord |
| StoreBridge.RefreshAlone | gw/gw.go:146-171 | the same for RefreshRecord |
| StoreBridge.PostAlone | api/anchor-api.go:94-132 | the same for the whole POST handler: ledger, both copies of the queue, store and reply |

## Left out

- Processes: running bitcoin-cli, cmdproxy, exit codes, the version check and ping are one outcome, works or fails.
- bitcoind: signing, scripts and mempool rules are an abstract ledger with fresh transaction ids, one wallet output per transaction, rejection of spent inputs, and confirmations that only grow. A transaction that leaves the chain is not modelled.
- JSON text: the scans start from decoded JSON, and numbers in it are reals.
- BitcoinCli.BitcoinCLI.ParseTransactionConfirmations: does not convert a negative number to an unsigned one, because Go leaves that conversion of a float to the implementation; confirmations of the ledger are never negative.
- Decimal text: amounts are multiples of 10^-8 or malformed; the digits themselves are not modelled.
- Raw transactions: a serialisation that the node already knows with another meaning counts as a failed command.
- gocloud drivers, gob registration, Open and Close with sync.Once: a collection is a map, and a write may fail.
- Close of the wallet, which saves the queue once more, and a restart whose load fails: `Wallet.DocstoreWallet.constructor` has the failing load, but `Protocol` restarts only from a document that loads.
- Context timeouts and the clock: a timeout is a failure, possibly after the effect; the time of an anchor is an argument.
- Deposits, `cmd/utxoadd` beside the server and several instances: the wallet address receives nothing from outside during a run, and one process writes the document.
- The wallet-less mode in interleavings: `Protocol` always has a wallet; `Gateway` covers both, one call at a time.
- auth, a lookup of the API key with a two-way comparison; generated OpenAPI code, routing, CORS and rate limits, which pass requests on to the handlers; `String` dumps, environment helpers, examples and the other commands, which only format, configure or call what is modelled.
- `feeSmall` and `feeLarge`: the calcFee lemmas hold for every fee below 2^63, beyond which int(feeSatoshi) wraps; the runs use feeNormal, which is what txFee is set to.
