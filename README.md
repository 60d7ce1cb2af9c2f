# qi-agent-sdk in Dafny

A model of the protocol layer of `qi-agent-sdk`, the TypeScript SDK that lets
an AI agent send and receive Qi, the UTXO currency of the Quai network, using
BIP 47 payment codes. The model covers three files:

- **Denomination arithmetic** (`src/utils.ts`). A Qi output has a fixed
  denomination, recorded as an index into a 15-entry table of Qit amounts.
  `getDenominationValue` is a guarded lookup into that table, and
  `sumDenominations` adds up a list of indices. Both are modelled in the
  `Denominations` module as pure functions with `Result` errors.
- **Notification mailbox** (`src/mailbox.ts`). Before paying someone for the
  first time, a sender records its own payment code in an on-chain mailbox
  under the receiver's code. `Mailbox.Registry` is the contract's state as
  clients see it:
  - the list of senders per receiver;
  - the attached event listeners;
  - the callbacks its events have reached;
  - whether reads and writes reach it at all.

  `Mailbox.MailboxClient` is the wrapper class. The listener filter and
  unsubscribe are pure functions with lemmas.
- **Agent wallet** (`src/wallet.ts`). `Wallet.QiAgentWallet` is a class
  whose fields are the ones the source mutates:
  - the known senders, in insertion order and without duplicates;
  - the per-zone scan cursors;
  - the polling timer;
  - the two callback lists.

  Its collaborators are the ledger wallet (`QiWallet.QiHDWallet`, opaque
  apart from the answers it gives and the state the agent reads back) and
  the mailbox client. The calls that matter for ordering are appended to a
  ghost `trace` of `WalletSpec.Event`s: mailbox reads, notifies, channel
  opens, sender callbacks, scans and payments. Balance reads and payment-code
  reads are not traced. Discovery, sync, send, `fromMnemonic` and
  `deserialize` are each proved to leave exactly the trace that a
  `WalletSpec` function computes from the starting state. The lemmas in
  `WalletSpec` then state the ordering promises of the source against those
  functions:
  - discovery comes before the scan;
  - the notify comes before the payment;
  - each new sender triggers one channel open and every callback.

The records of `src/types.ts` (configuration, snapshot, receipts, zone
balances, the network presets) are datatypes in `Types`. `Wrappers` holds
`Option` and `Result`.

Integer amounts are unbounded, as JavaScript `bigint`s are. Denomination
indices are integers.

## Model

| member | source | states |
|---|---|---|
| Types.Preset | src/types.ts:104-120 | mainnet and orchard use the deployed mailbox address; only the local preset has an empty mailbox address; every preset has non-empty URLs |
| Denominations.DenominationValue | src/utils.ts:42-47 | fails exactly when the index is negative or at least 15, naming that index; otherwise returns the table entry |
| Denominations.DocumentedValues | src/utils.ts:9-16 | the table has 15 entries, and indices 0, 1, 2, 6 and 14 are worth 1, 5, 10, 1000 and 1,000,000,000 Qit; 1 Qi is entry 6 and 1,000 kiloQi is entry 14 |
| Denominations.ValueOrZero | src/wallet.ts:170 | an index is worth nothing exactly when it is outside the table |
| Denominations.LenientSumAppend | src/wallet.ts:166-171 | the lenient value of a concatenation is the sum of the values of its parts |
| Denominations.LenientSumCons | src/wallet.ts:166-171 | the lenient value read left to right: the first index's value plus the value of the rest |
| Denominations.Fold | src/utils.ts:65 | the left-to-right `reduce` succeeds exactly when every index is in range, then yields the start value plus the value of the indices; otherwise it fails naming the first out-of-range index |
| Denominations.SumDenominations | src/utils.ts:64-66 | fails exactly when some index is out of range, with the error for the first one; otherwise returns the value of all the indices |
| Denominations.SumOfNothing | src/utils.ts:65 | the sum of no indices is 0 |
| Denominations.SumExample | src/utils.ts:9-16 | two 1 Qi outputs and one 10 Qit output sum to 2010 Qit |
| Denominations.FoldAppend | src/utils.ts:65 | folding a concatenation folds the second part from the result of the first, and stops at the first failure |
| Denominations.SumAppend | src/utils.ts:64-66 | the sum of a concatenation is the sum of the parts' sums; it fails when either part fails, with the error of the first failing part |
| Denominations.FirstInvalidUnique | src/utils.ts:65 | the first out-of-range position, where the fold stops, is unique |
| Denominations.LenientSumPermutation | src/wallet.ts:166-171 | the lenient value depends only on the multiset of indices |
| Denominations.SumPermutation | src/utils.ts:64-66 | a reordering of the indices fails exactly when the original does, and otherwise has the same sum |
| Mailbox.Dispatch | src/mailbox.ts:116-120 | an event causes no more deliveries than there are listeners, and each delivery carries the event's sender and receiver |
| Mailbox.DispatchReaches | src/mailbox.ts:116-120 | a callback is invoked for an event exactly when some listener carrying it has a null or empty filter, or one equal to the event's receiver |
| Mailbox.RemoveListenerSpec | src/mailbox.ts:124-126 | after `off`, exactly the listeners registered under other ids remain |
| Mailbox.RemoveListenerExact | src/mailbox.ts:124-126 | with distinct ids, unsubscribing removes exactly the listener it registered and keeps the others in order |
| Mailbox.RemoveListenerAbsent | src/mailbox.ts:124-126 | unsubscribing a listener that is no longer attached changes nothing |
| Mailbox.RemoveListenerKeepsDistinct | src/mailbox.ts:124-126 | removing a listener keeps listener ids distinct |
| Mailbox.Registry.GetNotifications | src/mailbox.ts:80 | the contract's view call fails exactly when reads fail, and otherwise returns the receiver's list |
| Mailbox.Registry.Notify | src/mailbox.ts:68 | the contract's `notify` fails exactly when writes fail, changing nothing; otherwise it appends the sender to the receiver's list (duplicates included), returns a fresh transaction and reaches the matching listeners |
| Mailbox.Registry.On | src/mailbox.ts:122 | attaches a listener under a new id at the end |
| Mailbox.Registry.Off | src/mailbox.ts:125 | detaches the listener with that id and keeps ids distinct |
| Mailbox.MailboxClient.constructor | src/mailbox.ts:44-47 | the client keeps the given address and contract |
| Mailbox.MailboxClient.GetAddress | src/mailbox.ts:52-54 | always the address given at construction |
| Mailbox.MailboxClient.GetNotifications | src/mailbox.ts:78-86 | the receiver's list, or the empty list when the read fails |
| Mailbox.MailboxClient.HasNotified | src/mailbox.ts:95-101 | true exactly when the read succeeds and the sender occurs in the receiver's list, so a failed read reports false |
| Mailbox.MailboxClient.Notify | src/mailbox.ts:64-70 | forwards exactly the (sender, receiver) pair and returns the contract's transaction unchanged; a failure propagates and changes nothing |
| Mailbox.MailboxClient.OnNotification | src/mailbox.ts:110-123 | attaches one listener with the given filter and callback under an id not in use |
| Mailbox.MailboxClient.Unsubscribe | src/mailbox.ts:124-126 | the returned function detaches the listener it attached |
| Mailbox.DuplicateNotificationsIgnored | src/mailbox.ts:100 | a membership test: a duplicate in the list changes no answer, and a new entry changes only its own sender's answer |
| QiWallet.QiHDWallet.GetOutpoints | src/wallet.ts:161 | fails exactly for an unavailable zone, otherwise lists the zone's outputs |
| QiWallet.QiHDWallet.OpenChannel | src/wallet.ts:340 | succeeds exactly for a well-formed code, then the channel is open; reopening changes nothing |
| QiWallet.QiHDWallet.Scan | src/wallet.ts:318 | reports failure exactly for zones whose scan throws, and leaves every other zone's outputs unchanged |
| QiWallet.QiHDWallet.SendTransaction | src/wallet.ts:249-254 | fails exactly when the transfer is rejected; otherwise returns the hash of a new transaction |
| WalletSpec.NewSendersSpec | src/wallet.ts:331-357 | a discovery pass finds each listed sender that is not yet known, and finds it only once |
| WalletSpec.NewSendersStep | src/wallet.ts:332-336 | a listed sender is new unless it is known or was already found earlier in the same list |
| WalletSpec.DiscoverStep | src/wallet.ts:332-354 | a new sender extends the found senders, the calls made and the channels opened by exactly its own share |
| WalletSpec.OpenedChannelsSpec | src/wallet.ts:339-344 | a pass opens the channels of exactly its well-formed new senders |
| WalletSpec.IndexOf | src/wallet.ts:366 | `indexOf` is -1 exactly when the element is absent, and otherwise is its first position |
| WalletSpec.IndexOfIs | src/wallet.ts:366 | the first position holding the element is the one `indexOf` returns |
| WalletSpec.IndexOfAppend | src/wallet.ts:364-366 | pushing an element moves no earlier first occurrence, and a first push is found at the end |
| WalletSpec.NewSendersInListOrder | src/wallet.ts:332-336 | the new senders come in the order of their first appearance in the notification list |
| WalletSpec.NothingNewWhenAllKnown | src/wallet.ts:333 | a list whose entries are all known yields no new senders |
| WalletSpec.RediscoveryFindsNothing | src/wallet.ts:327-358 | a second pass over an unchanged list finds nothing |
| WalletSpec.NewSendersOfFresh | src/wallet.ts:332-336 | distinct senders, none of them known, are all found, in their own order |
| WalletSpec.DiscoverEventsShape | src/wallet.ts:332-355 | a pass makes one channel open plus one call per sender callback for each new sender, and no other call |
| WalletSpec.DiscoverEventsBlock | src/wallet.ts:339-353 | the k-th new sender's calls are its open attempt followed by every callback in registration order, whatever the open did |
| WalletSpec.DiscoverEventsOpen | src/wallet.ts:339-344 | an open is attempted for exactly the new senders, and it fails exactly for malformed codes |
| WalletSpec.FailedOpenNotRetried | src/wallet.ts:333-344 | a sender found by one pass gets no open attempt in any later pass, even after a failed open |
| WalletSpec.DiscoveryBeforeScan | src/wallet.ts:307-321 | in a sync, the scan is the last call and the only scan, and every new sender's open attempt comes before it |
| WalletSpec.NotifyGatesPayment | src/wallet.ts:236-254 | a send notifies exactly when the recipient was not already notified; the notify names this wallet and the recipient and comes before the payment; a failed notify means no payment |
| WalletSpec.CountNotifiesOfSend | src/wallet.ts:236-245 | a send issues one notify when the recipient had not been notified, and none otherwise |
| WalletSpec.CountNotifiesAppend | src/wallet.ts:236-245 | the notifies of consecutive calls add up |
| WalletSpec.TotalIsValueOfReadableOutputs | src/wallet.ts:193-215 | the total is the value of every output in the readable zones; when all their indices are in range it equals `sumDenominations` of those outputs |
| WalletSpec.UnreadableZoneCountsZero | src/wallet.ts:208-213 | a zone whose read throws lowers the total by exactly its own balance and leaves the other zones' contributions unchanged |
| WalletSpec.TotalIgnoresOtherZones | src/wallet.ts:207-214 | whether a zone outside the list is readable does not affect the total |
| WalletSpec.RemoveFirstSplices | src/wallet.ts:365-368 | `indexOf` followed by `splice(idx, 1)` leaves the list unchanged when the callback is absent, and otherwise removes exactly what the recursive first-occurrence removal removes |
| WalletSpec.RemoveFirstSpec | src/wallet.ts:365-368 | the handle removes the earliest registration of its callback, keeps the rest in order, and does nothing when none is left |
| WalletSpec.SubscribeThenUnsubscribe | src/wallet.ts:363-380 | registering and then calling the handle restores the list; if the callback was already there, the earlier registration goes and the new one stays |
| WalletSpec.RestoreRoundTrip | src/wallet.ts:116-119 | for any snapshot, repeats included, a restore keeps every snapshot sender once and adds only discovered ones; with nothing discovered it reproduces a duplicate-free snapshot's list |
| WalletSpec.RestoredSenderNeverOpened | src/wallet.ts:116-119 | a sender known only from the snapshot becomes known without any channel open, and no later pass opens one |
| WalletSpec.ResolveConfig | src/wallet.ts:441-453 | each absent or falsy field takes the network preset's value or the default (mainnet, 30000 ms, Cyprus1); URLs and the interval are never empty or zero; the mailbox address is empty only for a local network with none given |
| WalletSpec.ResolveIdempotent | src/wallet.ts:441-453 | resolving a resolved configuration changes nothing |
| Wallet.QiAgentWallet.constructor | src/wallet.ts:36-48 | a new wallet knows no senders, holds no cursors, no timer and no callbacks |
| Wallet.QiAgentWallet.FromMnemonic | src/wallet.ts:85-106 | completes the configuration, connects the mailbox at the configured address and syncs the default zone; fails exactly when that scan fails; in either case exactly the well-formed senders found in the mailbox get channels and other zones' outputs are kept; on success the wallet knows exactly those senders and its trace is that sync's |
| Wallet.QiAgentWallet.Deserialize | src/wallet.ts:111-127 | signs in as `fromMnemonic` does, with the same failure, mailbox address, channels, kept outputs and sync trace; then the known senders are those discovered followed by the snapshot's new ones, every snapshot sender is known, and the cursors equal the snapshot's |
| Wallet.QiAgentWallet.Restore | src/wallet.ts:118-124 | snapshot senders are added as a `Set` adds them, and snapshot cursors override held ones |
| Wallet.QiAgentWallet.AddKnownSenders | src/wallet.ts:119 | each sender not yet known is added at the end, and known senders stay distinct |
| Wallet.QiAgentWallet.SetScannedBlocks | src/wallet.ts:122-124 | every cursor of the record overrides the one held for its zone, and the rest are kept |
| Wallet.QiAgentWallet.Serialize | src/wallet.ts:132-146 | the snapshot carries the ledger wallet's serialisation, the payment code, the current senders in order and a copy of the cursor map |
| Wallet.QiAgentWallet.GetPaymentCode | src/wallet.ts:152-154 | the code of account 0, the same for the wallet's whole life |
| Wallet.QiAgentWallet.GetKnownSenders | src/wallet.ts:420-422 | the known senders in insertion order, each once |
| Wallet.QiAgentWallet.GetBalance | src/wallet.ts:160-179 | fails exactly when the zone cannot be read; otherwise the balance is the value of the zone's outputs with out-of-range indices counting 0, the UTXO count is the number of outputs, and nothing is locked |
| Wallet.QiAgentWallet.GetTotalBalance | src/wallet.ts:193-216 | the sum over the nine zones in order, each unreadable zone counting 0 |
| Wallet.QiAgentWallet.DiscoverSenders | src/wallet.ts:327-358 | returns the new senders of the mailbox list; knownSenders becomes old plus them; exactly their well-formed codes get channels; the calls made are the mailbox read and then each new sender's open attempt and callbacks |
| Wallet.QiAgentWallet.LearnSender | src/wallet.ts:333-353 | an unseen sender becomes known whatever its open does, its channel opens exactly when its code is well formed, and the trace gains its open attempt followed by every sender callback |
| Wallet.QiAgentWallet.CallSenderCallbacks | src/wallet.ts:347-353 | every sender callback is called once, in registration order |
| Wallet.QiAgentWallet.Sync | src/wallet.ts:307-321 | runs a discovery pass and then scans the zone (by default the configured one); fails exactly when the scan fails; leaves other zones' outputs unchanged |
| Wallet.QiAgentWallet.Send | src/wallet.ts:227-267 | checks the mailbox; notifies only when this wallet is not yet in the recipient's list, and pays only if no notify failed; a rejected transfer submits nothing; the receipt carries the payment hash, `""` exactly when the notify was skipped, and the zones defaulted as in the source |
| Wallet.QiAgentWallet.OnPaymentReceived | src/wallet.ts:363-369 | appends the callback and returns its handle |
| Wallet.QiAgentWallet.OnSenderDiscovered | src/wallet.ts:374-380 | appends the callback and returns its handle |
| Wallet.QiAgentWallet.Unsubscribe | src/wallet.ts:365-368 | calling a handle removes the first registration of its callback from its own list and leaves the other list alone |
| Wallet.Spliced | src/wallet.ts:366-367 | the handle's `indexOf`-then-`splice` removes exactly the first registration, as the recursive `RemoveFirst` defines it |
| Wallet.QiAgentWallet.StartPolling | src/wallet.ts:385-404 | any running interval is cleared first, so exactly one runs afterwards, with the given or configured period |
| Wallet.QiAgentWallet.StopPolling | src/wallet.ts:409-415 | clears the interval if one runs; afterwards none runs |
| Wallet.SnapshotRoundTrip | src/wallet.ts:111-146 | `deserialize(serialize())` with the same mnemonic runs on a new ledger wallet with the same payment code and leaves the old one alone; the cursors come back exactly and every known sender once; any other sender is one the sign-in sync found in the mailbox, and with none found the sender list comes back in order; only the senders that sync found get channels |
| Wallet.SendTwiceNotifiesOnce | src/wallet.ts:236-245 | when the mailbox read and write and the transfer succeed, paying the same recipient twice notifies at most once (once if it had not been notified before), and the second receipt has an empty notify hash |
| Wallet.DiscoverTwice | src/wallet.ts:327-358 | a second discovery over an unchanged mailbox returns nothing, opens nothing and calls no callback |

## Left out

- The ledger library itself is not modelled:
  - BIP 47 payment-code and shared-secret derivation;
  - mnemonic and HD key derivation;
  - address generation and gap-limited scanning;
  - transaction building, `convertToQuai` and the wallet's own serialisation.

  `QiHDWallet` is reduced to the answers it gives: which codes it rejects, which zones it cannot read or scan, and whether a transfer is rejected.
- QiWallet.QiHDWallet.Scan: states only that the scan touches no other zone. How the scanned zone's outputs change is internal to the ledger library.
- `create` is not modelled, because it depends on random entropy and on `getNextAddress`. `fromMnemonic` takes the ledger wallet and the mailbox contract as parameters; they stand for what the mnemonic and the provider would produce.
- `sendQi`, `getBalanceDisplay`, `formatQi`, `parseQi`, `formatBalance` and `getDenominationQi` are not modelled. They are decimal and floating-point display conversions around modelled operations.
- `getQiWallet` and `getProvider` are not modelled; they return collaborators.
- The ABI and event-fragment encoding of the mailbox contract is not modelled, nor the RPC transport and `console` logging.
- Denominations.DocumentedValues: only entries 0, 1, 2, 6 and 14 of the denomination table are documented. The other ten entries are positive placeholders, and no property depends on their values.
- Non-integer JavaScript numbers used as denomination indices are not modelled; indices are integers.
- Wallet.QiAgentWallet.Serialize: takes one time `now` for both timestamps, where the source reads the clock twice.
- Wallet.QiAgentWallet.Send: takes the time as `now`. The notify transaction is treated as confirmed once `notify` returns, which the source ensures with `wait()`.
- Wallet.QiAgentWallet.StartPolling: the model keeps only which interval runs. Timer ticks and the fire-and-forget initial `poll()` are concurrency the model does not have.
- Wallet.QiAgentWallet.CallSenderCallbacks: callbacks are identities recorded in the trace. Their bodies and exceptions are not modelled, so a callback cannot re-enter the wallet.
- Payment callbacks are registered and unregistered, but nothing in the source ever invokes them, so the model does not either.
- Mailbox.Registry.Notify: the model delivers listener callbacks synchronously with the transaction. In reality they arrive later, as events.
- Wallet.QiAgentWallet.Deserialize: a snapshot's cursor keys are already zones. The source casts arbitrary record keys to `Zone`.
- Behaviours of the code that a caller might not expect, which the model keeps as written:
  - a failed mailbox read gives an empty list, not a distinct error (src/mailbox.ts:82-85), so `send` notifies again after a failed read;
  - polling has no guard against overlapping syncs (src/wallet.ts:389-400);
  - payment callbacks are stored but never called;
  - `getBalance` counts an out-of-range index as 0 instead of failing (src/wallet.ts:170);
  - a successful notify followed by a failed transfer loses the notify's hash, and `Send` reports only the transfer failure.
