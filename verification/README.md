# Proofs about arkzap's settlement protocol, name registry and rate limiter

This project models the parts of arkzap that decide money and names, and proves what they promise.

* **Settlement and the name registry.** Background polls, status requests, name purchases, `verify` and the zap
  publisher run concurrently. Each holds stale clones of database rows and stale observations of barkd, and issues guarded
  UPDATEs against shared tables. `Server.dfy` models them as a state machine: a task is a program counter with the values it
  carries, and takes one step at every `.await`, every SQL statement and every commit. The registry transaction is split into
  its read, its UPDATE (which locks the row), its INSERT (which locks the index entry) and its COMMIT, at READ COMMITTED.
  Tables, runs and the number of tasks are unbounded. Requests can fail or be dropped at any step, and the process can crash.
* **The periodic passes** (`Poller.dfy`, `PassOutcomes.dfy`, `PassRules.dfy`) and **one round of the receipt publisher** (`Publishing.dfy`)
  in their imperative form, as loops over loaded rows of a mutable `Database`, for every combination of failures.
* **The rate limiter** (`RateLimit.dfy`, `RateLimitTraces.dfy`) against one that never forgets a client, and sharp bounds
  over arbitrary traces.

| file | contents |
|---|---|
| `Wrappers.dfy`, `Decimals.dfy` | options and results; printing and parsing numbers |
| `RateLimit.dfy`, `RateLimitTraces.dfy` | the limiter object and its step function; theorems over traces |
| `Names.dfy` | name normalization and the ownership message |
| `Barkd.dfy` | receive phases, the search for an Ark payment, what an address received |
| `Ledger.dfy` | rows, tables, guarded statements, and the `Database` object that runs them |
| `Poller.dfy`, `PassOutcomes.dfy` | the passes over pending rows; what each leaves behind |
| `PassRules.dfy` | the rules of a pass and of a whole poll in columns, clock readings and barkd's own words |
| `Receipts.dfy`, `Publishing.dfy` | zap requests, relay selection, receipts; a round of the publisher |
| `Server.dfy` | the state machine: wallet, database, tasks, publisher, runs |
| `ServerInvariant.dfy` | the inductive invariant, and how one state may follow another |
| `ServerEffects.dfy`, `ServerTasks.dfy`, `ServerProof.dfy` | every step keeps the invariant, hence every run does |
| `Guarantees.dfy` | what holds in every reachable state and over every run |
| `Scenarios.dfy` | uninterrupted claims, and lookups by payment hash |
| `Requests.dfy`, `Deliveries.dfy` | what is certain to be possible: answers, purchases, freed names, delivered receipts |
| `Races.dfy`, `StaleClaims.dfy`, `StaleReservations.dfy`, `ArkadeClaims.dfy`, `StrayReservations.dfy` | tempting claims that are false, with the exact condition of each |

The theorems are stated independently of the functions they are about: expiry in columns and clock readings, receives by
the names of their phases, fees in stored millisatoshis, windows and limits as numbers. `Lapsed`, `Sighting`, `PaidRow`,
`ReservedRow`, `IsPaymentOf`, `AwaitsReceipt` and `InGrammar` are such reference definitions.

`dafny verify dfyconfig.toml` checks everything.

## What the environment is assumed to do

* barkd's receive for a hash does not go back to `awaiting-payment` once it has left it, and barkd does not forget it: a lookup
  answers "not found" only before a payment was accepted. (The code reads "not found" as permission to expire, so a barkd that
  prunes accepted receives would void the cancellation results.)
* barkd's wallet history only appends, and barkd never hands out a receive address twice.
* One clock that does not go back is shared by the server, Postgres and barkd.
* Printing an Ark address and parsing it gives the same address, and a printed address has no line end
  (`FaithfulAddresses`). This is the only property of the address library that any proof uses.
* Signature checks, event ids, and the parsers for events and relay URLs are arbitrary functions.
* The domain, the server key and the enabled backends are the same after a crash as before. The fee for a name may change at any time.
* The unique indexes are insert guards, a transaction is all or nothing, and `NOW()` inside a transaction is its start.

## Where the code does less than one might expect

* **An accepted payment can be cancelled.** README.md:330-332 says that accepted Bark payments stay pending through expiry. The
  code cancels on what it last observed, which may predate the acceptance. `StaleClaims.SomeRunLosesPayment` builds a run that
  loses a payment accepted in time, and `StaleClaims.StaleCancellationIff` gives the exact condition for any pending row of any
  reachable state: once barkd has accepted in time, some run loses the payment if and only if a claim in flight still holds
  an unpaid sight of it; before that, if and only if the invoice has not expired yet.
* **So can the fee of a name** (README.md:312-316). `StaleReservations.StaleReservationIff` gives the exact condition for a Lightning
  fee. It differs in two ways: a claim looks for an Ark payment second, and one that is there saves the reservation; and the
  moment that counts is the expiry of the fee invoice, which may come after that of the reservation.
  `StaleReservations.StaleHistoryIff` gives it for a fee that arrives by Ark before the reservation is released: the claim that
  releases it may have looked before.
* **A pending reservation does not mean that the name is free.** The checks and the INSERT of a purchase are separate steps, and
  the partial index covers pending rows only. `StrayReservations.SomeRunLeavesStray` builds such a run.
  `StrayReservations.StrayIff` says exactly when an active name can still get a reservation: when it has one, or when a purchase
  is past the check of `src/routes.rs:868`. `Guarantees.StrayNeverSettles` shows that a stray reservation never takes the name.
* **An Arkade invoice can become invisible to `verify`**, if a Bark invoice with the same payment hash is issued later, since the Bark
  table is looked up first. `Scenarios.LookupHiddenIff` gives the exact condition. `verify` then finds an invoice for another
  address and answers nothing (`Scenarios.HiddenRowIsSilent`); it never contradicts a settled answer (`Guarantees.VerifyMonotone`).
* **`mark_settled_and_activate` returning false does not mean that nothing changed.** `Ledger.ActivationAnswer` says when it did:
  exactly when the name was taken and the reservation still pending, which it has then cancelled.
* **The Arkade pass and the publisher's round are not error-isolated**: a lost database connection ends them, unlike the other
  two passes (`PassOutcomes.ArkadePassConcludes`, `Publishing.RoundConcludes`).
* **Arkade invoices are cancelled on expiry alone** (`Guarantees.ArkadeCancellationJustified`), even while another claim holds the
  preimage of the swap. `ArkadeClaims.WastedClaimIff` says exactly when a pending one can end cancelled with its swap claimed.
* **Clock readings are taken before the lock**, so they can be out of order. Cleanup of the rate limiter stays invisible exactly
  up to half a window of disorder (`RateLimitTraces.CleanupInvisibleIff`), and a client that keeps to its limit in every minute
  can be refused at any disorder unless the limit is one (`RateLimitTraces.ModerateServedIff`).

## Model

| member | source | states |
|---|---|---|
| RateLimit.RateLimiter.Allow | src/rate_limit.rs:40-75 | the object does to its fields exactly what the pure step function says, and gives its answer |
| RateLimitTraces.CleanupInvisible | src/rate_limit.rs:45-65 | for clock readings at most half a window out of order, every answer equals that of a limiter that never evicts |
| RateLimitTraces.CleanupInvisibleIff | src/rate_limit.rs:45-65 | eviction is invisible to all traces with this much disorder if and only if twice the disorder fits into the window |
| RateLimitTraces.RateBound | src/rate_limit.rs:40-75 | for readings at most half a window out of order, k minutes let at most (k+1)N-1 calls of a client through, and N-1 more if the disorder exceeds a nanosecond; none if the limit is zero |
| RateLimitTraces.RateBoundAttained | src/rate_limit.rs:40-75 | for every positive limit, every k and every such disorder some trace reaches that bound exactly |
| RateLimitTraces.ModerateServedIff | src/rate_limit.rs:45-74 | clients with at most N calls in every minute are never refused, whatever the others do, if and only if readings are in order, or the limit is one and the disorder under a minute, or the limit is zero |
| RateLimitTraces.MemoryBound | src/rate_limit.rs:49-67 | after any trace with readings up to a window out of order, every stored client called less than three windows before each reading |
| Names.NormalizeMeaning | src/routes.rs:1022-1048 | normalization returns a name exactly if it is in the published grammar, is no address, and is written in the input, in either case and with Unicode white space around it |
| Names.NormalizeFixes | src/routes.rs:1022-1048 | the names that normalization leaves alone are exactly those of the grammar |
| Names.NormalizeIdempotent | src/routes.rs:1022-1048 | normalizing twice is normalizing once |
| Names.MessageInjective | src/routes.rs:1050-1052 | equal ownership messages have equal name, domain and address, even if the domain contains line ends or labels |
| Names.MessageAmbiguousWithLineEnds | src/routes.rs:1050-1052 | the condition on the address is needed: with a line end in it two different triples share a message |
| Barkd.ReceivedArkPaymentMeaning | src/barkd.rs:171-187 | the nested search returns the first paying output in history order, and nothing exactly when there is none |
| Barkd.ListingFilterRedundant | src/barkd.rs:166-187 | searching the listing filtered by address gives the same result as searching the whole history |
| Barkd.MovementReferenceInjective | src/barkd.rs:179 | a stored payment reference names one movement |
| Decimals.DecimalRoundTrip | src/zap_receipts.rs:49-52 | an amount printed in decimal parses back as a 64-bit number exactly if it is one |
| Decimals.ParseU64Meaning | src/zap_receipts.rs:49-52 | parsing returns a number exactly if it fits into 64 bits and the text is its decimal form, with leading zeros and a plus sign allowed |
| Ledger.InStateMeaning | src/models/invoice.rs:54-59 | loading by state returns all rows in that state, once each, in id order |
| Ledger.CustomInStateMeaning | src/models/custom_address.rs:87-92 | the same for reservations |
| Ledger.Database.MarkSettled | src/models/invoice.rs:69-81 | settles the row if it is pending and says so; otherwise changes nothing |
| Ledger.Database.MarkCancelled | src/models/invoice.rs:83-91 | cancels the row if it is pending and says so; otherwise changes nothing |
| Ledger.Database.MarkArkadeSettled | src/models/arkade_invoice.rs:61-73 | the guarded settlement of Arkade rows |
| Ledger.Database.MarkArkadeCancelled | src/models/arkade_invoice.rs:75-83 | the guarded cancellation of Arkade rows |
| Ledger.Database.MarkCustomCancelled | src/models/custom_address.rs:165-173 | the guarded cancellation of reservations |
| Ledger.Database.MarkSettledAndActivate | src/models/custom_address.rs:128-163 | run alone: cancels if the name is taken, else settles a pending row and adds its registry entry, else changes nothing |
| Ledger.ActivationAnswer | src/models/custom_address.rs:134-162 | it answers true exactly for a free name and a pending row; a false answer changed something exactly for a taken name and a pending row |
| Ledger.Database.LoadDue | src/models/zap.rs:56-68 | returns exactly the zaps of recently settled invoices without a receipt, once each, in the order of settlement |
| Ledger.Database.GetUnpublishedSettled | src/models/zap.rs:56-68 | the same, on the Bark tables |
| Ledger.Database.GetArkadeUnpublishedSettled | src/models/arkade_zap.rs:46-58 | the same, on the Arkade tables |
| Ledger.Database.SetZapEventId | src/models/zap.rs:46-53 | overwrites the event id of that one zap |
| Ledger.Database.SetArkadeZapEventId | src/models/arkade_zap.rs:36-43 | overwrites the event id of that one Arkade zap |
| Poller.PollerTask.ApplyInvoiceReceiveStatus | src/main.rs:423-452 | settles on a revealed preimage and notifies if a row changed; cancels an expired row that awaits payment; holds otherwise |
| Poller.PollerTask.ClaimInvoiceIfPaid | src/main.rs:393-421 | the same from a fresh status, where a missing receive allows expiry and an error changes nothing |
| Poller.PollerTask.CancelInvoiceIfExpired | src/main.rs:454-470 | cancels only an expired row |
| Poller.PollerTask.ClaimListedInvoice | src/main.rs:241-256 | one iteration: the listed receive if there is one, else the status of its hash |
| Poller.PollerTask.ClaimPaidBarkInvoicesOnce | src/main.rs:222-260 | the loop over loaded invoices, through the listing or one by one, leaves what the pass function says |
| Poller.PollerTask.ClaimCustomInvoiceIfArkPaid | src/main.rs:540-591 | activates on an Ark payment of the fee, and tells found, not found and failed apart |
| Poller.PollerTask.ClaimCustomInvoiceIfPaid | src/main.rs:472-538 | preimage first, then the Ark history, then expiry; every failure ends the claim unchanged |
| Poller.PollerTask.CancelCustomInvoiceIfExpired | src/main.rs:593-609 | cancels only an expired reservation |
| Poller.PollerTask.ClaimPaidCustomAddressInvoicesOnce | src/main.rs:262-283 | the loop over loaded reservations leaves what the pass function says |
| Poller.PollerTask.ClaimPaidArkadeInvoicesOnce | src/main.rs:285-327 | the loop over loaded Arkade invoices leaves what the pass function says, and stops where it does |
| Poller.PollerTask.ClaimPaidInvoicesOnce | src/main.rs:211-227 | reservations, then Bark, then Arkade if enabled; a failed load ends the poll and keeps what was done |
| PassOutcomes.BarkPassConcludes | src/main.rs:219-260 | each loaded row ends in the outcome of its own observation, whatever fails for the others, and no other row changes |
| PassOutcomes.BarkPassIdempotent | src/main.rs:219-260 | a second pass with the same answers, clock and failures changes nothing |
| PassOutcomes.CustomPassConcludes | src/main.rs:262-283 | each loaded reservation ends in its own outcome, and the registry grows by exactly the activated names |
| PassOutcomes.CustomPassOrderIndependent | src/main.rs:262-283 | any permutation of the loaded reservations leaves the same rows and the same registry up to serial ids |
| PassOutcomes.CustomPassIdempotent | src/main.rs:262-283 | a second pass over the reservations changes nothing |
| PassOutcomes.ArkadePassConcludes | src/main.rs:285-327 | rows before the first lost connection are concluded, the rest are not visited, and the pass fails exactly then |
| PassOutcomes.ArkadePassIdempotent | src/main.rs:285-327 | a second pass stops at the same row with the same result, and changes nothing |
| PassRules.ByHashMeaning | src/main.rs:229-237 | the collected list has exactly the listed hashes, each with its last entry |
| PassRules.BarkPassRule | src/main.rs:219-260 | whatever barkd lists and answers, a pending row is settled exactly if its preimage is out, with that preimage; cancelled exactly if no receive or an unpaid one is seen and a stored or encoded expiry has passed; else untouched |
| PassRules.BarkClaimReports | src/main.rs:393-470 | a claim succeeds exactly if barkd answered and a connection was there for whatever had to be written |
| PassRules.NameClaimReports | src/main.rs:472-609 | the same for a reservation, which also needs the history unless a preimage is out |
| PassRules.PassSettlesOwnHash | src/main.rs:239-257 | a stored preimage was revealed for the row's own hash, by a listed entry or by the answer for the hash |
| PassRules.BatchRefinesSimple | src/main.rs:229-257 | while the list agrees with the per-hash answers, the batch pass equals the pass without a list |
| PassRules.CustomPassRule | src/main.rs:472-609 | a revealed preimage or an Ark output worth the stored amount activates a free name and cancels a taken one; an unpaid reservation past its expiry is released; else untouched |
| PassRules.PollConcludes | src/main.rs:211-227 | what one poll leaves of each table, for every failing load and lost connection, when it succeeds, and that it notifies exactly if it settled an invoice |
| PassRules.PollIdempotent | src/main.rs:211-227 | polling twice in an unchanged world is polling once, whatever fails along the way |
| Receipts.ZapRequestRelays | src/zap_receipts.rs:233-253 | the loop with its early exit returns the first ten distinct public relays of the first relays tag |
| Receipts.SelectRelaysMeaning | src/zap_receipts.rs:233-253 | at most ten, distinct, listed and public; and all of those if there are fewer than ten |
| Receipts.SelectsFromFront | src/zap_receipts.rs:233-253 | the relays are those of a prefix of the tag: all of it, or the first entries that hold ten |
| Receipts.EarlyStop | src/zap_receipts.rs:246-251 | ten relays found in a prefix are those of the whole tag |
| Receipts.TagCountMeaning | src/zap_receipts.rs:30-44 | a positive count means that some tag has the kind, and a count of at most one that no two have it |
| Receipts.ValidateZapRequestIff | src/zap_receipts.rs:24-59 | validation accepts exactly the requests that Appendix D of NIP-57 allows and that list a public relay |
| Receipts.PrintedAmountAccepted | src/zap_receipts.rs:49-56 | an accepted request that prints an amount prints the amount of the invoice |
| Receipts.BuildZapReceipt | src/zap_receipts.rs:201-229 | the tags are pushed in the order of the receipt function |
| Receipts.ReceiptCommits | src/zap_receipts.rs:201-229 | reading a receipt back gives the request, invoice, preimage, copied tags, sender and settlement second it was built from |
| Receipts.AcceptedRequestPublishes | src/zap_receipts.rs:45-47 | a stored request that passed validation never fails publication for lack of relays or parsing |
| Publishing.PublisherTask.PublishReceipt | src/zap_receipts.rs:138-156 | yields the event id exactly when some relay accepted the receipt that the row determines |
| Publishing.PublisherTask.PublishBark | src/zap_receipts.rs:84-107 | the loop over due zaps leaves what the round function says, and stops where a receipt cannot be recorded |
| Publishing.PublisherTask.PublishArkade | src/zap_receipts.rs:109-132 | the same loop on the Arkade zaps |
| Publishing.PublisherTask.PublishPending | src/zap_receipts.rs:75-135 | both loads, then the Bark round, then the Arkade round unless the Bark round failed |
| Publishing.RoundConcludes | src/zap_receipts.rs:84-107 | failures to send are isolated; the first accepted receipt that cannot be recorded ends the round, with all before it concluded |
| Publishing.SentAreReceipts | src/zap_receipts.rs:84-107 | whatever is offered to relays is the receipt of a due zap |
| Publishing.RetryRepeats | src/zap_receipts.rs:196-200 | any later round on tables that evolved from these sends the same event id for the same zap again, and only if it was not recorded |
| ServerInvariant.InitInv | src/main.rs:59-120 | the server starts in the invariant |
| ServerInvariant.TaskOkStable | src/main.rs:393-609 | what a task carries from its reads stays true while others run |
| ServerProof.StepOk | src/main.rs:200-609 | every step of every task, of the environment and of the publisher keeps the invariant, and rows only evolve |
| ServerProof.RunOk | src/main.rs:200-609 | the same over runs of any length |
| Guarantees.WriteOnce | src/models/invoice.rs:69-91 | a row that left Pending never changes again, keeps its recorded cause, and was updated by exactly one statement |
| Guarantees.AtMostOneWin | src/models/custom_address.rs:134-173 | over any run at most one `mark_*` call per row returns true, and one did exactly if the row is decided |
| Guarantees.RegistryBijection | src/models/custom_address.rs:128-163 | in every reachable state settled reservations and registry entries are in bijection, with equal name and address |
| Guarantees.TransactionsLinearize | src/models/custom_address.rs:128-163 | the interleaved transaction acts at one moment as if it ran alone, or ends in a unique violation that undoes it |
| Guarantees.LocksAreReleased | src/models/custom_address.rs:128-163 | no deadlock: whenever a task waits for a lock, a lock holder can step |
| Guarantees.StrayNeverSettles | src/routes.rs:866-928 | a pending reservation whose name is already active never settles |
| Guarantees.ActiveNameResolves | src/routes.rs:701-727 | an active name resolves to its address and to nothing else in every later state |
| Guarantees.EntriesAreOwned | src/routes.rs:838-858 | each registry entry was signed for by its address, with the message spelled out, which names this entry and no other |
| Guarantees.ReachablePassOrderIndependent | src/main.rs:262-283 | in every reachable state the order of a pass over the reservations does not matter, stray rows included |
| Guarantees.SettledInvoiceProvenance | src/main.rs:429-445 | a settled Bark invoice holds a preimage barkd revealed for the hash in its invoice; a settled Arkade one a preimage its swap yielded |
| Guarantees.SettledNameProvenance | src/main.rs:513-531 | a settled reservation holds either the reference of an Ark output on its fee address worth its amount, and no preimage, or a preimage that barkd revealed for its hash |
| Guarantees.ArkPaymentsDistinct | src/barkd.rs:157-197 | Ark-settled reservations map one to one to outputs of the history on their fee addresses, each worth the stored amount |
| Guarantees.ArkFeesConserved | src/main.rs:540-591 | the stored amounts of all names activated by Ark, in millisatoshis, were received on addresses that barkd issued |
| Guarantees.BarkCancellationJustified | src/main.rs:414-470 | a cancelled invoice was seen unpaid or missing, and the clock had reached its expiry; one accepted in time was seen no later than that |
| Guarantees.ArkadeCancellationJustified | src/main.rs:297-306 | the clock had reached the expiry of a cancelled Arkade invoice when it was checked |
| Guarantees.NameCancellationJustified | src/main.rs:472-537 | a cancelled reservation was unpaid and past its expiry, with no output of its amount in the history seen, or its name was taken |
| Guarantees.BarkPassOnTime | src/main.rs:373-379 | a Bark pass cancels no invoice before its expiry, and after it every one that it sees unpaid |
| Guarantees.ArkadePassOnTime | src/main.rs:297-306 | an Arkade pass cancels no invoice before its expiry, and after it every one that it gets to |
| Guarantees.NamePassOnTime | src/main.rs:593-609 | a pass releases no reservation before its expiry, and from then on every one without a payment |
| Guarantees.OneReceiptPerZap | src/zap_receipts.rs:196-229 | at most one event id per zap over whole runs, through retries and crashes, and no other is ever recorded |
| Guarantees.SentReceiptsAreFaithful | src/zap_receipts.rs:84-156 | a sent receipt commits to the stored request, invoice, preimage and settlement second of a settled row |
| Guarantees.SettledZapsPublish | src/zap_receipts.rs:138-149 | every stored zap of a settled invoice has a receipt to send |
| Guarantees.NoLostWakeup | src/zap_receipts.rs:62-82 | parked after a successful load, a zap of the last 24 hours without a receipt that it did not load has a stored permit or a notification to come |
| Guarantees.NoLostWakeupSinceLoad | src/main.rs:437-443 | the same for any zap settled since the last load began, whatever became of that load |
| Guarantees.VerifySound | src/routes.rs:1126-1162 | a settled answer is about a settled row of the address or name that was asked for, with its preimage, then and ever after |
| Guarantees.SettledIsAnswered | src/routes.rs:1126-1162 | once a row is settled with a preimage, every later answer read from it is settled and carries it |
| Guarantees.VerifyMonotone | src/routes.rs:1126-1162 | every later answer to the same question repeats a settled one, with its preimage |
| Guarantees.AnswersFromOneRow | src/routes.rs:1126-1162 | all answers to one address and hash are read from one row, whatever is issued in between the two lookups |
| Guarantees.TablesShareNoAddress | src/routes.rs:409-440 | in every reachable state no Bark row has the address of an Arkade row |
| Scenarios.UninterruptedBarkClaim | src/main.rs:393-452 | a Bark claim that runs alone does what one iteration of the pass does, notification included |
| Scenarios.UninterruptedArkadeClaim | src/main.rs:295-324 | the same for an Arkade claim |
| Scenarios.UninterruptedNameClaim | src/main.rs:472-591 | the same for a reservation, through the transaction |
| Scenarios.LookupHiddenIff | src/routes.rs:1213-1239 | a row that lookups find can be hidden by a later invoice if and only if it is an Arkade row and some Bark address exists |
| Scenarios.HiddenRowIsSilent | src/routes.rs:1142-1144 | a lookup for the address of a hidden row answers nothing |
| Requests.UninterruptedVerify | src/routes.rs:1126-1162 | a request is answered from the row its hash finds, pending ones after a second lookup, and not at all if the row is for another address |
| Requests.VerifyAnswers | src/routes.rs:701-727 | in every reachable state, asking for an invoice by its address or a name of that address is answered with what its row says |
| Requests.VerifyRefreshes | src/routes.rs:1134-1139 | a pending invoice whose preimage is out is answered as settled with it, before any poll |
| Requests.UninterruptedPurchase | src/routes.rs:817-940 | a valid purchase reserves the name exactly if it is neither active nor reserved, with the fee, message, amount and expiry spelled out |
| Requests.ReservationsHoldAnHour | src/routes.rs:942-947 | no reservation of a reachable state lasts for more than an hour from now, nor longer than its fee invoice |
| Requests.UnpaidNameIsFreed | src/main.rs:472-609 | a reservation that nobody pays can be released within the hour, whatever else is going on, which frees its name |
| Deliveries.UninterruptedRound | src/zap_receipts.rs:75-135 | a round with willing relays records a sent receipt for exactly the zaps of the last 24 hours without one |
| Deliveries.PaidZapIsDelivered | src/zap_receipts.rs:62-156 | from any reachable state, a zap request stored with a Bark invoice that is then paid can be published and recorded, committing to request, invoice and preimage |
| Deliveries.ClaimedZapIsDelivered | src/zap_receipts.rs:109-132 | the same for an Arkade invoice that has not expired |
| StaleClaims.StaleCancellationIff | src/main.rs:393-470 | a pending invoice can lose a payment accepted in time if and only if it is accepted and a claim holds an older unpaid sight, or nothing is accepted and the invoice has not expired |
| StaleClaims.SomeRunLosesPayment | src/main.rs:423-470 | for any Bark address, a concrete run in which a payment accepted in time is cancelled |
| StaleReservations.StaleReservationIff | src/main.rs:472-537 | the same for the Lightning fee of a reservation, where an Ark payment found by the second look prevents the loss |
| StaleReservations.StaleHistoryIff | src/main.rs:540-609 | a pending reservation can be cancelled as expired after its fee arrived by Ark if and only if a claim is past both looks, or none has arrived and a claim can still look in vain |
| ArkadeClaims.WastedClaimIff | src/main.rs:295-324 | a pending Arkade invoice can end cancelled with its swap claimed if and only if it has not expired, or its swap is claimed, or a claim of it is in flight |
| StrayReservations.StrayIff | src/routes.rs:866-928 | an active name can get a pending reservation if and only if it has one already or a purchase is past the check for active names |
| StrayReservations.SomeRunLeavesStray | src/routes.rs:866-928 | a concrete run that leaves a pending reservation for an active name |

## Left out

* HTTP, routing, CORS, timeouts, JSON shapes, HTML pages and logging.
* BOLT11, bech32 and Ark address formats, Schnorr signatures, hashes and event ids: they are functions in `Config` and `Nostr`.
* The Arkade SDK and its swap storage: a claim yields some preimage or fails.
* Diesel and Postgres below single statements. Serial ids start at 0 instead of 1; ties in `settled_at` come in any order.
* The background tasks' endless loops: `run` and `claim_paid_invoices` are represented by the steps of the state machine, and one
  iteration of each by a method.
* Relay networking: a send reports how many relays accepted the receipt, or fails.
* `Invoice::cancel_expired_pending`, which only tests call, and which would cancel without looking at barkd.
* Amount checks on their own, and 64-bit amounts: the fee and `max_sendable` are small enough for the stored columns.
* Claims that a pass, a status route or a purchase makes inline are separate tasks here, each started from any pending row at any
  time. This allows every run of the code and more. In particular `verify` reads again after other tasks have moved at will.
* A single UPDATE that is not followed by another statement is one step together with its commit.
* The request handlers of `src/routes.rs` are modelled as the steps of the state machine only, on values; objects with fields are
  the rate limiter, the database, the poller and the publisher.
* `invoice_expires_at` for dates outside the calendar.
- RateBound: claims nothing for clock readings more than half a window out of order, where cleanup is visible.
* Columns that no decision reads (`lnurlp_comment`, `created_at`, `updated_at`). Bark and Arkade invoice rows share one datatype.
