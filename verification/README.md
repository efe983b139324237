# Basebreak: verified models

Basebreak admits, pays for, carries out and records causal verification runs of code changes. This project
models its stateful cores in Dafny and proves what they promise over every input and every history.

* **Admission ledger** (`LedgerModel`, `AdmissionLedger`, `LedgerChanges`, `LedgerInvariant`, `LedgerHistory`,
  `LedgerEvolution`, `LedgerResults`, `LedgerReplay`, `LedgerSweeps`, `LedgerEffects`). Five tables: grants, runs, one aggregate
  costs row, reconciliations and cost-hold exceptions, with the receipts beside them. `AdmissionLedger` is the
  object with its fields updated row by row; each method is proved to take the step `LedgerModel` defines on the
  tables. Each step is a sequence of elementary changes, the invariant is proved once per change, and so it
  holds after every history of operations with arbitrary clock readings. The aggregate row is kept by
  increments while run rows are overwritten, so the relation between them needs what the tables forget: the
  `Books` record what late records stranded. `LedgerEffects` says what each operation does on the fields alone:
  which amounts, statuses and rows, and exactly when it is accepted.
* **Request handlers** (`RunHandlers`, `RunHandlerOutcomes`). Any number of `POST /v1/runs` handlers, each with a program counter,
  interleaved step by step with each other and with any other ledger operation; when a second one is admitted
  while a first is under way, when none ever is, and what a handler's outcome leaves in the tables.
* **Canonical JSON and receipts** (`JsText`, `CanonicalJson`, `CanonicalJsonOrder`, `CanonicalPrinter`,
  `JsonParser`, `CanonicalJsonRoundTrip`, `CanonicalText`, `SeqImages`, `Receipts`, `ReceiptPayload`). The printer whose bytes are hashed, a JSON
  parser, and the digest with its normalisation, on strings of 16-bit units.
* **Budget ledger** (`BudgetModel`, `BudgetLedger`, `BudgetEffects`, `BudgetProofs`, `BudgetTime`, `BudgetGate`) with
  its reservations and the fail-closed gate, and the **risk pipeline** (`RiskPipeline`) that tells the gate what to
  require.
* **Control-character repair** (`ControlCharRepair`), **base64 transport** (`Base64Transport`), **execution
  cache** (`ExecutionCache`), **coverage arithmetic** (`CoverageArithmetic`) and **modular exponentiation**
  (`ModPow`). `SeqSearch` and `PyText` hold what several of them share.

Money and seconds are `real`; tokens, counts and milliseconds are integers. SHA-256, letter case, path patterns,
clock readings and fresh identifiers are parameters; where a result needs a collision-free digest it says so.

Five promises are false of the code, and the code is kept as it is. Each has its exact condition and a witness:

* The aggregate unknown cost is not always the sum over the runs. A run is recovered after 60 seconds
  (`cloudflare/src/ledger.js:1674`) while a provider call may last 180 (`cloudflare/src/provider_dispatcher.js:28`),
  and a late record overwrites the run's unknown cost but not the aggregate. `LateRecordStrands` shows it for every
  admissible request, `UnknownAgreesIff` gives the exact condition, `StrandedForever` the consequence.
* For the same reason two provider calls can be outstanding at once (`TwoCallsOutstanding`); at most one of their
  runs is active (`OneActiveCall`). `AskAdmittedIff` says exactly when a handler is admitted: its request passes
  every other gate and each run is finished or past the deadline of recovery. `OneAtATimeIff` lifts it: at most one
  handler is ever under way exactly on the histories where no reservation meets that condition while another
  handler is.
* `sync_from_repair_loop_counters` ignores reservations, so it can break the promise of a reservation
  (`SyncBreaksPromise`). `PromisesFitIff` says on which histories it does not, and `PromiseKeptAfter` what a holder
  then gets.
* Seconds are reserved but never summed, so they can be promised twice (`TimeIsPromisedTwice`). `StepTimeIff` and
  `TimeFitsIff` say exactly which steps and histories keep what is promised within the limit, and
  `TimePromiseKeptAfter` what a holder then gets.
* More risk does not always need more sandboxes (`FloorCanDrop`); `FloorDropsIff` says exactly when the floor drops.

One more disagreement between code and comment: the repair of control characters promises to leave none in a
string, but copies one that directly follows a backslash; `CleanIff` states the exact condition and
`ControlCanRemain` an input.

## Model

| member | source | states |
|---|---|---|
| AdmissionLedgerService.AdmissionLedger.IssueGrant | cloudflare/src/ledger.js:511-556 | a grant is added as issued and unused, unless its identifier or token exists |
| AdmissionLedgerService.AdmissionLedger.ExpireStaleCostHoldExceptions | cloudflare/src/ledger.js:1388-1455 | the row loop is the sweep of the tables and counts exactly the exceptions it expires |
| AdmissionLedgerService.AdmissionLedger.RecoverDurableState | cloudflare/src/ledger.js:1674-1726 | the row loop is recovery of the tables and counts exactly the active runs it closes |
| AdmissionLedgerService.AdmissionLedger.GetAuthorizedCostHoldException | cloudflare/src/ledger.js:1464-1486 | after a sweep, the authorised exception of the trimmed token, none for a blank one |
| AdmissionLedgerService.AdmissionLedger.ReserveAdmission | cloudflare/src/ledger.js:609-753 | recovery, gates, grant lookup and replay check take the reservation step, with its reply |
| AdmissionLedgerService.AdmissionLedger.ReserveGrant | cloudflare/src/ledger.js:755-812 | the checks on the grant and on concurrency, with the expiry they cause |
| AdmissionLedgerService.AdmissionLedger.AdmitInTransaction | cloudflare/src/ledger.js:814-908 | the transaction charges grant, exception, run and costs together, and a violated constraint undoes all |
| AdmissionLedgerService.AdmissionLedger.MarkInFlight | cloudflare/src/ledger.js:916-921 | only a reserved run goes in flight |
| AdmissionLedgerService.AdmissionLedger.RecordExecutionSuccess | cloudflare/src/ledger.js:933-1056 | a storable receipt of a known run closes it, moves its costs and is stored; anything else changes nothing |
| AdmissionLedgerService.AdmissionLedger.RecordExecutionFailure | cloudflare/src/ledger.js:1072-1175 | a failure closes its run, retaining the reservation as unknown cost unless the cost is known or nothing was dispatched |
| AdmissionLedgerService.AdmissionLedger.ReconcileUnknownCost | cloudflare/src/ledger.js:1204-1330 | an attested release moves unknown cost from run and aggregate into a reconciliation, never more than the run holds |
| AdmissionLedgerService.AdmissionLedger.AuthorizeCostHoldException | cloudflare/src/ledger.js:1503-1633 | an exception is authorised only for an unused single-use grant that covers exposure, cap and floor |
| AdmissionLedgerService.AdmissionLedger.StoreReceipt | cloudflare/src/ledger.js:1761-1793 | a receipt is stored exactly when every check passes |
| AdmissionLedgerService.AdmissionLedger.GetReceipt | cloudflare/src/ledger.js:1820-1838 | what reading a stored row gives; where every row reads, as after any history, a stored id gives a verified receipt that states its row's digest |
| LedgerEffects.IssueEffect | cloudflare/src/ledger.js:511-556 | a grant carries the token, expiry, uses, balance and cap it was issued with, and is refused exactly for a taken identifier or token |
| LedgerEffects.SweepEffect | cloudflare/src/ledger.js:1388-1425 | an authorised exception lapses exactly when its grant is missing, another's, past its time, spent, or not single-use |
| LedgerEffects.SweptGrants | cloudflare/src/ledger.js:1399-1455 | a sweep expires exactly the issued grants past their time that an authorised exception is bound to |
| LedgerEffects.RecoveryEffect | cloudflare/src/ledger.js:1674-1712 | exactly the active runs of more than 60 seconds time out, and their reservation becomes unknown cost |
| LedgerEffects.AdmissionEffect | cloudflare/src/ledger.js:659-889 | an admitted request reserves its own estimate if positive and 0.05 otherwise, in reply, run and aggregate alike; the new run records identifier, key, token, start and fingerprint of the request |
| LedgerEffects.AdmissionSpends | cloudflare/src/ledger.js:828-869 | one use of the grant with the request's token is spent, and the first authorised exception of that token is consumed for the run |
| LedgerEffects.ReplyIsFirst | cloudflare/src/ledger.js:627-908 | the reply is the first of the outcomes, in the order of the checks, whose cause holds in the recovered tables |
| LedgerEffects.ExpiredIsMarked | cloudflare/src/ledger.js:755-765 | a refusal for an expired grant leaves the grant marked expired |
| LedgerEffects.MarkEffect | cloudflare/src/ledger.js:916-921 | the one run found goes from reserved to in flight, and nothing else changes |
| LedgerEffects.FailureEffect | cloudflare/src/ledger.js:1084-1155 | a reported cost is shown as reported; without one the reservation becomes unknown if ambiguous or dispatched, and is let go otherwise; the status tells which |
| LedgerEffects.FailureKeepsIff | cloudflare/src/ledger.js:1095-1155 | in every reachable state a failure moves an active run's whole reservation to unknown in run and aggregate exactly when no cost is reported and it is ambiguous or dispatched |
| LedgerEffects.SuccessEffect | cloudflare/src/ledger.js:974-1038 | a success completes its run, shows the reported cost as reported or else the reservation as unknown, and files the receipt under the run |
| LedgerEffects.StorableIff | cloudflare/src/ledger.js:945-967 | a receipt is storable exactly with its three texts, a permitted provenance, an authentic digest of 64 units, and no secret |
| LedgerEffects.StoreEffect | cloudflare/src/ledger.js:1761-1793 | a storable receipt is filed under its run with its stated digest and canonical text, and nothing else changes |
| LedgerEffects.ReadIff | cloudflare/src/ledger.js:1820-1838 | a stored row is parsed and its digest checked again |
| LedgerEffects.StoredWasChecked | cloudflare/src/ledger.js:1761-1793 | after any history each stored receipt was filed by an event that found no secret in it, was permitted its provenance and checked its digest |
| LedgerEffects.ReconcileEffect | cloudflare/src/ledger.js:1204-1330 | a release is accepted exactly for a complete record and an amount within the run's unknown cost, by default all of it; that amount leaves run and aggregate and is written down |
| LedgerEffects.AuthorizeEffect | cloudflare/src/ledger.js:1503-1633 | an exception is authorised exactly when named, affordable by its grant, the only one authorised and the first of its token; it stores exposure, cap, floor and balance as they were |
| LedgerInvariant.TurnKeeps | cloudflare/src/ledger.js:814-1155 | every elementary change keeps all six parts of the ledger invariant |
| LedgerHistory.EventLeads | cloudflare/src/ledger.js:609-1712 | every operation, from any state that satisfies the invariant, is a sequence of allowed elementary changes |
| LedgerHistory.ReachInv | cloudflare/src/ledger.js:609-1712 | every history of operations from empty tables ends in a state that satisfies the invariant |
| LedgerHistory.BooksOnlyWatch | cloudflare/src/ledger.js:609-1712 | the books do not influence the tables |
| LedgerResults.ExposureConserved | cloudflare/src/ledger.js:885-1325 | reserved, unknown, released, known-settled and freed exposure add up to all admitted estimates on every history; what is freed is judged on the record: no cost, not ambiguous, not dispatched |
| LedgerResults.AggregatesAgree | cloudflare/src/ledger.js:979-1020 | reserved and metered columns agree with the runs; unknown and observed agree up to what late records overwrote |
| LedgerResults.NothingIsClipped | cloudflare/src/ledger.js:1008-1325 | no subtraction guarded by `MAX(0.0, …)` ever reaches zero from below |
| LedgerResults.ReleasesWithinEstimate | cloudflare/src/ledger.js:1278-1325 | released, unknown and reserved amounts of a run stay within its estimate |
| LedgerResults.StatusTells | cloudflare/src/ledger.js:1091-1127 | a failed run holds no unknown cost, a run of unknown billing no observed cost, and a release covers what it attests |
| LedgerResults.StrandedIff | cloudflare/src/ledger.js:979-1155 | exposure is stranded exactly when some record of the history overwrote a run with unknown cost |
| LedgerResults.UnknownAgreesIff | cloudflare/src/ledger.js:1097-1155 | the aggregate unknown cost is the sum over the runs exactly when no record overwrote unknown cost |
| LedgerResults.StrandedForever | cloudflare/src/ledger.js:1278-1325 | no later history brings the aggregate unknown cost below what is stranded |
| LedgerLateRecord.LateRecordStrands | cloudflare/src/ledger.js:1097-1155 | for every admissible request, a record after recovery leaves its whole estimate unknown in the aggregate and nothing in the runs |
| LedgerResults.OneActiveRun | cloudflare/src/ledger.js:803-833 | at most one run is active, and a reservation is held exactly by an active run |
| LedgerResults.GrantsSpentOnce | cloudflare/src/ledger.js:828-832 | a grant's use count is the number of runs with its token, at most one, and every run carries a grant's token |
| LedgerResults.NothingReturns | cloudflare/src/ledger.js:609-1712 | on every continuation no finished run becomes active, no spent grant is issued again, no settled exception changes, no reconciliation is lost |
| LedgerResults.AdmittedIff | cloudflare/src/ledger.js:609-908 | exactly when a request is admitted, what it adds to runs and costs, and that a refusal adds nothing |
| LedgerResults.RefusalJustified | cloudflare/src/ledger.js:627-812 | every refusal has its cause in tables, request and clock; two of the refusals can never be given |
| LedgerResults.HoldProtocol | cloudflare/src/ledger.js:1526-1633 | at most one exception authorised, one per token ever; authorised means an unused grant, consumed names a run with that token |
| LedgerResults.AdmissionSettlesHold | cloudflare/src/ledger.js:836-869 | once a run carries a token, no exception of that token is still authorised |
| LedgerResults.OnlyExpiryLapses | cloudflare/src/ledger.js:1399-1425 | of the four reasons to lapse an exception only expiry of its grant can occur |
| LedgerReplay.KeyDecides | cloudflare/src/ledger.js:723-753 | a known key settles a request by grant and payload alone and changes nothing beyond recovery |
| LedgerReplay.ReplayIsStable | cloudflare/src/ledger.js:723-753 | after any history, the same key, grant and payload get the same run back, with no effect beyond recovery |
| LedgerReplay.ConstraintViolatedOnlyBy | cloudflare/src/ledger.js:871-883 | a constraint is violated only by a taken run identifier or a repeated key of white space |
| LedgerFingerprints.FingerprintDecides | cloudflare/src/ledger.js:687-689 | two payloads share a fingerprint exactly when their trimmed target and commit agree |
| LedgerReceipts.StoredReceiptsRead | cloudflare/src/ledger.js:1772-1838 | in every reachable state each stored receipt parses, verifies and carries the digest of its row |
| LedgerSweeps.SweepAtOnce | cloudflare/src/ledger.js:1388-1455 | sweeping row by row, grants changing on the way, lapses exactly what was stale at the start |
| LedgerSweeps.SweepTwice | cloudflare/src/ledger.js:1388-1455 | a second sweep at the same instant changes nothing |
| LedgerSweeps.RecoverAtOnce | cloudflare/src/ledger.js:1674-1712 | recovery closes exactly the active runs past the deadline |
| LedgerSweeps.RecoverTwice | cloudflare/src/ledger.js:1674-1712 | a second recovery at the same instant changes nothing |
| RunHandlerProofs.NextKeeps | cloudflare/src/index.js:999-1094 | every step of every handler, and every step elsewhere, keeps the system invariant |
| RunHandlerProofs.DispatchedOnce | cloudflare/src/index.js:999-1066 | under every interleaving a run is dispatched at most once, by the handler whose reservation inserted it |
| RunHandlerProofs.ReplayNeverDispatches | cloudflare/src/index.js:1023-1031 | a replaying handler always finds its run, so it never falls through to the dispatch |
| RunHandlerProofs.DispatchesWithinGrants | cloudflare/src/index.js:1031-1066 | dispatches never outnumber runs, which are as many as the uses of all grants |
| RunHandlerProofs.OneActiveCall | cloudflare/src/index.js:1031-1094 | of two outstanding calls at most one belongs to an active run |
| RunHandlerOutcomes.AskReaches | cloudflare/src/index.js:999-1022 | a refused handler answers, a replaying one looks its run up, an admitted one holds a new reserved run of its own request |
| RunHandlerOutcomes.MarkReaches | cloudflare/src/index.js:1031 | marking puts the handler's reserved run in flight, and no other |
| RunHandlerOutcomes.CallReaches | cloudflare/src/index.js:1046-1066 | a call is logged once, for the handler's own run |
| RunHandlerOutcomes.FailureReaches | cloudflare/src/index.js:1065-1080 | a failing call closes the handler's run, takes its reservation, and shows the reported cost or the unknown one |
| RunHandlerOutcomes.SuccessReaches | cloudflare/src/index.js:1082-1091 | a storable success completes the run and files its receipt; an unstorable one leaves the tables as they were |
| RunHandlerOutcomes.AnsweredMeansRecorded | cloudflare/src/index.js:1065-1094 | under every interleaving an admitted handler answers only by recording an outcome, and its run is closed unless that was an unstorable success |
| RunHandlerTraffic.AskAdmittedIff | cloudflare/src/ledger.js:609-908 | a handler is admitted exactly when its request passes every other gate and each run, of the handlers under way and of none, is finished or past the deadline of recovery |
| RunHandlerTraffic.SecondAdmittedIff | cloudflare/src/ledger.js:1674-1712 | while a handler under way has an active run, a second is admitted exactly when it passes every other gate and that run started before the deadline of recovery |
| RunHandlerTraffic.OneAtATimeIff | cloudflare/src/index.js:999-1094 | on every history at most one handler is under way throughout exactly when no reservation met the condition of admission while another handler was under way |
| RunHandlerOverlap.TwoCallsOutstanding | cloudflare/src/index.js:1031-1066 | any two keyless requests that pass the gates can both be awaiting the provider, for every start of the second more than 60 seconds after the first |
| CanonicalPrinter.PrintCanonical | cloudflare/src/crypto_utils.js:41-70 | the printer with its loops, which sorts names and then prints, computes the canonical text |
| CanonicalPrinter.PrintedIsSorted | cloudflare/src/crypto_utils.js:55-67 | sorting names and printing in that order gives the printed properties in sorted order |
| CanonicalText.PrintedNamesAscend | cloudflare/src/crypto_utils.js:55-67 | of two names of one printed object the earlier is a prefix of the later or has the smaller code unit where they first differ, at every depth |
| CanonicalText.LeqIff | cloudflare/src/crypto_utils.js:56 | the order names are sorted by is that of their code units |
| CanonicalText.EscapeForms | cloudflare/src/crypto_utils.js:21-26 | which units are printed as they are, which with a short escape, and which with four lower-case digits |
| CanonicalText.StringText | cloudflare/src/crypto_utils.js:21-26 | a string is printed unit by unit between quotes |
| CanonicalText.ScalarTexts | cloudflare/src/crypto_utils.js:42-47 | the words, and the digits of a number |
| CanonicalText.ArrayText | cloudflare/src/crypto_utils.js:51-54 | an item is printed after a comma and nothing else |
| CanonicalText.ObjectText | cloudflare/src/crypto_utils.js:55-67 | a property whose name comes last is printed last, as name, colon and value, and an undefined one not at all |
| CanonicalJsonRoundTrip.CanonicalRoundTrip | cloudflare/src/crypto_utils.js:41-70 | a JSON parser applied to the canonical text gives the value back with its keys sorted |
| CanonicalJsonRoundTrip.CanonicalDecides | cloudflare/src/crypto_utils.js:41-70 | equal canonical text means equal value up to key order, and conversely |
| CanonicalJsonRoundTrip.InsertionOrderIrrelevant | cloudflare/src/crypto_utils.js:55-66 | the order of insertion of properties does not change the text |
| CanonicalJsonRoundTrip.CanonicalPrintable | cloudflare/src/crypto_utils.js:21-26 | every unit of a canonical text is printable ASCII |
| CanonicalJsonOrder.SortForgetsOrder | cloudflare/src/crypto_utils.js:56 | sorting by code units depends only on the multiset of names |
| Receipts.NormalizePayload | cloudflare/src/crypto_utils.js:104-136 | the copying loop and the three rewriting loops compute the normalised payload, or throw where it does |
| ReceiptPayload.PayloadFields | cloudflare/src/crypto_utils.js:104-136 | the payload has every field but the digest: three lists trimmed and in ascending order, four fields trimmed and lower-cased, four trimmed, every other as it is |
| ReceiptPayload.PayloadThrowsIff | cloudflare/src/crypto_utils.js:111-117 | normalisation throws exactly when an item of one of the three lists has no text |
| ReceiptProofs.StoredReceiptVerifies | cloudflare/src/ledger.js:1772-1838 | a receipt that passed integrity still does after its canonical text is stored and parsed, with the same digest |
| ReceiptProofs.CosmeticEditKeepsDigest | cloudflare/src/crypto_utils.js:104-136 | reordering a sorted list, trimming its items, trimming or lower-casing a normalised field keeps the digest |
| ReceiptProofs.DigestByFields | cloudflare/src/crypto_utils.js:138-151 | receipts that agree field by field on normalised values have one digest |
| ReceiptProofs.SealedReceiptVerifies | cloudflare/src/crypto_utils.js:138-170 | a receipt sealed with the digest computed over it verifies, with that digest |
| ReceiptProofs.SameDigestSamePayload | cloudflare/src/crypto_utils.js:153-170 | two verifying receipts with the same stated digest have the same normalised payload |
| BudgetService.BudgetLedger.constructor | src/basebreak/budget/accounting.py:374-384 | a fresh ledger has no reservations and a validated zero flag |
| BudgetService.BudgetLedger.ActiveReserved | src/basebreak/budget/accounting.py:389-415 | the loop sums the remainders of pending reservations |
| BudgetService.BudgetLedger.Reserve | src/basebreak/budget/accounting.py:417-501 | capacity, time and value checks in order; only an accepted reservation is added |
| BudgetService.BudgetLedger.CommitReservation | src/basebreak/budget/accounting.py:503-523 | only a pending reservation is committed |
| BudgetService.BudgetLedger.CancelReservation | src/basebreak/budget/accounting.py:525-545 | only a pending reservation is cancelled |
| BudgetService.BudgetLedger.RecordOperation | src/basebreak/budget/accounting.py:547-856 | every check in order, then all bookings; a refusal leaves the whole ledger as it was |
| BudgetService.BudgetLedger.SyncFromRepairLoopCounters | src/basebreak/budget/accounting.py:885-949 | five ceilings are checked, then the larger of each pair is taken; a refusal changes nothing |
| BudgetEffects.ReserveEffect | src/basebreak/budget/accounting.py:417-501 | a reservation is accepted exactly under a new name for amounts and time that every ceiling leaves; then it is pending with nothing drawn |
| BudgetEffects.ConcludeEffect | src/basebreak/budget/accounting.py:503-545 | only a pending reservation is committed or cancelled, and nothing else changes |
| BudgetEffects.RecordAcceptedIff | src/basebreak/budget/accounting.py:570-788 | an operation is accepted exactly when it is new and consistent, its own reservation holds its draws, and every ceiling admits them beside what others hold |
| BudgetEffects.RecordEffect | src/basebreak/budget/accounting.py:801-856 | an accepted operation is added, amount by amount, to the consumption and to the reservation it names; a refused one changes nothing |
| BudgetEffects.SyncEffect | src/basebreak/budget/accounting.py:885-949 | a synchronisation is accepted exactly when five ceilings cover both counts; then the larger count is taken and nothing else changes |
| BudgetEffects.UnknownCostIff | src/basebreak/budget/accounting.py:789-841 | on every history the cost is unknown exactly when it was at the start or an accepted operation said so, used something chargeable without an estimate, or had an estimate without an amount |
| BudgetProofs.PromisesFit | src/basebreak/budget/accounting.py:417-856 | without synchronisation consumption plus promises stays within each of four ceilings on every history |
| BudgetProofs.PromisesFitIff | src/basebreak/budget/accounting.py:417-949 | on every history, consumption plus promises stays within a ceiling throughout exactly when each accepted synchronisation fits beside the reservations active at its step |
| BudgetProofs.PromisesFitFromStart | src/basebreak/budget/accounting.py:374-384 | a fresh ledger starts within a ceiling exactly when its consumption does, and stays there |
| BudgetProofs.PromiseKeptAfter | src/basebreak/budget/accounting.py:624-949 | after any history whose synchronisations fit, an operation within its reservation's remainder is not refused for that resource |
| BudgetProofs.CeilingExact | src/basebreak/budget/accounting.py:682-767 | the ceiling test refuses exactly what would break the ceiling |
| BudgetProofs.StepKeepsIff | src/basebreak/budget/accounting.py:417-949 | any step keeps the promise for a resource, except an accepted synchronisation whose counter does not fit beside the reservations |
| BudgetResults.SyncBreaksPromise | src/basebreak/budget/accounting.py:885-949 | one synchronised execution makes a fully reserved ceiling refuse its own holder |
| BudgetTime.TimeIsPromisedTwice | src/basebreak/budget/accounting.py:481-489 | from every sound ledger with time left, two holders are each granted all of it, the first draws it and the second is refused its own |
| BudgetTime.StepTimeIff | src/basebreak/budget/accounting.py:417-949 | a step keeps time used plus time promised within the limit exactly when what it adds fits: a whole reservation, what an operation does not draw from its own, a synchronised clock; closing always does |
| BudgetTime.TimeFitsIff | src/basebreak/budget/accounting.py:417-949 | on every history time used plus time promised stays within the limit throughout exactly when each accepted step fits |
| BudgetTime.TimePromiseKeptAfter | src/basebreak/budget/accounting.py:655-722 | after any history whose steps fit, an operation within its reservation's remaining seconds is never refused for time |
| BudgetProofs.NeverOverspent | src/basebreak/budget/accounting.py:624-949 | on every history, synchronisation included, none of the ten ceilings is exceeded by consumption |
| BudgetProofs.CountersAddUp | src/basebreak/budget/accounting.py:806-856 | without synchronisation each counter is its initial value plus the sum over accepted operations |
| BudgetProofs.AcceptedOnce | src/basebreak/budget/accounting.py:570-578 | no operation identifier is accepted twice, and the recorded set is the initial one plus the accepted ones |
| BudgetProofs.DrawsWithinConsumption | src/basebreak/budget/accounting.py:806-835 | what is booked on reservations never exceeds what was consumed |
| BudgetProofs.RemainderAddsUp | src/basebreak/budget/accounting.py:807-828 | a reservation's remainder is its size less its accepted draws, after any history |
| BudgetProofs.VerifiedZeroIff | src/basebreak/budget/accounting.py:789-856 | the verified-zero flag stays true exactly while every accepted operation was verified free |
| BudgetGate.Preflight | src/basebreak/budget/fail_closed.py:204-426 | admission, unverifiability and the listed actions, each with its exact condition |
| BudgetGate.HandleExhaustion | src/basebreak/budget/fail_closed.py:429-551 | the receipt lists exactly the required actions not executed, each once, and never passes |
| BudgetResults.AdmittedIff | src/basebreak/budget/fail_closed.py:230-426 | preflight admits exactly when both execution ceilings are configured and leave the minimum, time leaves the minimum, and no cost is unknown or uncapped |
| BudgetResults.UnverifiableIff | src/basebreak/budget/fail_closed.py:230-395 | what preflight calls unverifiable rather than insufficient |
| BudgetResults.RequiredActions | src/basebreak/budget/fail_closed.py:204-300 | the required actions are those of the depth and the two obligations |
| BudgetResults.AdmissionReservesAtOnce | src/basebreak/budget/fail_closed.py:396-426 | with no time lost the reservation is granted |
| BudgetResults.AdmissionIsAPromise | src/basebreak/budget/fail_closed.py:256-299 | after any history whose synchronisations fit, draws that add up to what preflight computed are never refused for sandboxes or verifier executions |
| RiskPipeline.ExtractRiskFeatures | src/basebreak/budget/risk_features.py:365-426 | the pass over the files computes the sets, counts and flags of the touched paths, or raises |
| RiskPipeline.ClassifyRisk | src/basebreak/budget/risk_features.py:458-575 | the level is high or medium exactly when a reason for it was collected, and the reasons are exactly those whose ground holds |
| RiskPipeline.ResolveObligations | src/basebreak/budget/mandatory_policy.py:114-290 | an obligation holds exactly when a reason was found; the reasons are exactly those whose ground holds, each once |
| RiskPipeline.Deduplicate | src/basebreak/budget/mandatory_policy.py:251-260 | deduplication keeps the same reasons, each once |
| RiskPipeline.MinimumResources | src/basebreak/budget/fail_closed.py:174-201 | both minima grow alike by 0 to 3: by 0 exactly when no obligation lies outside the depth, oddly exactly for a counterrun outside it, by 2 or more exactly for slicing outside it |
| RiskProofs.ExtractIff | src/basebreak/budget/risk_features.py:149-216 | extraction passes its own validation exactly when both manifests agree on the touched paths |
| RiskProofs.ExtractedFeatures | src/basebreak/budget/risk_features.py:365-426 | the features are the distinct touched paths, those protected, those sensitive, and whether one is an interface or a dependency |
| RiskProofs.LevelIff | src/basebreak/budget/risk_features.py:458-575 | the exact conditions of high and low risk, with their thresholds |
| RiskProofs.MandatoryTable | src/basebreak/budget/depth_policy.py:167-300 | which actions each level and class demands |
| RiskProofs.DepthTable | src/basebreak/budget/depth_policy.py:167-300 | which actions are optional or left to the budget, and the two minima of each level |
| RiskProofs.ObligationsIff | src/basebreak/budget/mandatory_policy.py:114-263 | the exact conditions of the two obligations, in level, class, paths, hunks and contract |
| RiskProofs.RiskMonotone | src/basebreak/budget/mandatory_policy.py:144-263 | growing a change never lowers its level and never drops a mandatory action or an obligation |
| RiskProofs.FloorDropsIff | src/basebreak/budget/fail_closed.py:174-201 | exactly when a grown change needs fewer sandboxes |
| RiskProofs.FloorCanDrop | src/basebreak/budget/fail_closed.py:174-201 | medium risk with four hunks needs five sandboxes, the same change over ten files four |
| ControlCharRepair.EscapeRawControlChars | src/basebreak/builder/loop.py:570-619 | the four-variable loop computes the repaired text |
| ControlCharProofs.RepairKeepsMeaning | src/basebreak/builder/loop.py:570-619 | a strict reader of the repaired text reads what a lenient reader reads in the original, for every text |
| ControlCharProofs.EscapeForms | src/basebreak/builder/loop.py:561-613 | five control characters get a short escape, every other one four lower-case digits |
| ControlCharProofs.CleanIff | src/basebreak/builder/loop.py:599-614 | a control character remains in a string exactly when one directly followed a backslash |
| ControlCharProofs.ControlCanRemain | src/basebreak/builder/loop.py:599-602 | a newline directly after a backslash in a string remains, and the text still does not parse strictly |
| ControlCharProofs.UnchangedIff | src/basebreak/builder/loop.py:617-619 | a text is unchanged exactly when the scanner has nothing to escape |
| ControlCharProofs.RepairIdempotent | src/basebreak/builder/loop.py:570-619 | repairing twice is repairing once |
| ControlCharProofs.ScannerInStep | src/basebreak/builder/loop.py:589-616 | at every input position the scanner of the output is in the state of the scanner of the input |
| ControlCharProofs.OuterTextKept | src/basebreak/builder/loop.py:594-598 | text outside strings is unchanged |
| ControlCharProofs.StrictTextUntouched | src/basebreak/builder/loop.py:690-700 | a text that parses strictly is never altered |
| Base64.DecodeEncode | src/basebreak/builder/execution.py:1112 | decoding undoes the encoding of section 4 of RFC 4648 |
| Base64.EncodeCut | src/basebreak/builder/execution.py:1171-1174 | cutting bytes at a multiple of three cuts the text at a multiple of four |
| Base64.SymbolRuns | src/basebreak/builder/execution.py:1112 | the alphabet is table 1 of RFC 4648 |
| Base64.GroupSpells | src/basebreak/builder/execution.py:1112 | a group spells the 24 bits of its bytes, and a short one its bytes with padding |
| MutationScripts.BuildFileMutationScripts | src/basebreak/builder/execution.py:1072-1186 | the chunk loop builds one script, or a truncation, one append per chunk, and a check |
| MutationProofs.TransportRoundTrip | src/basebreak/builder/execution.py:1112-1186 | for every content the scripts leave exactly that content and exit with the code of the precondition |
| MutationProofs.BundleHasEffect | src/basebreak/builder/execution.py:1641-1712 | the bundled script has the effect of the actions in order up to the first failure |
| MutationProofs.ApplyMutations | src/basebreak/builder/execution.py:1465-1541 | the executor, script by script, ends with the files and exit code of the bundled script |
| MutationProofs.CommandsAreShort | src/basebreak/builder/execution.py:78 | every chunk is at most 7680 symbols and a whole number of groups |
| MutationProofs.ScriptCount | src/basebreak/builder/execution.py:1115-1186 | one script for a deletion or up to 8000 symbols, otherwise two more than the chunks of 7680 |
| MutationProofs.LastCommand | src/basebreak/builder/execution.py:1086-1186 | the last command checks that the file is there, or is gone |
| ExecutionCache.DeterministicExecutionCache.LookupByKey | src/basebreak/causal/cache.py:604-781 | one lookup adds one audit record and one to the counter of its kind, and hits, misses and rejections add up to the audit length |
| ExecutionCache.DeterministicExecutionCache.StoreEntry | src/basebreak/causal/cache.py:505-509 | an authentic entry replaces what its key held |
| ExecutionCache.Check | src/basebreak/causal/cache.py:629-770 | an entry is given out exactly when it is authentic, eight recorded fields agree with the key and the provenance is the asked one; otherwise the reason names the first check that fails |
| ExecutionCache.CacheIsLastWriteMap | src/basebreak/causal/cache.py:604-781 | without collisions a lookup hits exactly on a stored identity asked for under its own provenance, with the latest entry |
| ExecutionCache.ChecksNeedTheDigest | src/basebreak/causal/cache.py:642-712 | the identity checks alone do not separate locator, subpath or tree |
| Coverage.ComputeCoverage | src/basebreak/causal/coverage.py:377-860 | a summary is made exactly for accepted inputs; its counts partition the contract and each of the six verdicts follows from them exactly |
| Coverage.CollectFacts | src/basebreak/causal/coverage.py:472-809 | the loop settles every requirement or raises at one that cannot be, and its seven counters agree |
| CoverageProofs.SettlesIff | src/basebreak/causal/coverage.py:324-374 | a requirement is settled exactly when it counts and its result is acceptable, or is left out on the contract's mark with a reason |
| CoverageProofs.StateIff | src/basebreak/causal/coverage.py:544-776 | how each kind of result settles its requirement; a claim of success without authority never does |
| CoverageProofs.CountsAre | src/basebreak/causal/coverage.py:779-809 | the counts are the numbers of requirements that count and of those in each state |
| CoverageProofs.RoundToNear | src/basebreak/causal/coverage.py:828-829 | a figure is a whole number of units, at most half a unit from the exact quotient |
| CoverageProofs.DenominatorCovers | src/basebreak/causal/coverage.py:460-500 | no overrides bring the denominator below the contract's behavioral requirements |
| CoverageProofs.FullPercentageIff | src/basebreak/causal/coverage.py:829 | 100.00 percent is shown exactly while 20000 times the missing requirements is at most the eligible ones |
| CoverageProofs.FullRatioIff | src/basebreak/causal/coverage.py:828 | a ratio of 1.0 is shown exactly while 2000000 times the missing requirements is at most the eligible ones |
| CoverageProofs.FullMeansVerified | src/basebreak/causal/coverage.py:821-836 | below 20000 and 2000000 eligible requirements a full figure means fully verified |
| ModPow.ModPow | cloudflare/src/provider_dispatcher.js:153-165 | square-and-multiply returns the power, one round per exponent bit; a zero modulus throws |
| ModPow.ValueIsPowerIff | cloudflare/src/provider_dispatcher.js:153-165 | the result is the reduced power exactly when the modulus is above 1 or the exponent is not 0 |
| ModPow.ModPowComposes | cloudflare/src/provider_dispatcher.js:167-177 | a power of a power is the power of the product, the law of section 5.2.2 of RFC 8017 |
| ModPow.BitsBracket | cloudflare/src/provider_dispatcher.js:157-163 | the number of rounds is the bit length of the exponent |

## Left out

- Columns that no modelled decision reads: audit log, completion times, error messages, outcomes, token counts, decision and note texts of reconciliations and exceptions, and the balance timestamp of a grant.
- The grant's cost cap and balance in `reserveAdmission`: the code reads them there and no longer acts on them.
- AdmissionLedgerService.AdmissionLedger.AuthorizeCostHoldException: which of its error texts a refusal raises is not modelled, because every refusal has the same effect on the tables.
- AdmissionLedgerService.AdmissionLedger.RecordExecutionSuccess: the secret patterns are a boolean input.
- CanonicalPrinter.PrintCanonical: numbers are safe integers; ECMAScript number formatting, functions and symbols are not modelled.
- CanonicalJsonRoundTrip.CanonicalRoundTrip: the parser accepts integers in the safe range only, for the same reason.
- Receipts.NormalizePayload: a property named `__proto__`, which assignment treats specially, is not modelled.
- ReceiptProofs.CosmeticEditKeepsDigest: lower-casing is assumed idempotent and neutral to surrounding white space, which is all the digest needs of it.
- Handler responses, routing, authentication, input validation and the transport of the dispatch in `index.js`; a dispatch is the step that enters `dispatchVerificationRun`.
- Rounding and overflow of binary floating point: money, seconds and coverage are exact.
- Type checks, serialisation and digests of the budget, gate and policy records.
- The path patterns and the protected manifest: they are predicates on paths; normalisation of a path is a function parameter.
- RiskPipeline.ResolveObligations: the keywords of a requirement statement are booleans of the requirement.
- BudgetGate.HandleExhaustion: digests of preserved evidence and the rationale text are not modelled, and the budget-dependent actions of the list may repeat an action already listed as mandatory, as in the code.
- ControlCharRepair.EscapeRawControlChars: the extraction of the JSON payload from the model's answer, and the other recoveries, are not modelled.
- MutationScripts.BuildFileMutationScripts: files are flat; directories made or removed on the way, links, and shell quoting are not modelled, and content is taken as its bytes.
- Commands, git capture and teardown of the executor.
- ExecutionCache.DeterministicExecutionCache.LookupByKey: stored entries are immutable, as the frozen records of the source are meant to be.
- Coverage.ComputeCoverage: how a receipt is verified against its authority is a boolean of the result, and a result that fails its bindings is one that raises.
