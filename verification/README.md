# PolyMatrix trading core: a verified model

This project models the trading core of PolyMatrix Engine, a market maker for binary
prediction markets, and proves what the core is for: money at risk never exceeds the
budget, every execution is booked exactly once, the batch audit agrees with the
incremental ledger, one process at a time may trade a wallet, and the quoting, exit,
book, cache and pricing components do what they promise.

## What is modelled

**The ledger as one transition system.** `Rows` holds the tables: markets, journal,
reservations, the cached reservation total, the fill inbox, the cash facts and one
inventory row per market. `Transactions` says, as functions, what each database
transaction commits; `Store` holds the class `Database`, whose methods carry the same
transactions out row by row, with loops and rollbacks, and are proved to commit exactly
that. `World` adds the exchange: submissions that are in flight, accepted or refused,
matched and open shares, the executions that were matched, and a reconciliation pass that
sits between loading its facts and applying its report. Every step of every process may
come between any two others. What the service methods commit is what these steps commit,
and what the steps do is stated a second time without the transaction functions: which
orders are admitted (`Admission`), what each reply to a submission proves and that every
submission is a run of steps (`Store.Reply`, `Submission`), what booking an execution writes
to every table (`Executions`), what an overwrite writes (`Overwrites`), what a pass looks at
and what it makes of it (`Settling`), and the rows of all the small transactions (`Effects`).

The exchange is an adversary with four rules: an order that was explicitly refused was
never accepted; matched shares never shrink and matched plus open never exceed what was
submitted; what it reports about an order was true when it was reported; every delivery
of an execution carries the same deterministic event id. Exchange ids are not reused.
Submissions may be accepted after a timeout, executions may be delivered late, repeatedly,
out of order, before their order is mapped, or never, and cancels may be lost.

**Where to start reading.** The main results are `Runs.TrueExposureNeverExceedsBudget` and
`Sales.InventoryIsNeverSoldTwice`, which hold over every run without an overwrite, and
`Runs.BudgetHoldsIff` and `Sales.SalesHoldIff` for the runs with one;
`Submission.SubmissionIsARun`, `Admission.BuyIsGrantedIff` with `Admission.SellIsGrantedIff`,
`Executions.BookingInFull` and `Settling.SafePassIff` with `Settling.SafePassIsTrue`;
`History.ExactlyOnce`, `History.DeliveredFillsAreBooked` with
`History.FillFailsOnlyForReason`, and `History.LedgerIsDoubleEntry`;
`AuditAgreement.AuditAgrees` with `AuditAgreement.AuditSafeIffUntainted` and
`AuditAgreement.StoredAuditAgreesIff`, and `AuditedCash.SafeAuditTiesOut`; `Races.PassMovesExactly` with the exact conditions
`Races.PassKeepsBookFitsIff`, `Races.PassKeepsPromisesIff` and `Book.PassStaysExactIff`,
and `Book.QuietRunsKeepBook`; `Rounding.HundredFillsPassAudit`,
`EvaluatorLaws.ProfitIsCashPlusWorth`, `Lease.LeasesExclude` with `LeaseLaws.AcquireIff`,
`Quoting.QuotingEngine.SyncOrdersDiff` with `QuoteBudget.BuildBids` and `Requoting.OnTick`,
`Exit.PlanBoundedSell` with `Exit.ExitLossIsBounded`, `OrderBookRuns.BookIsFold` with
`OrderBookRuns.ValidMeansHealthy` and `OrderBookOutcomes.OutcomeIs`, `Cache.DrainedCacheIsTheLatestRowIff` with
`Cache.ProfitIsRightIff` and `Cache.VersionNeverGoesBackIff`, and `Pricing.FairValueIsSymmetric` with
`PricingLaws.InventoryNeverRaises` and `PricingLaws.DeeperBookRaises`.

**Units.** Prices are whole numbers of 1e-4 dollars and sizes whole numbers of 1e-8
shares, the scales of the columns; money is a real number of 1e-12 dollars, so price times
size needs no conversion and the 1e-9 share and 1e-6 price tolerances become exact
comparisons. The 1e-6 share tolerance stays (100 units) and shows up as slack. Between
stores arithmetic is exact, except in `Rounding`, which is about the eight-decimal columns.
The order book and the pricing model use plain fractions.

**Modules.** `Common`, `Accounting`, `Rounding`, `Fees`, `Rows`, `Transactions`,
`Reconciliation`, `Applying`, `Store`; the transition system `World` with `Reconciler`
(the service's pass is the system's pass) and its proofs
`Safety`, `Booking`, `Passes`, `Runs`, `Sales`, `Book`, `Races`, `History`, `Admission`,
`Submission`, `Executions`, `Overwrites`, `Settling`, `Effects`; the audit
`Audit`, `AuditedCash`, `AuditAgreement`; the evaluator `Evaluator`, `EvaluatorLaws`; and the
components `Lease`, `LeaseLaws`, `Quoting`, `QuoteBudget`, `Requoting`, `Exit`, `OrderBook`,
`OrderBookRuns`, `OrderBookOutcomes`, `Cache`, `Pricing`, `PricingLaws`.

## Where the code falls short of a tempting claim

- A reconciliation pass may be overtaken by fills. It never reserves too little
  (`Applying.ConfirmedOpenKeepsEnough`), so the budget and the inventory promise hold in
  every run as far as real exposure goes. But it reserves again what was booked after the
  exchange was asked: `Races.RacingPassOverReserves` is a run that ends with spent plus
  reserved over the cap, `Races.RacingPassPromisesTwice` one that ends with more shares
  promised than held. What a pass adds is `Races.PassMovesExactly`; when the cap and the
  promises survive it is `Races.PassKeepsBookFitsIff` and `Races.PassKeepsPromisesIff`.
  Reservations stay exact if and only if every order confirmed open is booked for exactly
  what the exchange reported (`Book.PassStaysExactIff`); a booking in between breaks that,
  and so do up to 1e-6 shares that were matched and never booked.
- A tick-size change declares an asset valid without looking at its book
  (`OrderBookRuns.TickSizeRevivesCrossedBook`); it keeps the promise exactly when
  `OrderBookRuns.TickSizeKeepsPromiseIff` says so.
- The bulk load of the inventory cache ignores versions, and is the only step that can move
  the cached version back: `Cache.VersionNeverGoesBackIff`.
- An overwrite is announced to the cache before it commits. If the commit fails the cache
  keeps a row that was never committed until the next announcement:
  `Cache.FailedOverwriteStaysCached`, with the exact conditions
  `Cache.CacheIsACommittedRowIff` and `Cache.DrainedCacheIsLatestIff`.
- Overwrite announcements leave realized profit out, so a drained cache can show the profit
  of an older row (`Cache.OverwriteLosesProfit`). The cached profit is right throughout a run
  if and only if no overwrite announcement overtakes a fill that changed it
  (`Cache.ProfitIsRightIff`), and in a single state exactly when
  `Cache.CacheIsTheWholeRowIff` says so.
- An external overwrite or an execution with an unknown fee makes every later audit of the
  run unsafe (`AuditAgreement.NeverSafeAgain`), and nothing else but an unprocessed row does
  (`AuditAgreement.AuditSafeIffUntainted`).
- Balances are rounded after every fill, and the audit's tolerance does not grow with the
  number of fills: 201 tiny purchases fail it (`Rounding.ManySmallFillsFailAudit`). The exact
  condition is `AuditAgreement.StoredAuditAgreesIff`, a count that guarantees it
  `AuditAgreement.StoredAuditAgrees`.
- An external overwrite may exceed the budget or take away shares that are on sale; exactly
  when is `Runs.BudgetHoldsIff` and `Sales.SalesHoldIff`.
- A tick whose fair value hardly moved is dropped before the contraction conditions are read,
  so BUY orders can outlive the start of a contraction until the next tick that is not:
  `Requoting.OnTick`. Exit mode is never dropped.

## Model

| member | source | states |
|---|---|---|
| Accounting.FillConservesCash | app/core/accounting.py:55-86 | Double entry of one fill: realized profit less cost basis moves by exactly the signed cash less fee, shares move by the fill, nothing goes negative, an emptied position costs nothing |
| Accounting.SaleKeepsAverageCost | app/core/accounting.py:71-76 | A partial sale leaves the average cost of the rest unchanged |
| Accounting.FillSizeIsPositive | app/core/accounting.py:44-69 | A fill that is applied is positive, inside [0, 1], fee non-negative, and never sells more than is held |
| Accounting.LedgerConservesCash | app/oms/fill_processor.py:239-268 | The same law for a market row; the other token is untouched and soundness is kept |
| Accounting.ReplayIsSound | app/core/accounting_integrity.py:279-312 | A replay that succeeds ends in a sound ledger |
| Accounting.ReplayConservesCash | app/core/accounting.py:55-86 | Over any run of fills, realized profit less cost basis is the sum of all net cash deltas |
| Rounding.SaleRedistributesError | app/core/accounting.py:71-76 | A sale moves rounding error from cost into profit without enlarging the sum |
| Rounding.FillDoesNotEnlargeError | app/core/accounting.py:55-86 | One unrounded fill, applied to a stored and an exact position with equal shares, fails or succeeds on both and does not enlarge their error |
| Rounding.StoreAddsAtMostOneCent8 | app/models/db_models.py:135-139 | Writing a fill to eight-decimal columns adds at most 1e-8 dollars to the total error of the row |
| Rounding.RoundingErrorPerFill | app/core/accounting_integrity.py:279-312 | Rounded columns accept exactly the fills the unrounded replay accepts, hold the same shares and differ in money by at most 1e-8 dollars per fill |
| Rounding.RecordedReplayIsClose | app/core/accounting_integrity.py:279-312 | Replaying fees as their column holds them succeeds too and moves the result by at most half of 1e-8 dollars per fee with more than eight decimals |
| Rounding.NoOddFees | app/core/cash_accounting.py:93-114 | Fees of at most eight decimals are read back unchanged and none counts against the limit, which is then a hundred fills |
| Rounding.HundredFillsPassAudit | app/core/accounting_integrity.py:319-334 | The replay of stored fills succeeds and agrees with the columns within the audit tolerance while twice the fills plus the fees of more than eight decimals number at most two hundred |
| Rounding.ManySmallFillsFailAudit | app/core/accounting_integrity.py:319-334 | Two hundred and one purchases of half of 1e-8 dollars are stored and fail the comparison |
| Fees.ExtractExplicitFee | app/core/cash_accounting.py:29-56 | An explicit fee is read only if every stated field is usable and all agree with the first |
| Fees.TakerFeeIsDocumentedFee | app/core/cash_accounting.py:93-114 | A taker fee is within half a quantum of size x rate x price x (1 - price), never negative, at most the notional up to rounding, and fits eight decimals |
| Fees.TakerFeeIsSymmetric | app/core/cash_accounting.py:110-114 | The fee at price p equals the fee at 1 - p |
| Fees.CashFactMatchesFill | app/core/cash_accounting.py:117-156 | Net cash is known exactly when the fee is, and is then the double-entry delta of the fill |
| Fees.FeeIsCharged | app/core/cash_accounting.py:59-90 | When a fee is told and which one: the agreed explicit field if there is one, otherwise nothing for a maker, for a taker with a rate an amount within half of 1e-5 dollars of size x rate x price x (1 - price), and unknown without a role or a rate |
| History.FeesAreUsable | app/core/cash_accounting.py:59-90 | A resolved fee is never negative; which fee that is, `Fees.FeeIsCharged` says |
| Store.Database.ActiveReservedSum | app/risk/reservations.py:159-165 | Scanning the rows yields the total over active reservations of the scope |
| Store.Database.CapitalUsedSum | app/risk/reservations.py:167-175 | Scanning the ledgers yields the cost basis of the scope |
| Store.Database.PromisedSharesSum | app/risk/reservations.py:314-328 | Scanning the rows yields the shares of a token promised to active sales |
| Store.Database.FindOrder | app/oms/fill_processor.py:168-178 | The unique order mapped to an exchange id, or none |
| Store.Database.ReserveBuy | app/risk/reservations.py:177-258 | Admits a BUY only within both caps, reuses an active grant, writes the reservation and the cached total; a refusal changes nothing. Which orders that admits, `Admission.BuyIsGrantedIff` says |
| Store.Database.ReserveSell | app/risk/reservations.py:260-355 | Admits a SELL only from shares no other sale was promised; a refusal changes nothing. Which orders that admits, `Admission.SellIsGrantedIff` says |
| Admission.BuyIsGrantedIff | app/risk/reservations.py:70-116 | In every reachable state a BUY is granted if and only if price and size are in range, the token is listed, the caps are positive, and cost basis plus active reservations plus price times size stay within the global and the market cap to 1e-9 dollars; the grant holds exactly that amount |
| Admission.SellIsGrantedIff | app/risk/reservations.py:119-142 | In every reachable state a SELL is granted if and only if it is in range, listed in a market with a ledger, and the shares held less those promised to active sales cover it |
| Admission.RefusalNamesTheCap | app/risk/reservations.py:94-115 | A BUY in range is refused for the global cap exactly if that is exceeded, and for the market cap exactly if only that one is |
| Admission.AskingAgain | app/risk/reservations.py:177-258 | A second request under the same id gets the same grant and changes nothing while the first holds risk, and is refused afterwards |
| Store.Database.MarkOpen | app/risk/reservations.py:357-368 | Only a reserved or open reservation becomes open under its exchange id |
| Store.Database.MarkActiveForOrder | app/risk/reservations.py:400-413 | Changes the status of an active reservation and nothing else |
| Store.Database.Release | app/risk/reservations.py:370-392 | Frees an active reservation once, with its notional taken off the cached total |
| Effects.StepHasEffect | app/risk/reservations.py:357-413 | What marking, freeing, journaling, writing an outcome, canceling, recording, failing and rebuilding do to the rows, step by step, and that they change nothing else |
| Effects.ConsumptionIff | app/risk/reservations.py:446-475 | A reservation takes an execution exactly if it holds risk for that side, size and price are positive, a BUY is no dearer than its limit, and the size fits up to 1e-6 shares; each refusal has its reason |
| Store.Database.RebuildAndValidate | app/risk/reservations.py:497-545 | Recomputes the cached total and is safe exactly when every active reservation is linked and none awaits a cancel, and every live order is reserved |
| Store.Database.PersistSubmit | app/oms/core.py:429-449 | Writes the outcome back unless the entry is missing or the exchange id is taken |
| Store.Database.CreateOrder | app/oms/core.py:243-502 | A reservation is freed if and only if the order was never journaled, or the outcome is stored and no fate the reply leaves open is live; every other outcome keeps it whole; the row and the reservation per reply; other reservations are untouched |
| Store.Database.SettleSubmission | app/oms/core.py:426-502 | The same for the end of a submission; an exchange id is returned only for an open order under that id |
| Store.NeverAcceptedIsDead | app/oms/core.py:311-424 | The replies that free a reservation are exactly those that leave the order no fate in which it is live or may become so |
| Submission.SubmissionIsARun | app/oms/core.py:243-502 | From every reachable state, for every reply and every fate it leaves open, the rows a submission commits are those of a sequence of enabled steps that ends with the order at that fate; so a freed reservation belongs to an order the exchange never held |
| Submission.AbsentForEver | app/oms/core.py:311-424 | An order the exchange never held is never held later, whatever step follows |
| Store.Database.CancelOrder | app/oms/core.py:548-671 | A request is sent exactly when an exchange id is known for it, with or without a row; the answer moves the row it names, and no answer frees a reservation |
| Store.CancelAnswerIs | app/oms/core.py:600-671 | What each answer makes of the order row and of its active reservation, and that no other row changes |
| Store.CancelOfNothing | app/oms/core.py:548-671 | A request that names no row changes none |
| Store.Database.HandleCancellation | app/market_data/user_stream.py:348-397 | A cancel event closes the order row and keeps its reservation pending |
| Store.Database.ApplyFillInSession | app/risk/reservations.py:422-495 | Releases the filled part of a reservation, or names the reason it cannot |
| Store.Database.BookExecution | app/oms/fill_processor.py:184-296 | Commits reservation, ledger, cash fact, order and inbox row together, with the same errors in the same order; what that writes, `Executions.BookingInFull` says |
| Executions.BookingIff | app/oms/fill_processor.py:184-275 | When an execution is booked at all: its token is listed, its fee can be told, it fits the order and an active reservation of the same side up to 1e-6 shares and within the limit, the ledger is verified and holds what is sold, and it has no cash fact yet |
| Executions.BookingInFull | app/oms/fill_processor.py:184-306 | A step that books an execution, in plain numbers: shares and limit price leave the reservation, the ledger moves by price, size, fee and average cost, the cash fact records it, the order is filled exactly if at most 1e-6 shares are left and open otherwise, and every other row stays |
| Executions.PartlyFilledIsReviewed | app/oms/order_reconciliation.py:579-602 | An order with more than 1e-6 shares left after a booking is looked at by the next pass |
| Executions.RunKeepsFees | app/core/cash_accounting.py:59-90 | In every reachable state every cash fact of an execution carries the fee its fields, role and rate prescribe |
| Store.Database.FailClosed | app/oms/fill_processor.py:122-132 | A processed row is never failed |
| Store.Database.ProcessEvent | app/oms/fill_processor.py:134-329 | One attempt: duplicates change nothing, unmapped rows wait, a failed booking is rolled back and the row failed closed |
| Store.Database.RecordAndProcess | app/oms/fill_processor.py:70-120 | A bad role or fee rate is refused and nothing is written; otherwise a second delivery of an event id adds nothing to the inbox |
| Store.Database.RetryUnmapped | app/oms/fill_processor.py:360-373 | Every execution that waited for the exchange id is attempted, each once |
| Store.RetrySettlesAll | app/oms/fill_processor.py:360-373 | Once the order is mapped a retry settles every waiting execution and touches no other row |
| Store.Database.ApplyVerdicts | app/oms/order_reconciliation.py:772-843 | The whole report is applied, or nothing if an order or a needed reservation is gone |
| Store.Database.OverwritePosition | app/risk/watchdog.py:465-484 | The ledger row takes the authoritative position and loses its verified version; what its cost becomes, `Overwrites.OverwriteInFull` says |
| Overwrites.OverwriteInFull | app/risk/watchdog.py:465-484 | After an overwrite the shares are the reported ones, realized profit is kept, the version rises and is unverified, each cost is as `Overwrites.CapitalIsWritten` says, and nothing else changes |
| Overwrites.CapitalIsWritten | app/core/position_reconciliation.py:60-87 | Up to 0.001 shares cost nothing; a known basis keeps its average for fewer shares and gains a dollar per added share, but at least the reported cost; a discovered position costs a dollar per share or the reported cost if that is more |
| Reconciliation.ReconcileOrderFacts | app/oms/order_reconciliation.py:356-544 | One verdict per local order in order, then one orphan per unclaimed open exchange order by ascending id |
| Reconciliation.JudgedClear | app/oms/order_reconciliation.py:370-531 | A verdict is no blocker exactly when the exchange fact agrees in identity, fills, status and reservation |
| Reconciliation.SafeMeansAgreement | app/oms/order_reconciliation.py:109-115 | The report is safe exactly when every local order agrees and no open exchange order is unclaimed |
| Reconciliation.ReportIsOrderFree | app/oms/order_reconciliation.py:356-544 | Permuting the inputs permutes the report and keeps its verdict |
| Reconciliation.OpenTableKeepsLast | app/oms/order_reconciliation.py:363-363 | Of open orders with the same id the last one answers |
| Reconciliation.UnclaimedIsReported | app/oms/order_reconciliation.py:533-543 | An open exchange order that no local order claims is reported with what is left of it |
| Reconciler.LoadLocalFacts | app/oms/order_reconciliation.py:579-634 | Every order under review is listed once, with its reservation as it is; which orders those are, `Settling.PassLooksAt` says |
| Reconciler.FetchDetails | app/oms/order_reconciliation.py:636-662 | Details are fetched for exactly the mapped orders missing from the open list; a missing or foreign answer fails the pass |
| Reconciler.JudgeAndApply | app/oms/order_reconciliation.py:845-875 | Judging and applying earlier facts commits exactly what the transition system's pass commits, or nothing; the pass is safe exactly when all agree |
| Reconciler.VerdictsAreTheReport | app/oms/order_reconciliation.py:356-544 | The list of verdicts and the table the transition system applies are the same |
| Settling.PassLooksAt | app/oms/order_reconciliation.py:579-602 | A pass looks at exactly the orders that are pending, open or unknown, and those whose reservation awaits a cancel |
| Settling.PassInFull | app/oms/order_reconciliation.py:772-828 | What a pass with current facts makes of each such order and its reservation, from the rows and the report alone; every other order stays as it was |
| Settling.SafePassIff | app/oms/order_reconciliation.py:109-115 | Such a pass is safe if and only if rows and exchange agree on every order it looks at, and then no order is pending or unknown |
| Settling.SafePassIsTrue | app/oms/order_reconciliation.py:845-875 | And if what was reported is still true, each of them is accepted under its exchange id and booked for what was matched, to 1e-6 shares |
| Applying.ConfirmedOpenKeepsEnough | app/oms/order_reconciliation.py:805-816 | However many fills raced with the pass, a confirmed open order keeps at least what it can still be matched for, up to 2e-6 shares |
| Applying.ClosingNeedsAgreement | app/oms/order_reconciliation.py:817-828 | A verdict closes a reservation only if matched and accounted sizes agree to 1e-6 shares |
| Applying.ConfirmedOpenIsExactIff | app/oms/order_reconciliation.py:805-816 | The written reservation is exact if and only if what is booked when the verdict is applied is what the exchange had reported matched |
| Safety.ReservationsCoverExposure | app/risk/reservations.py:217-258 | Before a grant, capital plus reservations plus slack covers the true exposure |
| Safety.AdmittedFits | app/risk/reservations.py:70-116 | What is admitted fits both caps together with what is already at risk |
| Safety.BuyGrantKeepsInv | app/risk/reservations.py:177-258 | A BUY grant keeps the invariant and the budget |
| Safety.SellGrantKeepsInv | app/risk/reservations.py:260-355 | A SELL grant keeps the invariant and the budget |
| Safety.ReleaseKeepsInv | app/risk/reservations.py:370-392 | Releasing what cannot be matched any more keeps the invariant and raises no exposure |
| Safety.MatchKeepsInv | app/oms/order_reconciliation.py:90-92 | The exchange matching an order moves exposure from open to pending and raises nothing |
| Safety.JournalKeepsInv | app/oms/core.py:272-296 | Journaling a reserved order keeps the invariant and raises no exposure |
| Safety.PersistIsSameRisk | app/oms/core.py:429-449 | Writing back a submit outcome changes no amount at risk |
| Safety.CancelEventIsSameRisk | app/market_data/user_stream.py:348-397 | A cancel event changes no amount at risk |
| Booking.MappedOrderIsTradedOrder | app/oms/fill_processor.py:168-178 | The order an execution is mapped to is the order it was matched for |
| Booking.ConsumeIsGood | app/risk/reservations.py:463-491 | Consuming a reservation releases limit times size, never more than it holds |
| Booking.BookKeepsInv | app/oms/fill_processor.py:184-296 | Booking an execution keeps rows, sums and coverage consistent |
| Booking.BookKeepsBudget | app/oms/fill_processor.py:184-296 | Booking an execution keeps the budget: cost gained is at most exposure given up plus the fee |
| Passes.VerdictRestsOnFact | app/oms/order_reconciliation.py:381-408 | A verdict that changes rows rests on a fact about this very order that was true when fetched |
| Passes.AppliedRowIsCovered | app/oms/order_reconciliation.py:775-829 | After applying, every order is still reserved for what it may be matched for |
| Passes.ApplyKeepsInv | app/oms/order_reconciliation.py:722-843 | A pass keeps the invariant whatever was booked between loading and applying |
| Passes.OverwriteKeepsInv | app/risk/watchdog.py:465-484 | An external overwrite keeps everything but the budget |
| Passes.CapitalIsNotNegative | app/core/position_reconciliation.py:60-87 | An overwritten cost basis is not negative, and zero for zero shares; `Overwrites.CapitalIsWritten` says what it is |
| Runs.StepKeeps | app/oms/core.py:243-502 | Every step of every process keeps the invariant, every step but an overwrite keeps the budget, and every step that grants, books or overwrites nothing raises no exposure of any order |
| Runs.RunKeepsInv | app/oms/fill_processor.py:134-306 | Every reachable state satisfies the invariant, overwrites included |
| Runs.TrueExposureNeverExceedsBudget | app/risk/reservations.py:217-258 | In every reachable state without an overwrite, cost held plus limit price of every BUY share that is or may be matched but unbooked is at most the cap plus 1e-9 dollars, fees and 1e-6 shares per order, globally and per market |
| Runs.StepKeepsBudgetIff | app/risk/watchdog.py:465-484 | One step keeps the budget if and only if it is not an overwrite whose new cost basis exceeds what is left |
| Runs.BudgetHoldsIff | app/risk/reservations.py:217-258 | Over every run, overwrites included, the budget holds in every state if and only if every overwrite writes a cost basis that fits what is left |
| Book.QuietRunsKeepBook | app/risk/reservations.py:217-258 | Over quiet runs spent plus reserved fits the caps and fees, active reservations are exactly the unbooked rest, no share is promised twice |
| Book.PassStaysExactIff | app/oms/order_reconciliation.py:805-816 | A pass keeps reservations exact if and only if every order it confirms open is booked, when it is applied, for exactly what the exchange had reported matched |
| Races.PassMovesExactly | app/oms/order_reconciliation.py:772-843 | From every reachable state a pass changes reserved money and promised shares by exactly what the orders confirmed open gain, limit price times shares, less what closed orders give back; from an exact state an order gains what was booked of it beyond the reported match |
| Races.PassKeepsBookFitsIff | app/oms/order_reconciliation.py:772-843 | After a pass spent plus reserved fits the cap if and only if the change it makes fits the room left before it |
| Races.PassKeepsPromisesIff | app/oms/order_reconciliation.py:772-843 | After a pass no share is promised twice if and only if, token by token, the shares it promises anew were unpromised |
| Races.RaceOrder | app/oms/order_reconciliation.py:805-816 | In every reachable state, however much of an untouched order is booked while a pass is under way, the pass reserves the whole order again |
| Races.RacingPassOverReserves | app/oms/order_reconciliation.py:805-816 | A run of the system that ends with spent plus reserved 40 percent over the cap |
| Races.RacingPassPromisesTwice | app/oms/order_reconciliation.py:805-816 | A run of the system that ends with 1000 units promised and 600 held |
| Sales.PromisesCoverSales | app/risk/reservations.py:314-328 | In every reachable state all that may still be sold of a token is promised, up to 1e-6 shares per order |
| Sales.GrantKeepsSales | app/risk/reservations.py:309-334 | Granting a sale of unpromised shares keeps all outstanding sales held |
| Sales.BookingKeepsSales | app/oms/fill_processor.py:184-296 | Booking a sale takes from the position what it takes from the outstanding sales |
| Sales.StepKeepsSales | app/oms/order_reconciliation.py:722-843 | Every step but an overwrite, racing passes included, keeps outstanding sales held |
| Sales.InventoryIsNeverSoldTwice | app/risk/reservations.py:119-142 | In every reachable state without an overwrite the shares of a token that sales are or may be matched for without being booked are held, up to 1e-6 shares per SELL order |
| Sales.StepKeepsSalesIff | app/risk/watchdog.py:465-484 | One step keeps outstanding sales held if and only if it is not an overwrite that takes away shares some sale needs |
| Sales.SalesHoldIff | app/risk/reservations.py:119-142 | Over every run, overwrites included, outstanding sales are held in every state if and only if every overwrite reports at least the shares they need |
| Book.PendingFits | app/oms/fill_processor.py:213-218 | Every unbooked true execution fits its order and its reservation |
| Book.BookingKeepsPromises | app/risk/reservations.py:472-491 | A booked sale takes as many shares off the promise as off the position |
| History.RunKeepsHistory | app/oms/fill_processor.py:270-306 | In every reachable state cash facts and processed rows are one to one and a verified ledger is the replay of its log |
| History.ExactlyOnce | app/oms/fill_processor.py:98-120 | Whatever is delivered, the ledger of a market nobody overwrote is the replay of its processed executions, each once, in first-success order, the i-th with version i |
| History.LedgerIsDoubleEntry | app/oms/fill_processor.py:239-296 | In every reachable state the ledger of a market nobody overwrote shows realized profit less cost basis equal to the cash its facts say has moved, and a verified one knows every net amount |
| History.TerminalRowsAreAbsorbing | app/oms/fill_processor.py:153-166 | Processed and failed rows never change again |
| History.FillFailsOnlyForReason | app/oms/fill_processor.py:184-237 | Whatever reconciliation raced, a true mapped execution is refused if and only if its fee is unusable, its reservation closed, its ledger not verified, or it sells more than is held; a reservation is closed under it only if it is 1e-6 shares or less |
| History.PendingWithinTolerance | app/risk/reservations.py:463-471 | Every unbooked true execution fits its order, and its reservation up to 1e-6 shares |
| History.OversellWithinSlack | app/core/accounting.py:65-69 | Before an overwrite an oversell exceeds the position by at most 1e-6 shares per SELL order of the token |
| History.DeliveredFillsAreBooked | app/oms/fill_processor.py:134-329 | The same over every run: the exact condition for refusal, and the bound on an oversell before any overwrite |
| History.KeptPromisesNeverOversell | app/risk/reservations.py:463-491 | While reservations are exact and promises held there is no oversell at all |
| Audit.IndexInventories | app/core/accounting_integrity.py:96-110 | No blocker exactly when there is one verified row per market |
| Audit.IndexCash | app/core/accounting_integrity.py:112-120 | No blocker exactly when there is one fact per event |
| Audit.CheckCash | app/core/accounting_integrity.py:168-247 | No blocker exactly when the cash fact exists and matches identity, notional and fee |
| Audit.CheckFills | app/core/accounting_integrity.py:122-247 | No blocker exactly when every fill passes; the rows kept per market are its mapped fills in order |
| Audit.FindOrphans | app/core/accounting_integrity.py:249-258 | No blocker exactly when every cash fact has an inbox row |
| Audit.SortedIsContiguous | app/core/accounting_integrity.py:263-269 | If rows can be numbered 1, 2, 3 at all then sorting numbers them |
| Audit.CheckLedger | app/core/accounting_integrity.py:260-334 | No blocker exactly when some arrangement of the rows is contiguous and rebuilds the ledger within the tolerance |
| Audit.AuditAccountingFacts | app/core/accounting_integrity.py:83-341 | The audit is safe exactly when the tables, as multisets of rows, are consistent; so row order never matters |
| AuditedCash.CashMatchesIff | app/core/accounting_integrity.py:178-247 | A cash fact matches its fill exactly if market and side agree, the gross amount is price times size with the sign of the side to 1e-6 dollars, and the fee is known with the net amount it leaves or, where that is allowed, neither is known |
| AuditedCash.SafeAuditTiesOut | app/core/accounting_integrity.py:83-341 | In a safe audit every ledger numbers its rows without a gap, each with the one cash fact of its event, and these are all cash facts of the market; its shares are those bought less those sold, and realized profit less cost basis is the cash that moved, up to the tolerance of each amount |
| AuditAgreement.AuditAgrees | app/core/accounting_integrity.py:344-409 | In every reachable state the audit is safe exactly when every inbox row is processed and every ledger verified |
| AuditAgreement.AuditSafeIffUntainted | app/core/accounting_integrity.py:344-409 | In every reachable state the audit is safe exactly when every inbox row is processed and no step so far overwrote a ledger or booked a fill with an unknown fee |
| AuditAgreement.VerifiedIff | app/oms/fill_processor.py:233-296 | A ledger is verified exactly when no step so far overwrote it or booked a fill of its market with an unknown fee |
| AuditAgreement.StoredAuditAgreesIff | app/core/accounting_integrity.py:344-409 | On the tables as eight-decimal columns hold them, whatever the fees and however many fills, the audit is safe exactly when every row is processed, every ledger verified and the accumulated rounding of every market within the tolerance |
| AuditAgreement.StoredAuditAgrees | app/core/accounting_integrity.py:344-409 | So rounding neither hides nor invents a blocker while twice the booked fills of a market plus its fees of more than eight decimals number at most two hundred |
| AuditAgreement.NeverSafeAgain | app/risk/watchdog.py:465-484 | After one overwrite or one fill with an unknown fee no later audit of the run is safe |
| AuditAgreement.UnverifiedPersists | app/oms/fill_processor.py:233-296 | An unverified ledger is never verified again |
| Evaluator.TallyFills | app/core/alpha_evaluator.py:282-310 | The evaluator's cash loop fails exactly when average-cost books fail, and its cash is realized profit less cost basis, market by market |
| Evaluator.ValueInventory | app/core/alpha_evaluator.py:312-326 | Fails exactly when an open position lacks a fresh mark; otherwise the value is exposure at the marks |
| Evaluator.EvaluateMarkets | app/core/alpha_evaluator.py:282-337 | Cash plus terminal marks is average-cost realized plus unrealized profit |
| EvaluatorLaws.BookFillsIff | app/core/alpha_evaluator.py:282-310 | The average-cost books exist exactly if no sale exceeds what its token holds; they hold bought less sold, and realized profit less cost basis is the cash of the market |
| EvaluatorLaws.ProfitIsCashPlusWorth | app/core/alpha_evaluator.py:282-337 | An evaluation succeeds exactly when nothing is sold short and every token that is left has a mark no older than its last fill; a profit is the cash that moved plus what is left at its mark |
| Evaluator.MaximumDrawdown | app/core/alpha_evaluator.py:365-369 | The largest fall from an earlier to a later point of the curve |
| Lease.LiveExecutionLease.constructor | app/core/execution_lease.py:29-38 | A lease lasts at least six seconds |
| Lease.LiveExecutionLease.Acquire | app/core/execution_lease.py:40-93 | Takes a missing, own or expired row; a new owner raises the fence; otherwise the row stays |
| Lease.LiveExecutionLease.Renew | app/core/execution_lease.py:95-115 | Extends only an unexpired row with the process's own owner and fence |
| Lease.LiveExecutionLease.Release | app/core/execution_lease.py:140-167 | Ends only the process's own row and forgets the fence |
| Lease.LeasesExclude | app/core/execution_lease.py:50-87 | Over whole runs each fence belongs to one owner and validity periods of different owners never overlap |
| Lease.OneHolderAtATime | app/core/execution_lease.py:50-115 | At any instant at most one owner may trade a wallet |
| Lease.FenceNeverDecreases | app/core/execution_lease.py:70-74 | The fence never decreases and rises with every change of owner |
| Lease.RenewalProvesTenure | app/core/execution_lease.py:98-115 | A successful renewal proves nobody else held the wallet since it was granted |
| LeaseLaws.AcquireIff | app/core/execution_lease.py:40-93 | In every reachable state a lease is granted if and only if no other owner has a period that lasts past now; its length and its fence; a refusal changes no row |
| LeaseLaws.RenewIff | app/core/execution_lease.py:95-115 | A renewal succeeds if and only if the process still has, under its token, a period that lasts past the moment it checked |
| LeaseLaws.ReleaseFrees | app/core/execution_lease.py:140-167 | A release drops the token and, if the process has a running period under it, ends every period of the wallet, so that anybody may acquire it; otherwise no period ends |
| Quoting.GroupDesired | app/quoting/engine.py:1210-1218 | Every desired order is in the bucket of its signature |
| Quoting.SameSignatureIff | app/quoting/engine.py:1151-1160 | A resting order is what is desired exactly if side, price and post-only flag agree and both sizes round, half to even, to the same 1e-4 shares |
| Quoting.ShelteredIff | app/quoting/engine.py:1253-1277 | A SELL is sheltered exactly while it is younger than the buffer or within the offset of the fair value |
| Quoting.ConsumeCompatible | app/quoting/engine.py:1180-1201 | Uses up exactly one desired order of the same side and within the offset if there is one, and none otherwise |
| Quoting.QuotingEngine.ConsiderOrder | app/quoting/engine.py:1231-1279 | Exactly when one resting order is canceled and which desired order it uses up if it is kept |
| Quoting.QuotingEngine.ChooseCancels | app/quoting/engine.py:1220-1279 | For every BUY signature what stays is the smaller of resting and desired and what is missing completes the desired number; of SELLs that nothing shelters no more stay than are desired; what stays and what is missing are together at least what was desired |
| Quoting.QuotingEngine.CancelStale | app/quoting/engine.py:1290-1311 | Confirmed orders leave the cache; an unconfirmed one halts trading |
| Quoting.QuotingEngine.PlaceOrders | app/quoting/engine.py:1322-1362 | Every accepted order joins the cache as it was sent, and nothing else changes |
| Quoting.QuotingEngine.UpdatePendingBuyNotional | app/quoting/engine.py:1162-1178 | The tracked notional is that of the resting BUY orders |
| Quoting.QuotingEngine.SyncOrdersDiff | app/quoting/engine.py:1203-1320 | Exactly the common part of resting and desired BUYs is untouched and the BUYs end up as desired; no unsheltered SELL stays beyond what is desired; everything new was desired, no desired order is lost, and a desired SELL that no resting one is near rests exactly as often as it is desired; an unconfirmed cancel places nothing and halts; under a forced contraction no old BUY survives |
| QuoteBudget.EffectiveSize | app/quoting/engine.py:482-537 | The largest number of 0.01 shares within the strategy size, the market cap at a dollar a share over all levels, the part of the cap of one order and what remains; nothing if these leave less than the venue minimum |
| QuoteBudget.SizedOrderFits | app/quoting/engine.py:511-537 | A sized order costs at most its own budget and at most what remains |
| QuoteBudget.EdgeAllowsIff | app/core/quote_economics.py:17-59 | A quote passes exactly if its bounds are in range and it is below the fair value, or above it for a sale, by costs, adverse selection and the minimum edge, to 1e-12 dollars |
| QuoteBudget.QuantizedIsOnTick | app/quoting/engine.py:159-166 | A quantized price is the whole tick at or below a BUY price, at or above a SELL price, a tick away from both ends |
| QuoteBudget.GridBidInFull | app/quoting/engine.py:904-926 | The price of each level: so many ticks below the first bid, the first lifted to a tick below the best bid if allowed, none above a tick below the best ask |
| QuoteBudget.BuildBids | app/quoting/engine.py:902-978 | Level by level one order or a reason for none: a price already used, no edge, or too little left for the smallest order; every order has the largest size that the orders before it leave; prices are distinct and inside the spread, and together they fit the strict market budget |
| QuoteBudget.GridCostsAtMostHalf | app/quoting/engine.py:492-519 | A whole grid costs at most half of the market cap |
| QuoteBudget.SortSorts | app/quoting/engine.py:1121-1121 | The sort falls in price and keeps every order |
| QuoteBudget.SortIsStable | app/quoting/engine.py:1121-1121 | Orders of one price keep their order |
| QuoteBudget.KeepWithin | app/quoting/engine.py:1122-1147 | Keeps all orders by falling price that fit, and of the next one the largest number of lots that still does unless that is below the venue minimum |
| QuoteBudget.ApplyBalancePrecheck | app/quoting/engine.py:1070-1149 | A payload whose BUYs fit the smaller of local and global availability is untouched, otherwise every SELL is kept and the BUYs are trimmed |
| QuoteBudget.AvailableIff | app/quoting/engine.py:1091-1094 | An amount is available exactly if it exceeds neither the market cap nor the global budget |
| Requoting.PlanOrders | app/quoting/engine.py:722-1041 | Grid and precheck together respect strict, local and global budgets and keep every exit; under any of the five contraction conditions the payload is the exits alone, otherwise it is exits and grid after the precheck |
| Requoting.ContractsIff | app/quoting/engine.py:762-891 | The five conditions in numbers |
| Requoting.StrictUsedIs | app/quoting/engine.py:722-729 | The strict use of a market: each share at its own value between one cent and 99, plus pending BUYs; others leave out the own pending |
| Requoting.Requote | app/quoting/engine.py:866-1068 | Planning followed by the sync it forces: under any contraction condition, once every cancel is confirmed, no BUY of the token rests; otherwise, once every new order is accepted too, the resting BUYs are those planned; an unconfirmed cancel places nothing and halts |
| Requoting.OnTick | app/quoting/engine.py:732-1068 | A tick is requoted exactly when the debounce does not drop it, a dropped tick changes nothing, and under a contraction condition with every cancel confirmed no BUY rests afterwards if and only if the tick was requoted or none rested before |
| Exit.Scan | app/core/exit_policy.py:79-90 | The walk over the sorted bids covers as much of the target as the floor allows and stops at the highest limit that can execute it |
| Exit.PlanBoundedSell | app/core/exit_policy.py:20-100 | A plan exists exactly when inputs and bids are usable and enough can be sold above both floors; its size is the largest possible, executable at its limit and at no higher one; the floors it reports |
| Exit.AboveFloorIff | app/core/exit_policy.py:74-77 | The floors let through exactly the prices of at least a cent, within the impact of the best bid, and at which the position loses at most the allowed part of its cost |
| Exit.SellableIsLargest | app/core/exit_policy.py:79-95 | What can be sold is the most that is requested, held, and bid at such prices below the best bid |
| Exit.ExitLossIsBounded | app/core/exit_policy.py:74-77 | Booking a planned exit at its limit or better loses at most the configured fraction of the removed cost plus 1e-9 dollars per share |
| OrderBook.NormalizeLevels | app/market_data/integrity.py:92-112 | The table of a list of levels, or nothing if one level is unusable |
| OrderBook.ValidateBook | app/market_data/integrity.py:115-124 | Accepts exactly the healthy books |
| OrderBook.MergeChanges | app/market_data/gateway.py:223-255 | All changes in order, or nothing if one is malformed |
| OrderBook.LocalOrderbook.Seed | app/market_data/gateway.py:52-85 | A usable timely snapshot replaces the book; anything else changes nothing |
| OrderBook.LocalOrderbook.MarkInvalid | app/market_data/gateway.py:87-104 | Invalidates one asset; a required snapshot stays required |
| OrderBook.LocalOrderbook.ApplyBook | app/market_data/gateway.py:160-196 | Ignores a stale sequence, refuses an unusable book, otherwise replaces |
| OrderBook.LocalOrderbook.ApplyDelta | app/market_data/gateway.py:204-307 | The delta rules of one asset |
| OrderBook.LocalOrderbook.ApplyTick | app/market_data/gateway.py:309-337 | A usable tick size declares an asset with a book valid |
| OrderBook.LocalOrderbook.ApplyEvent | app/market_data/gateway.py:126-388 | Every asset advances on its own by the rules of the event; which assets were updated and which must stop |
| OrderBook.LocalOrderbook.Snapshot | app/market_data/gateway.py:390-411 | Offers the best levels of a valid two-sided book and nothing else; of a healthy book the best bid is below the best ask |
| OrderBook.TopLevels | app/market_data/gateway.py:401-402 | Keeps the best levels, best first, and leaves out only worse ones |
| OrderBookRuns.BookIsFold | app/market_data/gateway.py:126-307 | Price by price the book is the last accepted snapshot with all later accepted changes in order |
| OrderBookOutcomes.TableKeepsLast | app/market_data/integrity.py:92-112 | A snapshot lists a price with the last size it gives for it |
| OrderBookOutcomes.LastChangeIs | app/market_data/gateway.py:198-255 | What a batch says last about a price of an asset is its last change that names asset, side and price |
| OrderBookOutcomes.OutcomeIs | app/market_data/gateway.py:160-388 | What an event does to an asset and what is reported about it, from the fields of the event: when it is ignored, when it stops the asset, and validity, sequence and levels otherwise |
| OrderBookOutcomes.BadHeaderStops | app/market_data/gateway.py:133-158 | An event with a bad header stops exactly the assets it names, and a trade stops none |
| OrderBookRuns.ValidMeansHealthy | app/market_data/gateway.py:286-307 | In runs where no tick-size change revives an invalid asset, valid means two sides, positive sizes, prices in (0, 1) and no crossing |
| OrderBookRuns.NothingUntilSnapshot | app/market_data/gateway.py:211-221 | After a gap or a bad update the levels stay and the asset stays invalid until a full snapshot |
| OrderBookRuns.MalformedBatchChangesNothing | app/market_data/gateway.py:227-260 | One malformed change voids the whole batch |
| OrderBookRuns.GapStops | app/market_data/integrity.py:80-89 | A gap in the sequence requires a snapshot and changes no level |
| OrderBookRuns.TickSizeKeepsPromiseIff | app/market_data/gateway.py:328-337 | Exactly when a tick-size change keeps valid books healthy |
| OrderBookRuns.TickSizeRevivesCrossedBook | app/market_data/gateway.py:328-337 | A run that ends in a valid, crossed book |
| Cache.InventoryStateManager.FinishLoad | app/core/inventory_state.py:91-105 | A loaded row is used only if nothing is cached |
| Cache.InventoryStateManager.ApplyReconciliationSnapshot | app/core/inventory_state.py:184-235 | An announcement older than the cache is ignored, any other replaces the announced fields |
| Cache.AcceptIs | app/core/inventory_state.py:184-235 | Field by field what an announcement does: shares are replaced, a capital that is not announced keeps its average cost, the rest is replaced where announced, pending amounts stay |
| Cache.InventoryStateManager.UpdatePendingBuyNotional | app/core/inventory_state.py:165-176 | Changes one pending amount and nothing else |
| Cache.CacheIsACommittedRow | app/core/inventory_state.py:184-235 | Whatever the order in which announcements and loads arrive, while overwrites commit the cache shows the row of its own version; with fills only, realized profit included |
| Cache.CacheIsACommittedRowIff | app/risk/watchdog.py:491-501 | If overwrites may fail to commit, a cache with no newer row for its version on the way shows a committed row exactly when its version was committed |
| Cache.FailedOverwriteStaysCached | app/risk/watchdog.py:491-501 | A run whose drained cache shows a row that was never committed |
| Cache.VersionNeverGoesBackIff | app/core/inventory_state.py:198-206 | Over any run the cached version never goes back if and only if no bulk load is stale |
| Cache.StepKeepsVersionIff | app/core/inventory_state.py:64-65 | One step moves the cached version back if and only if it is a bulk load of an older row |
| Cache.DrainedCacheIsLatest | app/oms/fill_processor.py:310-329 | While overwrites commit, once every announcement has arrived the cache is the latest committed row |
| Cache.DrainedCacheIsLatestIff | app/oms/fill_processor.py:310-329 | If they may fail to, a drained cache is the latest committed row if and only if its version was committed; the next commit that arrives heals it |
| Cache.StepKeepsProfitIff | app/core/inventory_state.py:198-226 | One step keeps the cached realized profit that of its version if and only if it is not an overwrite announcement taken before a fill that changed the profit |
| Cache.ProfitIsRightIff | app/oms/fill_processor.py:310-329 | While overwrites commit, the cached realized profit is right in every state of a run if and only if no such delivery occurs |
| Cache.DrainedProfitIsRight | app/oms/fill_processor.py:310-329 | Then a drained cache is the latest committed row, realized profit included |
| Cache.CachedProfitWasCommitted | app/core/inventory_state.py:184-235 | Over every run the cached realized profit is that of the committed row of the last load or fill announcement the cache took |
| Cache.CacheIsTheWholeRowIff | app/core/inventory_state.py:184-235 | In any state without a row for its version on the way, the cache shows the whole committed row if and only if its version was committed and the profit did not change since the one it took last |
| Cache.DrainedCacheIsTheLatestRowIff | app/oms/fill_processor.py:310-329 | A drained cache is the latest row, profit included, exactly under the same two conditions |
| Cache.OverwriteLosesProfit | app/risk/watchdog.py:491-499 | A run whose drained cache shows a realized profit of an older row |
| Pricing.BuildLevels | app/core/pricing_model.py:31-51 | The sorted, truncated levels of a side, or the error of the first bad one |
| Pricing.SortPutsBestFirst | app/core/pricing_model.py:48-48 | The first level is the best price of the list |
| Pricing.MicropriceIsInsideTheSpread | app/core/pricing_model.py:54-82 | The microprice lies strictly between best bid and best ask and the imbalance strictly inside (-1, 1) |
| Pricing.FairValueIsSymmetric | app/core/pricing_model.py:85-149 | Swapping the books and inventories maps the fair value to one minus it and keeps spread, parity error and success |
| Pricing.FairValueIsFused | app/core/pricing_model.py:119-149 | The unskewed value lies between the two books' microprices; inventory moves it by at most the skew; bounds and parity hold |
| PricingLaws.SortIsStable | app/core/pricing_model.py:48-48 | Sorting a side puts the best price first and keeps equal prices in their order |
| PricingLaws.LevelsAreTheBest | app/core/pricing_model.py:31-51 | When a side has levels, and that they are the first of that arrangement |
| PricingLaws.SignalInFull | app/core/pricing_model.py:54-82 | When a book has a signal, and each amount of it by its own equation: the depth of the bids weighs the best ask, that of the asks the best bid |
| PricingLaws.DeeperBookRaises | app/core/pricing_model.py:72-79 | More size on the bids, at the same prices, never lowers microprice or imbalance |
| PricingLaws.FairValueInFull | app/core/pricing_model.py:85-149 | When there is a fair value, and which: YES inventory lowers it and NO inventory raises it in proportion to the cap, and the spread it comes with |
| PricingLaws.RawByDepth | app/core/pricing_model.py:119-132 | Before inventory each book weighs by its own depth |
| PricingLaws.InventoryNeverRaises | app/core/pricing_model.py:130-135 | With the books fixed, more YES inventory never raises the YES fair value |
| PricingLaws.FullSkewAtTheCap | app/core/pricing_model.py:130-135 | At or beyond the cap the whole skew is taken off |

## Left out

- Paper trading: simulated fills, paper cancels, and the lookup of an order by its local id in place of an exchange id.
- The reservation's own identifier: a reservation is keyed by its unique client order id.
- The four decimals of the cached reservation total: the cache is treated as exact.
- Row-lock order and deadlock: a transaction is one atomic step, a failure is a rollback.
- Floating-point error: arithmetic between stores is exact.
- The safety gate, readiness flags, halts and the circuit breaker: they only forbid steps the model allows. `Quoting` keeps the halt of an unconfirmed cancel.
- Classifying the text of a cancel response, parsing exchange orders, and extracting fills and unsettled sizes from trade lists: the model takes the parsed outcome, and the unsettled sizes a pass uses are arbitrary.
- The choice of event id by hashing: event ids are given and deterministic.
- Settlement failure of a matched trade: matched shares never shrink.
- Snapshots, runs and summaries stored for operators.
- Authenticated balance queries and the time buffer before an overwrite: an overwrite may happen at any time with any non-negative position.
- The evaluator's validation of its data set, markouts, volumes, bootstrap bounds and drawdown fraction.
- Markets with more than two tokens in the ledger; the evaluator allows any number.
- The renewal task of the lease and its halts: only the row operations matter for exclusion. One time to live per owner is assumed.
- Extra metadata of an order book: receive times, hashes, last trade and tick-size fields.
- Fetching rows for the cache: what a load read is a value that may be old when it is used; clearing the cache at shutdown.
- What a tick does before its debounce: suspension, settling of a graceful exit, missing books, an invalid fair value and the volatility guard, which cancel all orders or return.
- The quoting engine outside the grid, the budgets and the diff: signals, spreads, modes and exits.
- Store.Database.CreateOrder: does not model interleaving with other processes; that is what the steps of `World` are for.
- Store.Database.SettleSubmission: the same sequential view of the end of a submission.
- Store.Database.FindOrder: looks an order up by its exchange id only; the lookup by local id serves paper trading.
- Store.Database.ProcessEvent: maps an execution by exchange id only, for the same reason.
- Cache.CacheIsACommittedRow: says nothing about realized profit once an overwrite was announced; `Cache.CacheIsTheWholeRowIff` does.
- Cache.DrainedCacheIsLatest: likewise; `Cache.DrainedCacheIsTheLatestRowIff` does.
- Book.QuietRunsKeepBook: holds for runs in which every order a pass confirms open still has its reservation and is booked as reported; for all runs see `Sales.InventoryIsNeverSoldTwice` and `Runs.TrueExposureNeverExceedsBudget`, and for one racing pass `Races`.
- Sales.InventoryIsNeverSoldTwice: excludes external overwrites, which may take away shares that are promised; `Sales.SalesHoldIff` covers the runs with them.
