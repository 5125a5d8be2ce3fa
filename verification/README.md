# DiddiGo backend: a verified model

A Dafny model of the parts of the DiddiGo backend where state, time and the outside world meet, with
proofs about every run of them:

- **Driver money** (`Payment*`, `Wallet*`, `Withdrawal*`, `SweepLaws`, `UnsettledPayments`,
  `Solvency`, `PaymentCalls`, `PaymentRaces`, `ProviderWords`, `*Outcomes`). The payment tables are one value
  (`PaymentBooks.Books`); a run is any sequence of requests, DiddiPay webhooks, payout answers and
  reconciliation sweeps, with arbitrary answers, order, repeats and times. `PaymentRepository`,
  `PaymentService` and `WalletService` hold the source's classes and loops, each method proved equal to
  the step function the theorems speak about; `PaymentSession` puts them in their sessions, where serving
  requests one by one is proved to be a run. `PaymentCalls` and `PaymentRaces` let requests overlap.
- **Driver capability outbox** (`Outbox`, `OutboxProtocol`, `CapabilityProjection`). The environment
  assumption is a receiver that keeps, per user, only the highest version it has seen.
- **Matching** (`Ranking`, `OfferWaves`, `AcceptProtocol`). Assumptions: a nearby list names a driver at
  most once; the tried-set and the claim do not expire during a search.
- **Ride state machine** (`RideLifecycle`) and **KYC/KYV dossiers** (`DossierReview`, `Dossiers`,
  `DossierOutcomes`).
- **Idempotent service commands** (`CommandProtocol`), as interleaved steps of many callers on one key.

Layout: step functions and their laws first, then runs, then theorems. The `*Outcomes` files,
`WithdrawalTerms` and `ProviderWords` say what each step means in amounts, words and rows alone, without the step's own
functions. `Prelude` holds the shared
vocabulary. `dafny verify dfyconfig.toml` checks everything.

Where the code and its description differ, the model follows the code, and the difference is a theorem:

- A `WITHDRAWAL_SUCCEEDED` line is a confirmed debit that leaves the balance alone (the reservation
  already took the money), so the sum of all lines misses the balance by exactly what was paid out
  (`PaymentAmounts.PlainSumMissesPaidOut`).
- "Withdrawals never overdraw" holds always; "only commissions make a balance negative" fails exactly on
  the inputs named by `Solvency.ActKeepsSolventExactlyWhen` and its cases for each request, webhook and
  sweep row.
- "One payment per ride" is not a constraint of the table; it holds while requests for the ride do not
  overlap, and fails exactly as `PaymentRaces.SecondRowExactlyWhen` says.
- An accept saves the ride unconditionally, so a cancelled ride can still be matched
  (`AcceptProtocol.WithdrawnRideMatchedExactlyWhen`).
- A digital payment can be stored as succeeded without paying the driver, on a first try or a retry,
  exactly as `UnsettledPayments.PreparedUnpaidExactlyWhen` says.
- One bad payout answer stops a whole sweep, although it is meant to survive a bad row
  (`SweepLaws.SweepReturnsExactlyWhen`).
- A payout webhook is matched by reference only, not by amount (`PaymentSafety.PayoutWebhookIgnoresAmount`).
- "The first to accept wins" survives a clear of the offer store exactly when the clear is not harmful
  (`AcceptProtocol.SecondAcceptExactlyWhen`, and for any number of clears
  `AcceptProtocol.OneAcceptExactlyWhenClearsAreHarmless`).
- A command commits at most once until a harmful fault: exactly a failed store after the commit, or an
  expiry after a commit or while the key is owned (`CommandProtocol.SecondCommitExactlyWhen`).
- Publisher and reconciliation derive different statuses for a driver whose vehicles are all inactive
  (`CapabilityProjection.PublisherAndReconciliationAgree`).
- The wallet service reads provider statuses without trimming or lower-casing them, unlike the webhook and
  the sweep (`ProviderWords.ReadersAgreeExactlyOn`).

## Model

| member | source | states |
|---|---|---|
| PaymentTheorems.MoneyLaws | app_base/modules/payment/infra/repositories.py:479-518 | After any run of requests, webhooks, payout answers and sweeps: cached balance = signed sum of the driver's confirmed log lines without WITHDRAWAL_SUCCEEDED; balance + reserved + paid out = credits − commissions |
| PaymentAmounts.PlainSumMissesPaidOut | app_base/modules/payment/infra/repositories.py:840-845 | After any run the sum of all confirmed lines = balance − paid out, so "balance = sum of all entries" holds exactly for drivers never paid out anything |
| PaymentAmounts.WithdrawalsNeverOverdraw | app_base/modules/payment/infra/repositories.py:717-739 | After any run, whatever amounts came in, a balance never falls below what the lines outside withdrawals took from it |
| PaymentAmounts.SolventExactlyWhenCovered | app_base/modules/payment/infra/repositories.py:717-739 | In every reachable state balance ≥ −commissions iff what is reserved or paid out was credited |
| PaymentAmounts.SolventAfterExactlyWhen | app_base/modules/payment/infra/repositories.py:479-518 | Any action, sweeps included, only appends to the log, moves balance + commissions by exactly the lines it books, and keeps balance ≥ −commissions iff those lines do not take more than there was |
| Solvency.ActKeepsSolventExactlyWhen | app_base/modules/payment/infra/repositories.py:513-515 | In every reachable state any action keeps balance ≥ −commissions iff what it moves is within the margin, where the move is read off the action's own inputs and the books before it |
| Solvency.TopupRequestBreaksExactlyWhen | app_base/modules/payment/application/wallet_service.py:145-224 | A top-up request breaks it iff its amount is positive, not cash, answered as succeeded with an id no stored top-up has and a readable amount below −(balance + commissions) |
| Solvency.TopupWebhookBreaksExactlyWhen | app_base/modules/payment/application/services.py:466-497 | A first webhook on a top-up breaks it iff it matches the row, reads succeeded, the credit is not booked yet and the stored amount is below −(balance + commissions) |
| Solvency.RideWebhookBreaksExactlyWhen | app_base/modules/payment/application/services.py:444-465 | A first webhook on a ride payment breaks it iff it matches the row, reads succeeded, and the ride's digital share is not booked yet and below −(balance + commissions) |
| Solvency.RequestBreaksExactlyWhen | app_base/modules/payment/infra/repositories.py:672-757 | A withdrawal request breaks it iff it is verified, on the driver's own unused unexpired quote, under a new id, for more than balance + commissions but no more than the balance; the commissions are then below zero |
| Solvency.RowBreaksExactlyWhen | app_base/modules/payment/application/services.py:564-725 | A sweep row breaks it iff what it moves, read off the row and its answer, eats the margin; withdrawal rows never do |
| Solvency.OthersNeverBreak | app_base/modules/payment/application/services.py:206-261 | Cash, prepared payments, quotes, new wallets and payout answers never break it |
| PaymentAmounts.LineBreaksSolvencyExactlyWhen | app_base/modules/payment/infra/repositories.py:513-515 | Seen from the log: of the single line an action booked, exactly a credit below −(balance + commissions) or a reservation above it breaks that law |
| PaymentAmounts.ReservationBreaksOnlyNegativeCommissions | app_base/modules/payment/infra/repositories.py:717-718 | A reservation never exceeds the balance, so it breaks that law only while a driver's commissions are below zero |
| PaymentRuns.RunsAreSound | app_base/modules/payment/infra/repositories.py:672-757 | Every reachable state is sound: sums agree, log keys are unique, each withdrawal has one RESERVED line, a SUCCEEDED line iff succeeded, a RELEASED line iff released, each log line and consumed quote has its owner |
| PaymentAmounts.NoOverdraft | app_base/modules/payment/infra/repositories.py:717-739 | A corollary on inputs: when rides carry no negative share and no new top-up is answered with a negative amount, balance ≥ −commissions and what is reserved or paid out was credited, in every reachable state |
| PaymentAmounts.NegativeTopupOverdraws | app_base/modules/payment/application/wallet_service.py:191-223 | The inputs that break it on an empty wallet: any new top-up answered as succeeded with a negative amount, because the stored amount is the provider's |
| PaymentTheorems.WithdrawalsFollowVerdict | app_base/modules/payment/infra/repositories.py:817-864 | After any run a withdrawal's status is the verdict of the reports applied to it: the first terminal one decides, whatever the source, order and repeats; `failed` is never stored; released iff its one RELEASED line is in the log |
| PaymentTheorems.LaterReportsIgnored | app_base/modules/payment/infra/repositories.py:833-834 | Once a report was terminal, any further reports leave the verdict |
| PaymentTheorems.ReportsMoveMoneyOnce | app_base/modules/payment/infra/repositories.py:835-864 | Any sequence of reports on a reserved withdrawal, each with its own payout id, word and time: the status is the verdict of those whose payout id no other withdrawal carries; the amount comes back exactly once if that is a failure, never otherwise; no other balance or row moves |
| PaymentTheorems.FoldIsVerdict | app_base/modules/payment/application/services.py:399-438 | Handling reports one by one equals looking only at the first terminal one |
| PaymentTheorems.PayoutIdSticks | app_base/modules/payment/infra/repositories.py:770-777 | A payout id recorded by a report is how the next report finds the same withdrawal |
| PaymentTheorems.TopupsCreditedExactlyOnce | app_base/modules/payment/application/services.py:781-799 | A top-up has a credit line iff some applied report said succeeded, never two, even if its status regresses later; the stored status is the last report |
| PaymentTheorems.SettlementsFollowReports | app_base/modules/payment/application/services.py:960-998 | A settlement line for a key exists iff an applied ride report called for it |
| PaymentTheorems.RideSettledAtMostOnce | app_base/modules/payment/application/services.py:960-998 | A ride that keeps its driver and payment method has at most one settlement line in total |
| UnsettledPayments.PreparedUnpaidExactlyWhen | app_base/modules/payment/application/services.py:835-958 | In every state with one payment per ride: preparing a payment never touches log or balances, and leaves the ride's payment newly succeeded iff the request is digital, reaches the provider (no payment yet, or a retry) and the answer reads "succeeded" in any spelling |
| UnsettledPayments.SucceededButUnsettled | app_base/modules/payment/application/services.py:917-958 | That condition can be met in every reachable state for a ride without a payment, so "exactly once" is false |
| UnsettledPayments.SweepLeavesUnpaid | app_base/modules/payment/application/services.py:613-668 | No sweep repairs it: an answer reading "succeeded" with the same next action leaves every table, counted unchanged or mismatched |
| UnsettledPayments.WebhookPaysLater | app_base/modules/payment/application/services.py:444-465 | A first matching webhook books the settlement unless it was booked before |
| PaymentTheorems.QuoteUsedOnce | app_base/modules/payment/infra/repositories.py:672-757 | A quote is consumed iff exactly one withdrawal carries it; that one copies driver, amount, fees and net (amount = fees + net, net > 0) and was reserved before expiry |
| WithdrawalLaws.ConsumedQuoteHasRow | app_base/modules/payment/infra/repositories.py:681-691 | In a sound state the "consumed but no withdrawal" branch is unreachable |
| WithdrawalLaws.ReplayIsFree | app_base/modules/payment/application/wallet_service.py:288-292 | Requesting a withdrawal on a consumed quote again reserves nothing more |
| PaymentTheorems.WebhooksApplyOnce | app_base/modules/payment/application/services.py:387-398 | An event id is recorded iff exactly one step applied it; any redelivery changes nothing; a rejected delivery is not recorded |
| PaymentTheorems.RunsAreExplained | app_base/modules/payment/application/services.py:362-497 | Credits, settlements and withdrawal statuses are functions of the reports applied during the run |
| PaymentSafety.WebhookReportsAreAuthentic | app_base/modules/payment/application/services.py:399-497 | In every reachable state a webhook moves at most one row, the one its intent (or payout id and reference) names; for intents amount, currency and reference are the stored ones |
| PaymentSafety.PayoutWebhookIgnoresAmount | app_base/modules/payment/application/services.py:399-438 | A payout webhook is never compared with the withdrawal's amount or currency |
| PaymentSafety.SweepReportsAreAuthentic | app_base/modules/payment/application/services.py:564-725 | A sweep applies only answers that match the row; missing, mismatched and failed rows leave all tables as they were |
| PaymentSafety.PayoutAnswerTakenExactlyWhen | app_base/modules/payment/application/wallet_service.py:502-519 | A synchronous payout answer is accepted iff net amount, currency and reference match, status and id are readable, and no other withdrawal carries the payout id (a final one needs no such check) |
| PaymentSafety.ReportRefusedExactlyWhen | app_base/modules/payment/infra/repositories.py:817-864 | A report on a known withdrawal fails iff it is open and another row carries the payout id |
| PaymentSafety.RidesHaveOnePayment | app_base/modules/payment/application/services.py:226-239 | After any run of requests that do not overlap no two payments share an id, a ride or a payment intent |
| PaymentRaces.SecondRowExactlyWhen | app_base/modules/payment/infra/models.py:29-38 | With overlapping requests a ride with one payment can get a second iff some request looked before it was stored and has not written yet |
| PaymentRaces.RowsReachExactlyLimit | app_base/modules/payment/application/services.py:226-237 | From one stored payment, overlapping requests reach exactly: one more row per cash request that saw none, and one more for all digital ones together |
| PaymentRaces.UnpaidRideTakesAnyNumber | app_base/modules/payment/application/services.py:801-816 | A ride without a payment can get any number of rows |
| PaymentRaces.SerialRequestsStoreOneRow | app_base/modules/payment/application/services.py:852-946 | Requests that look and write one after the other store at most one payment, and no second can follow |
| PaymentRaces.TwoRowsShutTheRide | app_base/modules/payment/infra/repositories.py:90-97 | With two rows every later request about the ride raises at its look, for ever |
| PaymentCalls.MoneyLawsBetweenCalls | app_base/modules/payment/infra/repositories.py:479-518 | With requests overlapping at will, after every single repository call: balance = signed sum, conservation, no overdraft by withdrawals, unique log keys, withdrawals and quotes agree with their lines |
| PaymentEffects.RequestSucceedsExactlyWhen | app_base/modules/payment/infra/repositories.py:672-757 | A verified request on an unused quote goes through iff the quote is the driver's, not expired and covered by the balance; then exactly its amount moves from that driver's balance into reservation |
| PaymentEffects.GrantedQuoteCanBeSpent | app_base/modules/payment/application/wallet_service.py:226-258 | A granted quote can be spent by its driver until it expires; granting it moves no money |
| PaymentEffects.RefusedPayoutRoundTrip | app_base/modules/payment/application/wallet_service.py:341-375 | A request whose payout is then refused restores every driver's balance, reserved and paid totals |
| PaymentEffects.TopupWebhookExactlyWhen | app_base/modules/payment/application/services.py:466-497 | A first webhook on a top-up is accepted iff amount, currency, reference and status read as the row's; the balance then moves by the amount iff this is the first success |
| PaymentEffects.RideWebhookExactlyWhen | app_base/modules/payment/application/services.py:444-465 | A first webhook on a ride payment is accepted iff it matches the row; the settlement called for is then in the log and moved the balance unless it was there |
| PaymentEffects.PayoutWebhookExactlyWhen | app_base/modules/payment/application/services.py:399-438 | A first payout webhook is accepted iff its reference is the row's and its status known, never failing on a payout id; what each word does is `PayoutOutcomes.PayoutWebhookMeans`; the withdrawal is found by that id from then on |
| PayoutOutcomes.PayoutWebhookMeans | app_base/modules/payment/application/services.py:399-438 | On words and tables alone: a first payout webhook on an open withdrawal pays it out on "succeeded" (no balance moves, the paid total grows by the amount), gives the amount back on "failed" and "disputed", leaves it reserved on "pending" and "processing", and raises on any other word |
| PayoutOutcomes.PayoutAnswerMeans | app_base/modules/payment/application/wallet_service.py:502-519 | The same for the synchronous payout answer |
| PayoutOutcomes.SweepPayoutMeans | app_base/modules/payment/application/services.py:564-611 | The same for a matching sweep row, where an unknown word is counted as an error; unchanged iff the status stays |
| RideOutcomes.CashAcceptedExactlyWhen | app_base/modules/payment/application/services.py:206-225 | Cash is accepted iff the ride is completed and the amount is within 200 or a tenth of its final fare, if it has one |
| RideOutcomes.CashStored | app_base/modules/payment/application/services.py:226-259 | Accepted cash leaves the ride's one payment, or a new one, collected with that amount, collector and time; no other payment changes |
| RideOutcomes.CashCharges | app_base/modules/payment/application/services.py:960-978 | Accepted cash on a cash ride with driver and both shares books exactly one debit of the commission, once per ride, and lowers exactly that driver's balance by it; otherwise no line and no balance moves |
| RideOutcomes.RideWebhookMeans | app_base/modules/payment/application/services.py:444-465 | A first webhook that fits its payment stores the status its word spells, raises if it spells none, and books exactly what that calls for: on a success of a digital ride a credit of the driver's payout, once |
| RideOutcomes.WrongRideWebhookRaises | app_base/modules/payment/application/services.py:444-458 | A webhook with another number, currency or reference, or without an amount while the row's is not negative, raises |
| RideOutcomes.RideSweepMeans | app_base/modules/payment/application/services.py:613-668 | A sweep answer that fits the row has the same effect, is unchanged iff status and next action are those stored, and an error iff its word spells no status |
| RideOutcomes.DigitalPreparationGrantedExactlyWhen | app_base/modules/payment/application/services.py:835-958 | A digital preparation is granted iff the ride is completed, priced and paid that way, and has no payment, one with an intent that stands, or one that failed or was cancelled; where the provider is asked its answer must be readable with an id no other payment has |
| RideOutcomes.CashPreparationGrantedExactlyWhen | app_base/modules/payment/application/services.py:801-833 | A cash preparation is granted iff the ride is completed and priced and its payment, if any, is cash or a digital one that failed or was cancelled |
| RideOutcomes.DigitalPreparationMeans | app_base/modules/payment/application/services.py:835-958 | A granted digital preparation stores a first try with the provider's amount, currency and status (the fare, the ride's currency and "requires_action" by default), puts a retry in place of the failed one, or leaves the payment that stands |
| RideOutcomes.CashPreparationMeans | app_base/modules/payment/application/services.py:801-833 | A granted cash preparation stores a pending payment of the final fare, keeps a cash payment, or turns a failed digital one to cash |
| TopupOutcomes.TopupGrantedExactlyWhen | app_base/modules/payment/application/wallet_service.py:145-224 | A top-up is granted iff the amount is positive, not cash, answered with a readable status and amount and an intent, and neither its id nor its intent is another top-up's |
| TopupOutcomes.TopupRequestMeans | app_base/modules/payment/application/wallet_service.py:145-224 | A granted top-up stores one row with the provider's amount, currency and status, and credits exactly that amount at once iff the status is succeeded |
| TopupOutcomes.TopupWebhookMeans | app_base/modules/payment/application/services.py:466-497 | A first webhook that fits its top-up stores the status its word spells, refunds, cash and disputes as failed, and credits a success once |
| TopupOutcomes.WrongTopupWebhookRaises | app_base/modules/payment/application/services.py:466-490 | A webhook with another number, currency or reference than the top-up's, or without an amount, raises |
| TopupOutcomes.TopupSweepMeans | app_base/modules/payment/application/services.py:670-725 | A sweep answer that fits the top-up has the same effect, or is unchanged, or an error |
| WithdrawalTerms.QuoteGrantedExactlyWhen | app_base/modules/payment/application/wallet_service.py:226-266 | A quote is granted iff the amount reaches the minimum, exceeds the fee and is covered, under a new id; it stores the configured fee, the rest as net and the configured time limit, and nothing else changes |
| WithdrawalTerms.RequestReserves | app_base/modules/payment/infra/repositories.py:672-757 | A granted request stores one row on the quote's terms, books one reservation of its amount, takes it off the balance and marks the quote used |
| WithdrawalTerms.AskedFeesAndNetAreCarried | app_base/modules/payment/application/wallet_service.py:226-339 | From quote to row: amount as asked, fees as configured, net = amount − fee |
| WithdrawalTerms.RepeatTakenExactlyWhen | app_base/modules/payment/application/wallet_service.py:288-292 | A request on a used quote is answered iff driver and destination are the row's, and changes nothing |
| WithdrawalTerms.ReplayFillsDestination | app_base/modules/payment/infra/repositories.py:681-690 | Reserving a used quote again only fills in a destination the row lacks |
| ProviderWords.ReadingIsSpelling | app_base/modules/payment/application/services.py:1018-1030 | A status is read from exactly the words of that status, once trimmed and lower-cased |
| ProviderWords.TopupReadingIsSpelling | app_base/modules/payment/application/services.py:1033-1042 | The same for top-ups, with refunds, cash and disputes read as failed |
| ProviderWords.WalletReadingIsSpelling | app_base/modules/payment/application/wallet_service.py:612-621 | The wallet service reads exact words only, and an empty one as "requires_action" |
| ProviderWords.ReadingIgnoresBlanksAndCase | app_base/modules/payment/application/services.py:1018-1030 | Blanks around a status and its letter case never change how webhook and sweep read it |
| ProviderWords.ReadersAgreeExactlyOn | app_base/modules/payment/application/wallet_service.py:613-622 | The wallet service's reading agrees with the other iff the word is canonical, or non-empty and no canonical or abandoned word even when trimmed and lower-cased |
| SweepLaws.SweepAddsUp | app_base/modules/payment/application/services.py:499-544 | Every sweep that returns has checked = updated + unchanged + missing + mismatched + errors = rows, and updated = number of references |
| SweepLaws.SweepReturnsExactlyWhen | app_base/modules/payment/application/services.py:522-543 | A sweep returns iff every row survives where the sweep meets it; one that does not stops the whole sweep |
| SweepLaws.RowSurvivesExactlyWhen | app_base/modules/payment/application/services.py:564-611 | A row survives iff it exists and, for a withdrawal, reading the payout did not crash, its amount is a number and, once it matches with a known status, it has an id no other withdrawal carries (a final row needs no such check) |
| SweepLaws.SweepIsStable | app_base/modules/payment/application/services.py:564-725 | Processing the same rows again against the same answers cannot fail, updates nothing and moves no balance |
| SweepLaws.SweepCalms | app_base/modules/payment/application/services.py:613-725 | After a sweep every processed row agrees with the answer it got, also when jobs share rows |
| SweepOutcomes.ReportCountsEachKind | app_base/modules/payment/application/services.py:499-544 | A returned report counts, for each kind, exactly the rows sorted there, and lists the references of the updated ones in order |
| SweepOutcomes.PaymentRowsAreSorted | app_base/modules/payment/application/services.py:613-668 | A payment without an intent, or with one the provider does not know, is missing; an unreadable answer is an error; another amount, currency or reference is mismatched; no table changes |
| SweepOutcomes.TopupRowsAreSorted | app_base/modules/payment/application/services.py:670-725 | The same for top-ups |
| SweepOutcomes.PayoutRowsAreSorted | app_base/modules/payment/application/services.py:564-598 | The same for payouts; a crash or an amount that is no number stops the sweep |
| WalletLaws.RecordKeepsSound | app_base/modules/payment/infra/repositories.py:479-518 | Recording an entry once keeps every law |
| WalletLaws.SettlementKeepsSound | app_base/modules/payment/application/services.py:960-998 | Settling a ride keeps every law |
| WithdrawalLaws.ReserveKeepsSound | app_base/modules/payment/infra/repositories.py:672-757 | Reserving from a quote keeps every law |
| WithdrawalLaws.MarkKeepsSound | app_base/modules/payment/infra/repositories.py:817-898 | Applying a provider report keeps every law |
| PaymentRuns.ActKeepsSound | app_base/core/database.py:95-103 | Every single action, committed or rolled back, keeps every law |
| PaymentRepository.Repository.RecordLedgerEntryOnce | app_base/modules/payment/infra/repositories.py:479-518 | In place: inserts at most once per key and moves the cached balance with it |
| PaymentRepository.Repository.ReserveWithdrawalFromQuote | app_base/modules/payment/infra/repositories.py:672-757 | In place: replay, expiry, balance and uniqueness checks, then row, quote, wallet and log together; an error leaves the tables as they were, or with an empty wallet row for the driver |
| PaymentRepository.Repository.MarkWithdrawalProviderState | app_base/modules/payment/infra/repositories.py:817-864 | In place: terminal rows ignored, FAILED stored as RELEASED, money given back once; an error leaves the tables as they were whenever the driver has a wallet row |
| PaymentRepository.Repository.InsertWithdrawalLedgerOnce | app_base/modules/payment/infra/repositories.py:866-898 | In place: a log line that never touches the balance, at most once |
| PaymentRepository.Repository.RecordWebhookEvent | app_base/modules/payment/infra/repositories.py:288-309 | In place: first delivery recorded, later ones reported as duplicates |
| PaymentRepository.Repository.MarkTopupStatus | app_base/modules/payment/infra/repositories.py:551-569 | In place: unconditional status, paid_at kept once set |
| PaymentRepository.Repository.MarkExternalStatus | app_base/modules/payment/infra/repositories.py:146-165 | In place: payment status and dates |
| PaymentRepository.Repository.UpdateCollected | app_base/modules/payment/infra/repositories.py:108-124 | In place: the payment collected in cash |
| PaymentRepository.Repository.PrepareCashPayment | app_base/modules/payment/infra/repositories.py:126-144 | In place: a failed digital payment turned into a pending cash one |
| PaymentRepository.Repository.ReplaceExternalIntent | app_base/modules/payment/infra/repositories.py:243-266 | In place: a retried payment gets its new intent unless another row carries it |
| PaymentRepository.Repository.InsertTopup | app_base/modules/payment/infra/repositories.py:520-538 | In place: refused on a duplicate id or intent |
| PaymentRepository.Repository.InsertWithdrawalQuote | app_base/modules/payment/infra/repositories.py:591-605 | In place: a fresh quote |
| PaymentRepository.Repository.WithdrawalReservedTotal | app_base/modules/payment/infra/repositories.py:334-341 | Summing row by row gives the total of the driver's reserved and processing withdrawals |
| PaymentService.Service.ReceiveWebhook | app_base/modules/payment/application/services.py:362-497 | The webhook step by step with its session equals the specified outcome, whose meaning is `PayoutOutcomes`, `RideOutcomes` and `TopupOutcomes`; a rejected event leaves every table as before |
| PaymentService.Service.HandleIntent | app_base/modules/payment/application/services.py:444-497 | Payment first, then top-up; the checks of amount, currency and reference in the source's order |
| PaymentService.Service.RecordRideSettlement | app_base/modules/payment/application/services.py:960-998 | Records the entry the ride calls for: `RideOutcomes.CashCharges` and `RideWebhookMeans` say which |
| PaymentService.Service.ApplyTransactionStatus | app_base/modules/payment/application/services.py:760-779 | Marks the payment, then settles its ride |
| PaymentService.Service.ApplyTopupStatus | app_base/modules/payment/application/services.py:781-799 | Marks the top-up, then credits it when succeeded |
| PaymentService.Service.ReconcilePayment | app_base/modules/payment/application/services.py:613-668 | One payment row of the sweep: tables and report counters as specified |
| PaymentService.Service.ReconcileTopupRow | app_base/modules/payment/application/services.py:670-725 | One top-up row of the sweep |
| PaymentService.Service.ReconcileWithdrawalRow | app_base/modules/payment/application/services.py:564-611 | One withdrawal row of the sweep, including the exceptions that escape it; its meaning is `PayoutOutcomes.SweepPayoutMeans` |
| PaymentService.Service.ReconcileRows | app_base/modules/payment/application/services.py:522-543 | A sweep loop: tables and report are those of the rows done so far, or it stopped where the specification stops |
| PaymentService.Service.ReconcilePending | app_base/modules/payment/application/services.py:499-544 | Payments, then top-ups, then withdrawals, into one report |
| PaymentService.Service.RunReconciliationOnce | app_base/modules/payment/application/reconciliation.py:48-69 | The scheduled sweep commits whole or leaves every table as before |
| PaymentSession.Backend.Serve | app_base/core/database.py:70-103 | Any request with its session: the tables become those of its outcome, or exactly the old ones if it raises; every law of the books is kept |
| PaymentSession.Backend.ServeAll | app_base/core/database.py:70-103 | Serving requests one by one is a run, so every theorem about runs holds of these tables |
| PaymentSession.Backend.RequestAndPay | app_base/modules/payment/application/wallet_service.py:286-375 | A withdrawal request over its two commits: refused before the reservation it changes nothing, an unavailable provider leaves the amount reserved, a refused payout restores every total |
| WalletService.Wallets.RequestTopup | app_base/modules/payment/application/wallet_service.py:145-224 | A top-up request, credited at once when the provider already says succeeded; one row and at most one line more, or nothing changed |
| WalletService.Wallets.RequestQuote | app_base/modules/payment/application/wallet_service.py:226-266 | A withdrawal quote equals the specified outcome, whose terms are `WithdrawalTerms.QuoteGrantedExactlyWhen`; no balance moves either way, and a failure leaves at most an empty wallet row |
| WalletService.Wallets.ReserveForRequest | app_base/modules/payment/application/wallet_service.py:286-339 | A withdrawal request up to its commit, replays included; a failure leaves at most an empty wallet row |
| WalletService.Wallets.ApplyProviderPayload | app_base/modules/payment/application/wallet_service.py:502-519 | The payout answer compared field by field, then applied as `PayoutOutcomes.PayoutAnswerMeans` says; a failure changes nothing when the driver has a wallet row |
| WalletService.Wallets.AnswerPayout | app_base/modules/payment/application/wallet_service.py:341-375 | After the commit: a refused payout releases the money, an unavailable provider changes nothing |
| PaymentService.Service.CollectCash | app_base/modules/payment/application/services.py:206-261 | Cash confirmed, stored and settled as `RideOutcomes.CashCharges` says, or nothing changed |
| PaymentService.Service.PrepareDiddiPayFor | app_base/modules/payment/application/services.py:835-958 | Preparing a digital payment: new, pending, retried or refused; log, wallets and withdrawals never change, and a failure changes nothing |
| OutboxProtocol.SynchronisedMeansAgreed | app_base/modules/ride/application/capability_projection.py:60-107 | Under loss, repeats, reordering, retries, refresh and crashes before the commit: a user marked succeeded means the receiver holds exactly the desired content at the newest version |
| OutboxProtocol.StructureAlwaysKept | app_base/modules/ride/infra/capability_projection_repository.py:28-82 | In every run versions are exactly 1..projection_version, neighbours differ in content, and the state mirrors the newest row's content and status |
| OutboxProtocol.ParkedForever | app_base/modules/ride/infra/capability_projection_repository.py:139-199 | A conflict or dead-letter row never changes again and is never due, refresh included |
| OutboxProtocol.OneDeliverySuffices | app_base/modules/ride/application/capability_projection.py:60-107 | From any reachable world one send, one accepted delivery and its report synchronise a waiting user |
| OutboxProtocol.AlwaysLinked | app_base/modules/ride/infra/capability_projection_repository.py:100-115 | In every run the receiver never runs ahead of the outbox and every succeeded row was acknowledged |
| Outbox.OlderReportsAreSilent | app_base/modules/ride/infra/capability_projection_repository.py:100-165 | A report about an event that is not the latest leaves the user's state alone |
| Outbox.NewVersionIsFree | app_base/modules/ride/infra/capability_projection_repository.py:56-70 | A new version never collides with a stored row |
| Outbox.RefreshSparesParked | app_base/modules/ride/infra/capability_projection_repository.py:167-199 | Only synchronised users are stale, so refreshing never revives a parked row |
| Outbox.BackoffGrows | app_base/modules/ride/application/capability_projection.py:74-84 | Waiting times start at the base, never shrink, never exceed the maximum and stop growing after eight attempts |
| Outbox.EnqueueIsIdempotent | app_base/modules/ride/infra/capability_projection_repository.py:48-54 | Enqueueing what is already desired changes nothing, at any later time |
| Outbox.DelayDoubles | app_base/modules/ride/application/capability_projection.py:74-84 | The waiting time is the base, doubles with each failure up to the maximum, and stays after the eighth |
| Outbox.NewEventIsDue | app_base/modules/ride/infra/capability_projection_repository.py:56-82 | A new event is due at once, untried, with the content asked for, and is the latest |
| Outbox.RepliesMean | app_base/modules/ride/infra/capability_projection_repository.py:100-165 | Every reply counts as an attempt: delivered, parked as conflict or dead letter, or waiting for its time; no other row moves |
| Outbox.RefreshedIsDue | app_base/modules/ride/infra/capability_projection_repository.py:182-196 | A refreshed event is pending and due at once |
| Outbox.StaleExactlyWhen | app_base/modules/ride/infra/capability_projection_repository.py:167-180 | A user is stale right after a report iff it was a delivery no later than the cut-off |
| Outbox.AllStaleAreRefreshed | app_base/modules/ride/infra/capability_projection_repository.py:181-199 | Refreshing known users counts every one and makes each newest event due |
| Outbox.DedupLaws | app_base/modules/ride/infra/capability_projection_repository.py:48 | Normalised actions are exactly those asked for, once each |
| Outbox.DedupKeepsOrder | app_base/modules/ride/infra/capability_projection_repository.py:48 | Normalised actions keep their order of first mention |
| CapabilityProjection.Repository.EnqueueProjection | app_base/modules/ride/infra/capability_projection_repository.py:28-83 | In place: deduplicated enqueue, next version, state updated; `None` iff already desired |
| CapabilityProjection.Repository.MarkSucceeded | app_base/modules/ride/infra/capability_projection_repository.py:100-115 | In place: the row, and the state only when it is the latest event |
| CapabilityProjection.Repository.MarkRetry | app_base/modules/ride/infra/capability_projection_repository.py:117-137 | In place: attempts, next attempt time and error; the state only for the latest event |
| CapabilityProjection.Repository.Park | app_base/modules/ride/infra/capability_projection_repository.py:139-165 | In place: conflict and dead letter |
| CapabilityProjection.Repository.ScheduleStaleRefresh | app_base/modules/ride/infra/capability_projection_repository.py:167-199 | In place: stale rows pending again, counted |
| CapabilityProjection.DeliverDue | app_base/modules/ride/application/capability_projection.py:60-107 | The delivery loop reports every listed event by its own reply; an exception other than the client's own escapes it |
| CapabilityProjection.DeliverInSession | app_base/modules/ride/application/capability_projection_worker.py:32-55 | The worker's pass commits all its marks, or none if an exception escaped |
| CapabilityProjection.PassTouchesBatchOnce | app_base/modules/ride/application/capability_projection.py:60-107 | A pass reports each listed row exactly once and touches no other |
| CapabilityProjection.PassLeavesNothingDue | app_base/modules/ride/application/capability_projection.py:74-84 | With a positive backoff nothing a pass listed is due at its end |
| CapabilityProjection.Reconcile | app_base/modules/ride/application/capability_projection.py:109-142 | The reconciliation loop with its two counters |
| CapabilityProjection.ReconciliationSetsDesired | app_base/modules/ride/application/capability_projection.py:109-142 | After reconciling distinct drivers each one's desired projection is its computed status |
| CapabilityProjection.ReconciliationSettles | app_base/modules/ride/application/capability_projection.py:109-142 | Reconciling the same drivers again enqueues nothing |
| CapabilityProjection.PublisherAndReconciliationAgree | app_base/modules/ride/application/capability_projection.py:145-160 | The two derivations of a driver's status agree iff the profile decides, an active vehicle exists, or there is no vehicle at all |
| CapabilityProjection.StatusesMean | app_base/modules/ride/application/driver_service.py:1078-1094 | The published status by precedence: rejected dossier, waiting or suspended profile, no vehicle, the vehicle's review, and only then offline |
| CapabilityProjection.ReconciliationReadsNewest | app_base/modules/ride/infra/capability_projection_repository.py:201-233 | The reconciliation derives what the publisher would for the active vehicle, or for the newest where none is active |
| CapabilityProjection.OnlineOfferedExactlyWhen | app_base/modules/ride/application/driver_service.py:1078-1094 | A driver is offered to go online iff dossier and profile are in order and the vehicle is approved and active |
| CapabilityProjection.OnlineDriversStayOnline | app_base/modules/ride/application/capability_projection.py:109-142 | After a reconciliation a driver computed offline is projected online iff present; any other status as computed |
| CapabilityProjection.EnqueuedIsCounted | app_base/modules/ride/application/capability_projection.py:109-142 | The reconciliation reports exactly the number of events it added |
| Ranking.RankByEta | app_base/modules/ride/application/matching_service.py:483-543 | The ranking loops compute the ranking, whose order is `Ranking.RankOrderExactly` with untimed drivers last |
| Ranking.RankPermutes | app_base/modules/ride/application/matching_service.py:483-543 | The ranking is a permutation of the shortlist |
| Ranking.RankShape | app_base/modules/ride/application/matching_service.py:515-543 | Timed drivers first, in the strict order that `Ranking.RankOrderExactly` spells out; the rest in distance order |
| Ranking.RankOrderExactly | app_base/modules/ride/application/matching_service.py:515-569 | In plain arithmetic, for two timed drivers in the ranking: one stands ahead iff its ETA less min(points × seconds, cap) is smaller, or equal and it is nearer |
| Ranking.PointsOvertake | app_base/modules/ride/application/matching_service.py:530-534 | A rated driver overtakes an unrated one who is ahead by less than the capped rating |
| Ranking.NegativePointsCost | app_base/modules/ride/domain/priority.py:94-101 | A negative rating costs all its seconds, uncapped |
| Ranking.DistanceOrderStands | app_base/modules/ride/application/matching_service.py:483-528 | Without ranking or without a single ETA the distance order stands |
| Ranking.CapKeepsProximity | app_base/modules/ride/application/matching_service.py:530-569 | A timed driver with no score or a non-negative one is never behind a driver whose ETA is more than the cap longer |
| Ranking.MorePointsNeverHurt | app_base/modules/ride/domain/priority.py:94-101 | Raising one driver's points never moves that driver back |
| OfferWaves.SelectCandidates | app_base/modules/ride/application/matching_service.py:383-481 | The candidate loop equals: nearest untried eligible drivers up to the shortlist, ranked, cut to a wave |
| OfferWaves.WaveIsNew | app_base/modules/ride/application/matching_service.py:383-481 | A wave has no repeats, fits the size, holds only nearby, eligible, never-tried drivers, and is empty only when there are none |
| OfferWaves.SearchTerminates | app_base/modules/ride/application/matching_service.py:146-179 | Over a ride's whole search waves are disjoint and non-empty, so there are at most as many as drivers ever nearby; the radius never shrinks nor exceeds its maximum |
| OfferWaves.AttemptsProgress | app_base/modules/ride/application/matching_service.py:146-179 | Each attempt on an idle search either ends it or strictly enlarges the tried-set by the new wave |
| OfferWaves.RadiusWidens | app_base/modules/ride/application/matching_service.py:389-398 | After k waves' worth of tried drivers the radius is k steps wider, up to the maximum |
| OfferWaves.ShortlistIsNearest | app_base/modules/ride/application/matching_service.py:435-466 | The shortlist is the nearest willing drivers, as many as fit |
| OfferWaves.WaveIsFrontOfRanking | app_base/modules/ride/application/matching_service.py:435-469 | A wave is the front of the ranking of that shortlist, whose size is the larger of wave and shortlist |
| OfferWaves.AttemptsEndExactlyWhen | app_base/modules/ride/application/matching_service.py:111-179 | An attempt on an idle search gives up iff over budget, over the commission limit or without a willing driver; otherwise it opens exactly the next wave |
| OfferWaves.DeclinesMean | app_base/modules/ride/application/matching_service.py:294-322 | A stranger's decline changes nothing, a holder's takes only that driver out, the last one moves the search on |
| OfferWaves.ExpiredSearchGoesOn | app_base/modules/ride/application/matching_service.py:324-349 | An unanswered wave ends the search for one of those reasons or opens a wave of drivers never offered the ride; an active wave stays |
| OfferWaves.OnlyHoldersMatch | app_base/modules/ride/application/matching_service.py:181-292 | In every run an accept matches iff the driver holds an offer of the newest wave, and then closes it; any other changes nothing |
| OfferWaves.MatchingService.TryMatchRide | app_base/modules/ride/application/matching_service.py:87-179 | In place: give up, keep the active wave, or open the next one; the answer says who holds it, whether it is news and whether the search ended |
| OfferWaves.MatchingService.Decline | app_base/modules/ride/application/matching_service.py:294-322 | In place: refused to a stranger; a holder leaves the wave; the last one advances the search |
| OfferWaves.MatchingService.AdvanceExpiredOffer | app_base/modules/ride/application/matching_service.py:324-349 | In place: only an expired wave of a requested ride advances |
| AcceptProtocol.AcceptsBoundedByClears | app_base/modules/ride/application/matching_service.py:181-292 | For every interleaving of accept requests, crashes included: successful accepts ≤ 1 + clears of the offer store |
| AcceptProtocol.AcceptsReachExactlyCapacity | app_base/modules/ride/application/matching_service.py:181-292 | From any state at all, continuations without a clear reach exactly the numbers of successful accepts up to its capacity: wins, holders, and one per free or releasable claim that a request can still fill |
| AcceptProtocol.SecondAcceptExactlyWhen | app_base/modules/ride/infra/offer_store.py:139-145 | A first clear lets some continuation reach a second accept iff there is a winner and a request before its claim, or an owner while the ride is requested, or a holder and a request before its claim, or a releasing request and two before their claim |
| AcceptProtocol.OneAcceptExactlyWhenClearsAreHarmless | app_base/modules/ride/application/matching_service.py:351-365 | Over a ride's whole life with any number of clears: no moment can be continued into a second accept iff each clear left a capacity of at most one |
| AcceptProtocol.StaleAcceptAfterClear | app_base/modules/ride/infra/offer_store.py:139-145 | An instance: a request past its checks before a clear wins after it |
| AcceptProtocol.OneAcceptWhenClearsAreQuiet | app_base/modules/ride/application/matching_service.py:597-604 | A simple sufficient case: clears only after the ride left REQUESTED and with no request between its read and its claim leave at most one accept |
| AcceptProtocol.WithdrawnRideMatchedExactlyWhen | app_base/modules/ride/infra/repositories.py:94-102 | A withdrawn ride can still be matched iff some request holds the claim, or one loaded the ride before and the claim is free or about to be released: the save overwrites the withdrawal |
| AcceptProtocol.WinnerIsTheClaimant | app_base/modules/ride/application/matching_service.py:227-262 | Undisturbed: the ride is matched iff an accept succeeded, and to the driver holding the claim |
| AcceptProtocol.WinnersWereOffered | app_base/modules/ride/application/matching_service.py:187-226 | In every interleaving whoever wins read the ride as requested, then held an offer and was suitable |
| AcceptProtocol.FailedSaveLeavesRideClaimable | app_base/modules/ride/application/matching_service.py:234-262 | While one request owns the claim others are refused; if its save fails the ride stays requested and any other checked request can win |
| AcceptProtocol.MatchingService.Accept | app_base/modules/ride/application/matching_service.py:181-292 | In place, every refusal in order: accepted iff requested, held, suitable, unclaimed and saved; otherwise nothing changed |
| RideLifecycle.Ride.Transition | app_base/modules/ride/domain/entities.py:244-297 | In place: no-op, refusal without change, or status, first-visit timestamps, fare and history |
| RideLifecycle.HistoryExplainsRide | app_base/modules/ride/domain/entities.py:33-72 | After any attempts the history is a connected allowed path from REQUESTED to the status, timestamps are its first visits, and only in progress and waiting are entered twice |
| RideLifecycle.MovesExactly | app_base/modules/ride/domain/entities.py:33-72 | A transition is taken iff it is the current status, the next step forward, a cancellation of an active ride by passenger or driver, or no driver found for a requested one |
| RideLifecycle.CompletedRidesAreDated | app_base/modules/ride/domain/entities.py:269-288 | Completed rides have matched ≤ arrived ≤ started ≤ completed all set and the estimated fare as final; cancellation time set iff cancelled |
| RideLifecycle.ActiveRidesCanComplete | app_base/modules/ride/domain/entities.py:233-242 | A ride is active iff it can still be completed; otherwise nothing moves it |
| RideLifecycle.RunExtendsHistory | app_base/modules/ride/domain/entities.py:289-297 | The history only grows |
| DossierReview.ApplyDocumentDecisions | app_base/modules/ride/application/driver_service.py:1259-1295 | The decision loop with its early errors |
| DossierReview.MarkResubmittedDocumentsPending | app_base/modules/ride/application/driver_service.py:1313-1326 | The resubmission loop |
| DossierReview.DecisionsTakenWhole | app_base/modules/ride/application/driver_service.py:1259-1295 | A list succeeds iff every document is known and decided once; then exactly those documents change and the log grows by exactly those decisions |
| DossierReview.ResubmittedArePending | app_base/modules/ride/application/driver_service.py:1313-1326 | Exactly the submitted documents await review again |
| DossierReview.ApprovalSucceedsExactlyWhen | app_base/modules/ride/application/driver_service.py:214-239 | An explicit list approves iff papers are complete, the list is well formed and each required document is approved by it or already was and is left alone |
| DossierReview.DefaultApprovalSucceeds | app_base/modules/ride/application/driver_service.py:225-239 | Approving without a list always succeeds on complete papers |
| DossierReview.RejectionIsFollowed | app_base/modules/ride/application/driver_service.py:1224-1256 | A rejection that passes leaves every document it refuses rejected |
| Dossiers.ProfilesFollowTheirReviews | app_base/modules/ride/application/driver_service.py:132-291 | After any run: current reviews are the last log entries; ACTIVE iff KYC APPROVED, and then all five documents are on file and approved; a verification date iff approved; REJECTED names a rejected document |
| Dossiers.VehiclesFollowTheirReviews | app_base/modules/ride/application/driver_service.py:460-615 | After any run: current reviews are the last log entries; an ACTIVE vehicle has every required document on file and approved, and a verification date iff ACTIVE; REJECTED names a rejected required document |
| Dossiers.ResubmissionReopensWhatItBrings | app_base/modules/ride/application/driver_service.py:184-203 | A resubmission reopens exactly the documents it brings, in any order of walking them; the others keep their reviews |
| DossierOutcomes.SubmissionsAreFiled | app_base/modules/ride/application/driver_service.py:100-200 | After a creation or resubmission a file id is on file iff it was or is sent; a url iff it is sent non-blank, or not sent and was on file |
| DossierOutcomes.ResubmissionRefusedExactlyWhen | app_base/modules/ride/application/driver_service.py:153-160 | Only a blank licence number refuses a resubmission |
| DossierOutcomes.ReviewsKeepPapers | app_base/modules/ride/application/driver_service.py:214-291 | Approvals, rejections and reassignments leave the papers alone |
| DossierOutcomes.CompleteProfileIsApproved | app_base/modules/ride/application/driver_service.py:100-254 | End to end: a new profile with all five documents, approved without a list, is active with each document approved |
| DossierOutcomes.CompleteVehicleIsApproved | app_base/modules/ride/application/driver_service.py:535-569 | End to end: a new vehicle with its nine required documents, approved without a list, is active |
| DossierOutcomes.CorrectedDossiersAreApproved | app_base/modules/ride/application/driver_service.py:132-254 | From any dossier: bringing every required document, then an approval without a list, makes profile and vehicle active |
| DossierOutcomes.RejectionTakenExactlyWhen | app_base/modules/ride/application/driver_service.py:1224-1256 | A rejection is taken iff its documents are known and decided once, it refuses at least one, and each refusal has code, reason and correction |
| DossierOutcomes.RejectionIsRecorded | app_base/modules/ride/application/driver_service.py:256-291 | A rejected profile is pending and unverified, with exactly those documents reviewed, logged with their details, reviewer and time |
| DossierOutcomes.VehicleRejectionIsRecorded | app_base/modules/ride/application/driver_service.py:571-615 | A rejected vehicle: the same, its status lost iff a required document stands rejected |
| DossierOutcomes.ResubmissionIsRecorded | app_base/modules/ride/application/driver_service.py:1313-1326 | A resubmitted document waits without details or date, and the log says when it came |
| DossierOutcomes.ReassignmentReopensRejected | app_base/modules/partner/infra/repositories.py:174-187 | A vehicle that changes hands stays active if it was and otherwise waits for review, even after a rejection |
| Dossiers.OptionalRefusalKeepsVehicleActive | app_base/modules/ride/application/driver_service.py:589-605 | An active vehicle stays active through a rejection iff only the transport authorization is rejected |
| Dossiers.VehicleLogOnlyGrows | app_base/modules/ride/application/driver_service.py:1295 | The vehicle's review log is never rewritten |
| Dossiers.ProfileLogOnlyGrows | app_base/modules/ride/application/driver_service.py:1295 | The profile's review log is never rewritten |
| Dossiers.ProfileRow.ApproveKyc | app_base/modules/ride/application/driver_service.py:214-254 | In place: approval, or an error that leaves the row as it was |
| Dossiers.ProfileRow.RejectKyc | app_base/modules/ride/application/driver_service.py:256-291 | In place: rejection, or an error that leaves the row as it was |
| Dossiers.ProfileRow.ResubmitKyc | app_base/modules/ride/application/driver_service.py:132-212 | In place: papers merged as `DossierOutcomes.SubmissionsAreFiled` says, submitted documents pending, profile pending |
| Dossiers.VehicleRow.ApproveKyv | app_base/modules/ride/application/driver_service.py:535-569 | In place: vehicle approval |
| Dossiers.VehicleRow.RejectKyv | app_base/modules/ride/application/driver_service.py:571-615 | In place: vehicle rejection, status only lost on a required document |
| Dossiers.VehicleRow.ResubmitKyv | app_base/modules/ride/application/driver_service.py:460-533 | In place: papers merged the same way, submitted documents pending, vehicle pending |
| CommandProtocol.CommitsBoundedByFaults | app_base/modules/partner/presentation/internal_router.py:67-90 | For every interleaving of callers on one key, crashes included: commits ≤ 1 + expiries + failed stores |
| CommandProtocol.CommitsReachExactlyCapacity | app_base/modules/partner/presentation/internal_router.py:67-90 | From any state at all, fault-free continuations reach exactly the numbers of commits up to its capacity: commits made, owners of the key, and a free key |
| CommandProtocol.SecondCommitExactlyWhen | app_base/core/s2s_command_store.py:29-56 | A first fault lets some fault-free continuation commit twice iff it is a failed store by a caller that has committed, or an expiry after a commit or while a caller owns the key |
| CommandProtocol.OneCommitExactlyWhenFaultsAreHarmless | app_base/modules/partner/presentation/internal_router.py:67-90 | Over a key's whole life with any faults: no moment can be continued into a second commit iff each fault left a capacity of at most one |
| CommandProtocol.FailedStoreCommitsTwice | app_base/modules/partner/presentation/internal_router.py:87-90 | An instance: the response could not be stored after the commit, the key is released and a retry commits again |
| CommandProtocol.AnswersAreHonest | app_base/core/s2s_command_store.py:29-46 | Without faults: a response given is the one committed for that payload; whoever got a conflict, a wait or an error committed nothing |
| CommandProtocol.StoredResponseIsFinal | app_base/core/s2s_command_store.py:36-46 | Without faults: once stored, no one commits again, matching callers get that response and others a conflict |
| CommandProtocol.AbandonedKeyStaysPending | app_base/core/s2s_command_store.py:36-46 | A reservation whose caller crashed blocks the key: until expiry nothing commits and callers wait or conflict |
| CommandProtocol.CommandThenRetry | app_base/modules/partner/presentation/internal_router.py:67-102 | A command commits once; a retry with its payload gets the stored response, another payload a conflict, neither commits; a failed command frees the key |
| CommandProtocol.CommandStore.Reserve | app_base/core/s2s_command_store.py:29-46 | In place: reserved, replayed, conflicting or in progress |
| CommandProtocol.CommandStore.Write | app_base/modules/partner/presentation/internal_router.py:67-102 | The sequence reserve, run, commit, complete or release equals the protocol's steps without interleaving |

## Left out

- HTTP routing, request schemas, authentication, signatures and headers, logging, metrics, push and mail.
- SQL and Redis themselves: tables and keys are maps and sequences with their unique constraints.
- PaymentRuns.ActKeepsSound: a run makes each whole request one step, so its requests do not overlap. What
  overlap does to the money laws is `PaymentCalls`, where each repository call is one step, and to the
  payment of one ride `PaymentRaces`; the other theorems on runs are for requests that do not overlap.
- PaymentCalls.MoneyLawsBetweenCalls: `record_ledger_entry_once` reads the wallet without a row lock, so
  races inside one repository call are not modelled, and a request that raises contributes no call.
- Expiry of the tried-set and of the claim; expiry of an offer wave and of a command key are steps.
- Which rows a sweep or a delivery pass selects: the lists are inputs, in any order and with repeats;
  `DueBatch` states what the outbox query may return.
- The withdrawal OTP and its attempt counter: verification is a yes/no input.
- Currency and description columns of the log, failure codes and messages, idempotency keys of payments,
  e-mail addresses, return links and payment methods other than cash and mobile money.
- Coordinates, routing and the ETA client: positions and durations are inputs of a wave.
- Why a driver can or cannot take a ride (`_can_take_ride`), the search budget clock and the commission
  threshold: inputs of a wave.
- Passenger debts, earnings summaries, partner management, scoring, pricing, payload builders: they move
  none of the state modelled here.
- Administrative suspension of drivers and vehicles, the vehicle's `active` flag, plate and licence
  details: nothing in the review operations reads them.
- The order in which a set of document types is walked is an input (`order`).
- Request fingerprints are injective; the partner routes pass no payload, so at-most-once is stated per
  fingerprint and not per request body.
- A database commit that succeeds but reports an error to its caller.
- AcceptProtocol.Save: flush and commit of the accepted ride are one step, so a commit that fails after
  the offers were closed is not modelled.
- CommandProtocol.CommandStore.Complete: a Redis write that takes effect although the caller sees an error
  counts as a failed store.
- CapabilityProjection.Repository.MarkRetry: the cut of the error text to 2000 characters, and the
  state's own last attempt and next refresh times, which no decision reads.
- OfferWaves.MatchingService.TryMatchRide: one attempt is one atomic step; two attempts racing on the same
  ride are not modelled.
