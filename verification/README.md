# Competition economy of Fantasy12

A Dafny model of the services that move coins, scores and benefits in Fantasy12, with proofs of
what they guarantee together. Each service is a method over a class that holds the tables it writes
(`MoneyDb`, `GameDb`); its contract equates the new tables with a step function of the old ones, and
the lemmas are about those functions, single steps and whole runs of them.

- **Mesa money machine** (`MoneyTables`, `MesaIntegrity`, `MesaEntry`, `MesaClose`): creation, entry by
  join, review or invite, the integrity gate, the frozen ranking, settlement and the sweep over
  expired Mesas. `BolaoPrize` and `RankingTiebreak` hold the payout and ranking algorithms;
  `PrizeFairness` and `TieGroups` say what they are worth. `MesaInvariant`, `MesaSettlement`,
  `MoneyRuns`, `MoneyGuarantees` and `SmallMesas` carry the invariants over all runs: wallets equal
  their ledger, the gate never blocks, coins are conserved, nobody is paid twice, closed Mesas are final.
- **Score ledger** (`TicketScore`, `GameTables`, `Rounds`, `ScoreRound`, `Recompute`): scoring, the
  rebuild, and the two readings of a stretch of time, by subtraction (`RankingWindowScore`) and by
  summation (`PeriodRanking`). `ScoreLedger`, `GameInvariant`, `Columns`, `HitLedger` and `GameRuns` show
  that these agree, `LateRounds` and `StrayRows` where they do not, and `FrozenScores` what a close makes
  of it.
- **Consumables and entitlements** (`Benefits`, `BenefitRuns`, `Payments`, `SubscriptionRuns`, `Calendar`):
  multipliers granted, bought, spent and expired; payments applied once; subscription months.
  `PurchaseRuns` joins the runs of money and game: every unit bought is one debit, and the reverse.
- **Time and concurrency** (`SaoPauloPeriod`, `Interleaving`).

Modelling choices. Amounts, scores and instants are unbounded integers; the shares of a pool, which
the program computes in floating point, are exact rationals. A user is named by the rank of its id
in the order `localeCompare` gives. Rows of a table are kept in creation order, which stands for
`createdAt`; a round is named by its index, its number is the index plus one. A transaction is one
step that commits whole or changes nothing; the constraints of the database (unique keys, positive
ledger amounts, foreign keys) hold as given. Clocks, the fetched payment, fresh identifiers and the
set of PRO users at an opening are parameters.

What the code does otherwise than one might expect:

- A payout can be zero coins. Settlement still writes its ledger row, the table refuses amounts that
  are not positive, and the whole close rolls back. `MesaSettlement.CloseCommitsExactly` says exactly
  when a Mesa closes; `SmallMesas` reaches two that never do.
- Hit columns continue the row of the highest round, so scoring rounds out of number order can break
  them (`GameRuns.RunHitsExactly` says when, `LateRounds.LateHitIsLost` shows it). Window scores are
  right exactly when as much is misplaced at the end as before the start
  (`RankingWindowScore.WindowScoreExactly`, `LateRounds.OutOfOrderMisreads`). Score totals need no order.
- The rebuild returns early without a SCORED round and keeps rows of rounds that are not SCORED
  (`Recompute.RecomputeRepairsExactly`, `StrayRows.StrayRowIsKept`). No service leaves such a row
  (`GameRuns.RoundsStaySound`); it takes data written by hand, as when a SCORED round is set back to
  CLOSED, or a writer past the scoring service such as the repository method no service calls
  (src/repositories/user-score-history.repository.ts:14-21).
- Month addition keeps the order of days but not of instants (`Calendar.AddMonthsMonotoneExactly`),
  and clamping makes it drift (`AddMonthsTwice`).
- A window includes its end and a period does not (`PeriodRanking.PeriodAgreesWithWindow`,
  `LateRounds.EndIsReadOnce`).
- A close that is forced before the end, or comes at the very end, freezes the live total: a round
  whose closing time lies after the window counts if it is scored by then
  (`FrozenScores.FrozenLiveExactly`).
- A paid renewal cuts a subscription without an end, which the services of the provider may write
  (src/services/subscription/process-mp-subscription-updated.service.ts:101-103), to the months bought; any
  other access it keeps (`Payments.RenewalKeepsAccess`, `Payments.EndlessIsCut`).
- An admin debit of units is not guarded by the update itself; the table refuses a negative quantity
  (prisma/migrations/20260730000000_fantasy12_baseline_v2/migration.sql:832-834), which has the same effect.

## Model

| member | source | states |
|---|---|---|
| `BolaoPrize.ValidateDistribution` | src/services/bolao/bolao-prize.service.ts:18-42 | accepts exactly the non-empty distributions with positions 1, 2, 3, ... and positive percentages that add up to 100, and returns them unchanged |
| `BolaoPrize.CalculatePool` | src/services/bolao/bolao-prize.service.ts:48-55 | fee and prize add up to the amount collected, the fee is a tenth rounded down, and a positive amount leaves a positive prize |
| `BolaoPrize.GroupByPosition` | src/services/bolao/bolao-prize.service.ts:71-76 | the loop over a map yields the distinct positions in order of first appearance and, for each, exactly its rows in row order |
| `BolaoPrize.WeighGroup` | src/services/bolao/bolao-prize.service.ts:82-96 | a group of tied rows shares the percentages of the positions it occupies equally, or adds nothing where they carry none; the running total stays the sum of the weights |
| `BolaoPrize.WeighRows` | src/services/bolao/bolao-prize.service.ts:71-96 | the nested loops compute the weighted rows of all tie groups and the sum of their weights |
| `BolaoPrize.SortByRemainder` | src/services/bolao/bolao-prize.service.ts:107-109 | the remainder order holds the same row objects, sorted by larger remainder and then earlier order |
| `BolaoPrize.LeftoverBelowRows` | src/services/bolao/bolao-prize.service.ts:100-106 | flooring the exact shares of a pool leaves at least 0 and fewer coins than there are paid rows |
| `BolaoPrize.HandOut` | src/services/bolao/bolao-prize.service.ts:110-113 | the loop, whose modular index never wraps, gives one coin to each of the first rows of the order, seen through the allocated list that holds the same objects |
| `BolaoPrize.ServedAmounts` | src/services/bolao/bolao-prize.service.ts:110-113 | serving the first k rows of an order raises the total by k and each of them by exactly one coin |
| `BolaoPrize.ServedInOrder` | src/services/bolao/bolao-prize.service.ts:100-113 | coins served in remainder order on top of the floors make a largest-remainder payout of the pool |
| `BolaoPrize.CalculatePayouts` | src/services/bolao/bolao-prize.service.ts:57-120 | for every pool, valid distribution and rows the payouts are those of the largest-remainder rule: the whole pool, each the floor of its exact share or one more, extras by remainder and then order; empty where nothing is paid |
| `PrizeFairness.PayoutUnique` | src/services/bolao/bolao-prize.service.ts:98-119 | the rule leaves no choice: two payouts that obey it are equal |
| `PrizeFairness.PayoutExists` | src/services/bolao/bolao-prize.service.ts:106-113 | for every leftover up to the number of rows a payout obeying the rule exists |
| `PrizeFairness.SamePayout` | src/services/bolao/bolao-prize.service.ts:57-120 | any two lists the payout specification allows are the same list |
| `PrizeFairness.Payouts` | src/services/bolao/bolao-prize.service.ts:57-120 | the payouts as a function of pool, distribution and rows, meeting the specification of the method |
| `PrizeFairness.HeavierNeverPaidLess` | src/services/bolao/bolao-prize.service.ts:100-113 | a larger exact share is never paid less; of two equal shares the earlier gets the same or exactly one coin more |
| `PrizeFairness.ExtraGoesToLargerRemainder` | src/services/bolao/bolao-prize.service.ts:107-113 | a row without an extra coin never has the larger remainder than a row with one, and on equal remainders stands after it |
| `PrizeFairness.SeparatorExists` | src/services/bolao/bolao-prize.service.ts:107-113 | some price separates the cost of every extra coin given from every one withheld |
| `PrizeFairness.PayoutMinimisesDeviation` | src/services/bolao/bolao-prize.service.ts:98-119 | no other whole-coin split of the same pool has a smaller total absolute deviation from the exact shares |
| `PrizeFairness.SmallPoolLeavesZero` | src/services/bolao/bolao-prize.service.ts:98-119 | a pool with fewer coins than paid rows leaves some row with nothing |
| `RankingTiebreak.CompareIsTotalOrder` | src/services/ranking/ranking-tiebreak.service.ts:17-49 | the comparator is a strict total order on distinct users that refines the four official keys, and rows tie officially exactly when neither is better |
| `RankingTiebreak.Rank` | src/services/ranking/ranking-tiebreak.service.ts:51-73 | sorting a copy and walking it yields the specified ranking |
| `RankingTiebreak.SortRowsSorts` | src/services/ranking/ranking-tiebreak.service.ts:55-57 | the listing is sorted by the comparator and is a permutation of the rows |
| `RankingTiebreak.PositionSplits` | src/services/ranking/ranking-tiebreak.service.ts:59-72 | in a sorted list exactly the rows before the position of a row are better than it |
| `RankingTiebreak.RankPosition` | src/services/ranking/ranking-tiebreak.service.ts:51-73 | every position is one plus the number of rows strictly better on the four official keys |
| `RankingTiebreak.RankOrderIndependent` | src/services/ranking/ranking-tiebreak.service.ts:51-73 | for distinct users the ranking does not depend on the order the rows are read in |
| `TieGroups.RankGivesStandings` | src/services/ranking/ranking-tiebreak.service.ts:59-72 | ranked rows share the position before them or take their own place |
| `TieGroups.GroupsTile` | src/services/bolao/bolao-prize.service.ts:71-88 | the positions occupied by the tie groups of a ranking are consecutive intervals that cover 1 to the number of rows |
| `TieGroups.TotalWeight` | src/services/bolao/bolao-prize.service.ts:79-96 | the total weight is the sum of the percentages of the positions 1 to the number of rows |
| `TieGroups.FullPodium` | src/services/bolao/bolao-prize.service.ts:37-39 | a podium at least as long as the distribution gives out all 100% |
| `TieGroups.GroupWeight` | src/services/bolao/bolao-prize.service.ts:83-95 | the members of a tie group together weigh exactly the percentages of the positions they occupy |
| `TieGroups.PaidFromTheTop` | src/services/bolao/bolao-prize.service.ts:82-96 | payouts go to the top of the ranking in ranking order, and the leader is always among them |
| `TieGroups.PaidRowsAtLeast` | src/services/bolao/bolao-prize.service.ts:82-96 | every ranked row that has a band is paid out of the pool, row by row from the top |
| `TieGroups.GroupsNonIncreasing` | src/services/bolao/bolao-prize.service.ts:82-96 | with non-increasing percentages the weights do not increase down the ranking, ties included |
| `TieGroups.BetterPositionEarnsNoLess` | src/services/bolao/bolao-prize.service.ts:57-120 | with non-increasing percentages nobody is paid less than a row ranked below |
| `MesaIntegrity.ValidateTerms` | src/services/bolao/mesa-category-rules.ts:28-58 | accepted terms have a positive limit, and a positive cost without sponsor pool if paid, no cost and a positive pool if sponsored |
| `MesaIntegrity.CountParticipants` | src/services/bolao/mesa-integrity.service.ts:142-155 | one pass counts the approved, the approved who are not paid in full, and the total of those who are |
| `MesaIntegrity.CheckTerms` | src/services/bolao/mesa-integrity.service.ts:53-83 | raises exactly the cost and sponsor issues whose condition holds |
| `MesaIntegrity.CheckSeats` | src/services/bolao/mesa-integrity.service.ts:85-115 | raises exactly the limit, count and capacity issues whose condition holds |
| `MesaIntegrity.CheckForm` | src/services/bolao/mesa-integrity.service.ts:117-140 | raises exactly the mismatch, rules and distribution issues whose condition holds |
| `MesaIntegrity.CheckMoney` | src/services/bolao/mesa-integrity.service.ts:142-173 | raises exactly the payment, gross and prize-total issues whose condition holds |
| `MesaIntegrity.Inspect` | src/services/bolao/mesa-integrity.service.ts:46-175 | the collected issues are exactly the issues whose condition holds |
| `MesaIntegrity.ReadyMeansNoIssue` | src/services/bolao/mesa-integrity.service.ts:177-180 | the gate lets a Mesa settle exactly when terms, seats, form and money agree, stated condition by condition |
| `MesaIntegrity.AssertSettlementReady` | src/services/bolao/mesa-integrity.service.ts:177-180 | the gate passes exactly when no issue is raised, and then the distribution is valid |
| `MesaIntegrity.TrimEndHasText` | src/services/bolao/mesa-prize-rules.ts:21-29 | what trimming leaves, if anything, has text |
| `MoneyTables.CreditWithTx` | src/services/wallet/wallet.service.ts:38-62 | opens the wallet if needed, writes the row and raises the balance, or leaves everything as it was where the ledger refuses the row |
| `MoneyTables.DebitWithTx` | src/services/wallet/wallet.service.ts:90-134 | lowers a sufficient balance and writes the row, or leaves everything as it was |
| `MoneyTables.WalletStepsSound` | src/services/wallet/wallet.service.ts:38-134 | every credit and debit keeps balances non-negative and equal to credits minus debits, amounts positive and idempotency keys unique |
| `Payments.AdminCredit` | src/services/admin/admin-wallet-credit.service.ts:5-51 | an administrative credit of a positive amount, or no change |
| `Payments.AdminDebit` | src/services/admin/admin-wallet-credit.service.ts:53-106 | an administrative debit the balance covers, or no change |
| `Payments.PurchaseBenefits` | src/services/benefits/purchase-benefits.service.ts:23-48 | coins leave the wallet and units enter the inventory, or neither |
| `MesaEntry.Create` | src/services/bolao/create-bolao.service.ts:34-120 | writes the initial Mesa if terms, rules, creator, name, dates and distribution pass, in that order, or changes nothing |
| `MesaEntry.Join` | src/services/bolao/join-bolao.service.ts:29-206 | the checks in order, then debit, seat, participant and pool, all or nothing |
| `MesaEntry.Admit` | src/services/bolao/join-bolao.service.ts:98-181 | the steps of an admission write what the admission function says |
| `MesaEntry.Review` | src/services/bolao/review-bolao-request.service.ts:15-208 | approval admits and rejection marks the request, all or nothing |
| `MesaEntry.CreateInvite` | src/services/bolao/create-bolao-invite.service.ts:14-71 | writes an unused invite if limit, expiry, Mesa and owner pass, in that order, or changes nothing |
| `MesaEntry.ReserveUse` | src/services/bolao/bolao-invite-reservation.ts:14-29 | raises the use count exactly where the invite is active, unexpired and below its limit |
| `MesaEntry.UseInvite` | src/services/bolao/use-bolao-invite.service.ts:11-103 | takes a use and joins, or neither; the reuse by a participant takes nothing |
| `MesaClose.FreezeScores` | src/services/ranking/close-ranking.service.ts:63-79 | ranks the approved participants and writes score, position and hits of each to its row |
| `MesaClose.PayWinners` | src/services/bolao/settle-bolao.service.ts:55-80 | one credit after another; the first refused one undoes them all |
| `MesaClose.Settle` | src/services/bolao/settle-bolao.service.ts:17-90 | pays the eligible winners of the payouts and stamps the totals; a settled Mesa is left alone |
| `MesaClose.Close` | src/services/ranking/close-ranking.service.ts:8-120 | the checks in order, the integrity gate, the frozen ranking, the settlement and the status, all or nothing |
| `MesaClose.Sweep` | src/services/ranking/close-expired-rankings.service.ts:34-57 | closes the expired Mesas one by one, each in its own transaction, and counts the successes |
| `MesaClose.Recalculate` | src/services/ranking/recalculate-ranking.service.ts:6-78 | refreshes the scores of an open Mesa that is not past its end |
| `MesaInvariant.SoundMesaIsReady` | src/services/bolao/mesa-integrity.service.ts:46-180 | every Mesa that meets the invariant passes every check of the integrity gate |
| `MesaInvariant.CreateSound` | src/services/bolao/create-bolao.service.ts:92-120 | creation keeps the invariant of all Mesas, wallets and invites |
| `MesaInvariant.AdmitSound` | src/services/bolao/join-bolao.service.ts:98-181 | admitting a user who is not in yet keeps the invariant, and the user is in |
| `MesaInvariant.JoinSound` | src/services/bolao/join-bolao.service.ts:34-181 | joining keeps the invariant and approves a user who was not approved |
| `MesaInvariant.EntryKeyIsFree` | src/services/bolao/bolao-entry-payment.service.ts:4-34 | in a sound state an entry is refused for lack of balance only: its idempotency key is always free |
| `MesaInvariant.ReviewSound` | src/services/bolao/review-bolao-request.service.ts:23-206 | approving or rejecting a request keeps the invariant |
| `MesaInvariant.UseInviteSound` | src/services/bolao/use-bolao-invite.service.ts:13-103 | using an invite keeps the invariant: the use count is the number of uses, within the limit, each by an approved user of the Mesa, none twice |
| `MesaInvariant.CreateInviteSound` | src/services/bolao/create-bolao-invite.service.ts:33-71 | creating an invite keeps the invariant |
| `MesaSettlement.RecalculateSound` | src/services/ranking/recalculate-ranking.service.ts:32-78 | recalculation keeps the invariant |
| `MesaSettlement.RowsAreRanked` | src/services/ranking/ranking-window-score.service.ts:67-86 | the ranked rows are the approved participants, each once |
| `MesaSettlement.PayAllExactly` | src/services/bolao/settle-bolao.service.ts:55-80 | all credits commit exactly when every amount is positive, and then the ledger gained exactly their rows |
| `MesaSettlement.EligiblePlusWithheld` | src/services/bolao/settle-bolao.service.ts:37-53 | what is credited and what is withheld are together all that the payouts give |
| `MesaSettlement.WinnersShare` | src/services/bolao/settle-bolao.service.ts:28-53 | the winners of a paid Mesa receive gross less fee; of a sponsored one with participants, the pool less what is withheld |
| `MesaSettlement.CloseCommitsExactly` | prisma/migrations/20260730000000_fantasy12_baseline_v2/migration.sql:820-824 | an open Mesa that is due closes exactly when no eligible prize comes out at zero coins, because the ledger takes positive amounts only; otherwise the ledger refuses it |
| `MesaSettlement.SmallPoolNeverCloses` | src/services/bolao/settle-bolao.service.ts:55-74 | a paid Mesa whose pool has fewer coins than ranked rows with a band cannot be closed |
| `SmallMesas.MesaFills` | src/services/bolao/join-bolao.service.ts:29-206 | any number of funded accounts up to the limit can open and fill a paid Mesa at one coin, by transactions of the services |
| `SmallMesas.ThreeEntrantsNeverClose` | src/services/bolao/settle-bolao.service.ts:55-74 | three entrants at one coin and bands of 60, 30 and 10, reached by a run: the winners come out at 2, 1 and 0 and every close that is due or forced is refused by the ledger |
| `SmallMesas.TenEntrantsNeverClose` | src/services/bolao/settle-bolao.service.ts:55-74 | ten entrants at one coin and ten bands, reached by a run: nine coins for ten winners, and every close is refused |
| `MesaSettlement.CloseSound` | src/services/ranking/close-ranking.service.ts:45-120 | a committed close keeps the invariant |
| `MesaSettlement.CloseFreezesRanking` | src/services/ranking/close-ranking.service.ts:65-79 | after a committed close every ranked row stands in the participant of its user |
| `MoneyRuns.ReachableSound` | src/services/bolao/join-bolao.service.ts:29-206 | every state reachable by any sequence of the money services meets the invariants of wallets, Mesas, invites and payments |
| `MoneyRuns.NotifyKeeps` | src/services/payment/process-mercado-pago-webhook.service.ts:36-194 | a notification keeps the invariants, payments included |
| `MoneyGuarantees.WalletIsItsLedger` | src/services/wallet/wallet.service.ts:35-134 | in every reachable state a balance is non-negative and equals credits minus debits |
| `MoneyGuarantees.GateNeverBlocks` | src/services/bolao/mesa-integrity.service.ts:177-180 | in every reachable state no issue is raised for any Mesa, so the gate never blocks a close |
| `MoneyGuarantees.PaidAtMostOnce` | src/services/bolao/settle-bolao.service.ts:64-74 | over every run a user is charged at most one entry and paid at most one prize by a Mesa |
| `MoneyGuarantees.ClosedIsFinal` | src/services/ranking/close-ranking.service.ts:45-53 | a closed Mesa stays exactly as it is through every run |
| `MoneyGuarantees.CoinsAreConserved` | src/services/bolao/settle-bolao.service.ts:28-89 | over every run all balances and all that the Mesas hold equal what came in from outside |
| `MoneyGuarantees.PaidMesaConserves` | src/services/bolao/settle-bolao.service.ts:28-89 | from an empty paid Mesa through any joins, approvals and invite entries to a committed close, balances and fee together are unchanged and the prizes equal gross less fee |
| `MoneyGuarantees.EntriesBalanced` | src/services/bolao/join-bolao.service.ts:98-181 | any number of entries leaves balances and the amount collected together the same |
| `MoneyGuarantees.CloseBalanced` | src/services/bolao/settle-bolao.service.ts:28-89 | closing a paid Mesa turns the amount collected into credits and the platform fee |
| `MoneyGuarantees.SponsoredCloseSplits` | src/services/bolao/settle-bolao.service.ts:37-53 | closing a sponsored Mesa with participants credits or withholds exactly the sponsor pool, withholding only from winners without active PRO |
| `MoneyGuarantees.SweepClosesEach` | src/services/ranking/close-expired-rankings.service.ts:34-57 | the sweep closes exactly the expired Mesas that can be closed, and one that cannot holds up no other |
| `MoneyGuarantees.SweepIsRun` | src/services/ranking/close-expired-rankings.service.ts:34-57 | a sweep is a run of closes |
| `MoneyGuarantees.AppliedIsFinal` | src/services/payment/process-mercado-pago-webhook.service.ts:82-97 | a payment once applied is never touched again, whatever notifications follow |
| `MoneyGuarantees.CreditedAtMostOnce` | src/services/payment/process-mercado-pago-webhook.service.ts:82-194 | in every reachable state a payment is approved exactly when applied and credited exactly when applied and meant for coins, and then the ledger holds all its coins, in one row; otherwise none |
| `Payments.ProcessWebhook` | src/services/payment/process-mercado-pago-webhook.service.ts:36-194 | records the event, then ignores, updates or applies the payment, all or nothing |
| `Payments.Renew` | src/services/subscription/renew-subscription-from-payment.service.ts:36-67 | creates or extends the subscription of the user |
| `Payments.RenewalExtends` | src/services/subscription/renew-subscription-from-payment.service.ts:42-44 | the new end lies after now and after the old end where there was one, by exactly the months bought |
| `Payments.RenewalKeepsAccess` | src/services/subscription/renew-subscription-from-payment.service.ts:38-65 | a renewal leaves every access it found exactly unless a live subscription has no end: that one it cuts to the months bought |
| `Payments.EndlessIsCut` | src/services/subscription/renew-subscription-from-payment.service.ts:38-65 | an instance: one month paid at the start of 2026 ends an endless subscription with January |
| `Payments.RenewalsAddUp` | src/services/subscription/renew-subscription-from-payment.service.ts:42-65 | renewals made before expiry move the end by exactly the months bought together |
| `SubscriptionRuns.SubscriptionIsItsRenewals` | src/services/payment/process-mercado-pago-webhook.service.ts:82-194 | over every run in which the provider does not set it, a subscription is what the renewals of the run make of it, one after another, and nothing else changes it |
| `SubscriptionRuns.RenewalsArePayments` | src/services/payment/process-mercado-pago-webhook.service.ts:82-194 | the renewals of a run are exactly the subscription payments of the user applied in it, each once, with the plan, months and instant of the payment |
| `SubscriptionRuns.PaidMonthsAddUp` | src/services/subscription/renew-subscription-from-payment.service.ts:42-65 | paid in time, a run moves the end and its month index by exactly the months of the payments applied in it |
| `Calendar.MonthStartIsEcma` | src/services/subscription/renew-subscription-from-payment.service.ts:12-25 | counting month lengths from 1970 agrees with the day formulas of ECMA-262, section 21.4.1 |
| `Calendar.AddSubscriptionValidityMonths` | src/services/subscription/renew-subscription-from-payment.service.ts:12-25 | day 1, then the month, then the clamped day: the same day of the later month or its last |
| `Calendar.AddedFields` | src/services/subscription/renew-subscription-from-payment.service.ts:12-25 | the month index advances by the months, the day is clamped to the month length, the time of day stays |
| `Calendar.AddMonthsLater` | src/services/subscription/renew-subscription-from-payment.service.ts:12-25 | at least one month makes an instant strictly later |
| `Calendar.AddMonthsMonotoneExactly` | src/services/subscription/renew-subscription-from-payment.service.ts:12-25 | of two instants the later stays later exactly unless both days are cut to the same last day and the times of day are out of order |
| `Calendar.AddMonthsReorders` | src/services/subscription/renew-subscription-from-payment.service.ts:12-25 | an instance: 30 January 23:00 and 31 January 1:00 of 2026 come out of one month in the other order |
| `Calendar.AddMonthsTwice` | src/services/subscription/renew-subscription-from-payment.service.ts:12-25 | two extensions equal one of both lengths exactly when the first does not cut the day the second would keep |
| `Calendar.MonthsAreExact` | src/services/subscription/renew-subscription-from-payment.service.ts:12-25 | extensions one after another advance the month index by exactly their sum |
| `Calendar.EarlyDaysKept` | src/services/subscription/renew-subscription-from-payment.service.ts:12-25 | a day up to the 28th survives every sequence of extensions |
| `Calendar.ClampDrifts` | src/services/subscription/renew-subscription-from-payment.service.ts:12-25 | an instance: from 31 January 2026 one month twice ends on 28 March, two months at once on 31 March |
| `SaoPauloPeriod.FromLocal` | src/services/time/sao-paulo-period.service.ts:28-44 | three corrections from the wanted reading |
| `SaoPauloPeriod.FromLocalInverts` | src/services/time/sao-paulo-period.service.ts:28-44 | with at most one clock change near, the result reads as wanted exactly when some instant does |
| `SaoPauloPeriod.CorrectionsMeet` | src/services/time/sao-paulo-period.service.ts:34-43 | two corrections already reach the reading, and the third stays there |
| `SaoPauloPeriod.SkippedReading` | src/services/time/sao-paulo-period.service.ts:28-44 | a reading that a clock change skips is not found, because no instant has it |
| `SaoPauloPeriod.Parse` | src/services/time/sao-paulo-period.service.ts:51-64 | the bounds of a month, or an error outside 1 to 12 |
| `SaoPauloPeriod.PeriodsPartitionTime` | src/services/time/sao-paulo-period.service.ts:46-64 | with no clock change near month boundaries an instant has the reference of a month exactly when it lies between its parsed bounds |
| `TicketScore.Detail` | src/services/score/calculate-ticket-score.service.ts:20-116 | the loop with nine counters refuses malformed inputs and otherwise counts hits, misses, bonus and penalty match by match |
| `TicketScore.PointsBounds` | src/services/score/calculate-ticket-score.service.ts:54-101 | the total lies between minus and plus the sum of the multipliers, and hence between four points lost and four won per match |
| `ScoreRound.ScoreAll` | src/services/score/score-round.service.ts:41-87 | the loop over tickets updates users, tickets and histories as specified, or fails where a ticket is refused |
| `ScoreRound.Execute` | src/services/score/score-round.service.ts:13-101 | scores a closed round with its result once, all or nothing; a scored round is left alone |
| `ScoreLedger.PassKeepsLedger` | src/services/score/score-round.service.ts:52-85 | scoring keeps every total equal to the sum of the user rows and every row cumulative |
| `ScoreLedger.PassRows` | src/services/score/score-round.service.ts:58-85 | a pass appends one row and one scored ticket for each ticket, in order |
| `ScoreLedger.PassPoints` | src/services/score/score-round.service.ts:49-56 | a pass raises each total by what the tickets of the user earn |
| `ScoreLedger.PassSucceeds` | src/services/score/score-round.service.ts:41-87 | tickets of known, distinct users that are new to the histories are all accepted |
| `Recompute.Execute` | src/services/score/recompute-scored-rounds.service.ts:23-118 | the deletions, the reset and the loops rebuild what the specification says |
| `Recompute.RecomputeIsReplay` | src/services/score/recompute-scored-rounds.service.ts:50-118 | from sound entries and whatever histories and stored scores, the rebuild gives the totals, rounds and tickets of scoring the SCORED rounds one by one in number order, and a row with the same scores for each of its rows; the two states are equal exactly if no row outside SCORED rounds was kept |
| `Recompute.RecomputeIdempotent` | src/services/score/recompute-scored-rounds.service.ts:23-118 | running the job twice is running it once, from whatever tables, a run that fails half way included |
| `Recompute.RecomputeRepairsExactly` | src/services/score/recompute-scored-rounds.service.ts:39-118 | the job leads to a sound ledger exactly when there is a SCORED round and no history row outside SCORED rounds, or when nothing was wrong |
| `StrayRows.StrayRowIsKept` | src/services/score/recompute-scored-rounds.service.ts:54-60 | with a SCORED round set back to CLOSED and its rows left, from otherwise sound inputs: the rebuild keeps the row, the next row takes over its double hit, and the result is neither the replay nor sound |
| `Recompute.RecomputeKeepsSoundTotals` | src/services/score/recompute-scored-rounds.service.ts:50-118 | on a sound ledger the job changes no total and no round, whatever order the rounds were scored in |
| `Rounds.Create` | src/services/round/create-round.service.ts:19-30 | adds a draft round under the next number |
| `Rounds.Grant` | src/services/benefits/grant-round-benefits.service.ts:28-51 | every user without a row for the round gets one; existing rows stay |
| `Rounds.OpenRound` | src/services/round/open-round.service.ts:18-81 | opens a draft if no other round is open, then grants; opening again only grants |
| `Rounds.Close` | src/services/round/close-round.service.ts:8-27 | closes an open round and zeroes its free benefits |
| `Rounds.SetResult` | src/services/round/set-round-result.service.ts:9-57 | writes the result unless the round is scored |
| `Rounds.Cancel` | src/services/round/round-admin.service.ts:9-62 | cancels a draft, or an open round without result and tickets |
| `Rounds.AdminClose` | src/services/round/round-admin.service.ts:82-141 | closes if open and scores; the close stays if scoring fails |
| `GameInvariant.OpenSound` | src/services/round/open-round.service.ts:37-73 | opening keeps the invariant, at most one open round included |
| `GameInvariant.CloseSound` | src/services/round/close-round.service.ts:15-24 | closing keeps the invariant |
| `GameInvariant.SetResultSound` | src/services/round/set-round-result.service.ts:27-35 | writing a result keeps the invariant |
| `GameInvariant.CancelSound` | src/services/round/round-admin.service.ts:24-61 | cancelling keeps the invariant |
| `GameInvariant.SubmitSound` | src/services/ticket/create-ticket.service.ts:26-189 | a ticket keeps the invariant |
| `GameInvariant.ScoreSound` | src/services/score/score-round.service.ts:29-97 | scoring keeps the invariant |
| `GameInvariant.ScoringSucceeds` | src/services/score/score-round.service.ts:41-97 | in a sound state scoring a closed round with a result never fails |
| `GameInvariant.AdminCloseSound` | src/services/round/round-admin.service.ts:92-139 | closing and scoring in one go keeps the invariant and never ends in a failed scoring |
| `GameRuns.RunSound` | src/services/score/score-round.service.ts:13-101 | every run of the game services keeps the invariant |
| `GameRuns.RunInParts` | src/services/round/open-round.service.ts:18-81 | every run is a run of what the program commits, where an opening is its status and then its grant, a close its status and then its expiry, and an admin close the close and then the scoring |
| `GameRuns.TotalsAgree` | src/services/score/score-round.service.ts:52-85 | in every reachable state a total is the sum of the history rows and of what the tickets in scored rounds earn under the current results |
| `GameRuns.RoundsStaySound` | src/services/round/open-round.service.ts:50-66 | in every reachable state one round at most is open, scored rounds have results and matching tickets, cancelled rounds no tickets, and histories stand for scored rounds |
| `GameRuns.LifecycleSafe` | src/services/round/round-admin.service.ts:24-139 | every transaction moves rounds along draft, open, closed, scored or to cancelled from draft or open; scored and cancelled are final |
| `GameRuns.ScoredIsFinal` | src/services/round/set-round-result.service.ts:27-29 | a scored round, result and tickets included, stays as it is through every run |
| `GameRuns.ScoringAgainChangesNothing` | src/services/score/score-round.service.ts:29-31 | scoring a scored round again changes nothing |
| `HitLedger.ScoreKeepsHits` | src/services/score/score-round.service.ts:63-85 | scoring keeps the hit columns of users scored in number order exact |
| `HitLedger.HitsCarryExactly` | src/services/score/score-round.service.ts:63-85 | the row a ticket adds carries the exact hits exactly when nothing was hit in the rows written after the one of the highest round |
| `HitLedger.CarriedLoses` | src/services/score/score-round.service.ts:63-85 | in whatever order rounds were scored, every row of a hit column is short of the running sum by exactly what it skips and what the row it continues is short of |
| `HitLedger.CumulativeExactly` | src/services/score/score-round.service.ts:63-85 | a chained hit column is a running sum exactly when no row skips a hit |
| `HitLedger.InOrderCumulative` | src/services/score/score-round.service.ts:63-85 | for a user scored in number order a chained hit column is a running sum |
| `LateRounds.LateHitIsLost` | src/services/score/score-round.service.ts:63-85 | a run in which a round scored late makes the next row lose a double hit |
| `GameRuns.RunHits` | src/services/score/score-round.service.ts:63-85 | over every run every row of a hit column adds what its round earned to the row of the highest round before it |
| `GameRuns.RunHitsExactly` | src/services/score/score-round.service.ts:63-85 | in every reachable state a hit column of a user is a running sum exactly when, at each row, nothing was hit in the rows written after the highest round so far |
| `Benefits.Consume` | src/services/benefits/consume-benefits.service.ts:23-120 | free units first, then all of the rest from the inventory, or a failure that changes nothing |
| `Benefits.Submit` | src/services/ticket/create-ticket.service.ts:26-189 | one ticket per user and round, paid for with benefits, all or nothing |
| `Benefits.CountMultipliers` | src/services/ticket/create-ticket.service.ts:103-118 | the loop refuses unknown multipliers and otherwise counts doubles and super doubles |
| `Benefits.Stock` | src/services/benefits/purchase-benefits.service.ts:31-48 | raises the inventory by the quantity of the package |
| `Benefits.CreditFree` | src/services/admin/admin-benefits.service.ts:8-31 | adds free units of one round, opening the row if there is none, or changes nothing |
| `Benefits.CreditPaid` | src/services/admin/admin-benefits-paid.service.ts:4-29 | adds units to an inventory, or changes nothing |
| `Benefits.DebitPaid` | src/services/admin/admin-benefits-paid.service.ts:43-78 | takes units an inventory holds, or changes nothing |
| `BenefitRuns.ConsumeMovesUnits` | src/services/benefits/consume-benefits.service.ts:23-119 | free and inventory units used add up to the request, the inventory is touched only once free units are gone, and nobody else is affected |
| `BenefitRuns.SubmitKeepsUnits` | src/services/ticket/create-ticket.service.ts:137-189 | a ticket takes exactly the units its multipliers cost |
| `BenefitRuns.UnitsAreConserved` | src/services/benefits/consume-benefits.service.ts:23-120 | over every run units left, on tickets and expired are together what was granted, less what an admin debited, and what was bought |
| `PurchaseRuns.RunsApart` | src/services/benefits/purchase-benefits.service.ts:23-48 | a run of the money services and of the game over one pair of tables is a run of each, so what holds over all runs of either holds over all runs of both |
| `PurchaseRuns.EveryUnitIsPaidFor` | src/services/benefits/purchase-benefits.service.ts:23-48 | over every such run the purchase rows of the ledger are the committed purchases, one debit of the price each, in order, and the stockings of units are the same purchases |
| `PurchaseRuns.CoinsBuyUnits` | src/services/benefits/purchase-benefits.service.ts:23-48 | from nothing, the coins a user spent on purchases are the price of the packages whose units, with what was granted less admin debits, the user has left, has on tickets or saw expire |
| `BenefitRuns.RegrantRestoresNothing` | src/services/benefits/grant-round-benefits.service.ts:35-50 | opening a round again restores nothing that was spent |
| `RankingWindowScore.LatestCarriesSum` | src/services/ranking/ranking-window-score.service.ts:116-121 | the latest row up to an instant carries the sum over the rounds closing up to it, if rounds were scored in closing order |
| `RankingWindowScore.WindowScoreTelescopes` | src/services/ranking/ranking-window-score.service.ts:131-142 | after its end the score of a window is the sum of what rounds closing inside it earned |
| `RankingWindowScore.LiveScoreTelescopes` | src/services/ranking/ranking-window-score.service.ts:131-142 | before its end it is the sum over the scored rounds closing from the start on |
| `RankingWindowScore.WindowHitsTelescope` | src/services/ranking/ranking-window-score.service.ts:121-147 | the hits of a window are the hits of the rounds closing inside it |
| `RankingWindowScore.LatestCarriesExactly` | src/services/ranking/ranking-window-score.service.ts:116-121 | in whatever order rounds were scored, the latest row up to an instant carries the accepted sum and what is misplaced: rows written too early less accepted rows written later |
| `RankingWindowScore.WindowScoreExactly` | src/services/ranking/ranking-window-score.service.ts:131-142 | an ended window scores the sum of its rounds exactly when as much is misplaced at its end as before its start |
| `RankingWindowScore.LiveScoreExactly` | src/services/ranking/ranking-window-score.service.ts:131-142 | a window that has not ended scores the rounds from its start on exactly when nothing is misplaced before its start |
| `RankingWindowScore.WindowHitsExactly` | src/services/ranking/ranking-window-score.service.ts:121-147 | in whatever order rounds were scored, the hits of a window, ended or not, are those of its rounds exactly when as much is misplaced, less what the column lost, at its end as before its start |
| `RankingWindowScore.NothingMisplaced` | src/services/ranking/ranking-window-score.service.ts:116-121 | in closing order nothing is misplaced |
| `LateRounds.OutOfOrderMisreads` | src/services/ranking/ranking-window-score.service.ts:116-142 | a run that scores a round closing at 20 before one closing at 10: the window from 15 to 25 reads -4 where its round earned 3 |
| `LateRounds.EndIsReadOnce` | src/services/ranking/ranking-window-score.service.ts:131-142 | a run after which the window ending when a round closed reads its points and the period with the same bounds has no row |
| `FrozenScores.BaselineMoves` | src/services/ranking/ranking-window-score.service.ts:38-54 | over any run of the game a baseline moves by exactly what is scored late before the start and by what is misplaced since |
| `FrozenScores.RunKeepsEntered` | src/services/bolao/join-bolao.service.ts:123-147 | through any run of the money services an approved participant keeps the baseline captured on entry, and the Mesa its dates |
| `FrozenScores.FrozenScoreExactly` | src/services/ranking/close-ranking.service.ts:63-79 | from an entry through any runs of game and money to a close after the end, the frozen score is what the rounds closing inside the window earned plus the excess: late scores before the start and what is misplaced |
| `FrozenScores.FrozenLiveExactly` | src/services/ranking/close-ranking.service.ts:22-79 | a forced close before the end or a close at the very end freezes the live total over the baseline: what all rounds closing from the start on earned by then, plus what was scored late, less what was misplaced on entry |
| `FrozenScores.FrozenHitsExactly` | src/services/ranking/close-ranking.service.ts:63-79 | the frozen hits, whenever the close came, are those of the rounds closing inside the window exactly when as much is off at its end as before its start |
| `FrozenScores.NoExcess` | src/services/ranking/ranking-window-score.service.ts:116-142 | in closing order and with nothing before the start scored late there is no excess, in an ended window or a live one |
| `PeriodRanking.SumByUser` | src/services/ranking/build-period-ranking-from-history.service.ts:79-113 | the loop sums round scores and takes hits from the first row of every user that counts |
| `PeriodRanking.Build` | src/services/ranking/build-period-ranking-from-history.service.ts:20-125 | the query, the sums and the ranking of a period |
| `PeriodRanking.PeriodScoreIsSum` | src/services/ranking/build-period-ranking-from-history.service.ts:89-113 | the period score is the sum of what the rounds closing in the period earned |
| `PeriodRanking.PeriodAgreesWithWindow` | src/services/ranking/ranking-window-score.service.ts:131-142 | in whatever order rounds were scored, the window score is the period score plus what rounds closing at the very end earned, plus what is misplaced at the end, less what is misplaced before the start |
| `PeriodRanking.InOrderSurplus` | src/services/ranking/ranking-window-score.service.ts:131-142 | in closing order the two differ by what rounds closing at the very end earned alone |
| `PeriodRanking.UsersListed` | src/services/ranking/build-period-ranking-from-history.service.ts:89-113 | every counted user with a row in the period is listed, once, and nobody else |
| `PeriodRanking.PeriodHitsAgree` | src/services/ranking/build-period-ranking-from-history.service.ts:94-110 | the hits of a period are the hits of the rounds closing in it |
| `Interleaving.StaysBounded` | src/services/bolao/join-bolao.service.ts:106-121 | no interleaving of stale reads, guarded updates, commits and rollbacks takes a balance or counter below zero, seats above capacity or uses above the limit |
| `Interleaving.NoUpdateIsLost` | src/services/bolao/bolao-invite-reservation.ts:19-29 | every row ends as its first value and exactly what committed transactions did to it |
| `Interleaving.AdmitIsAlone` | src/services/bolao/join-bolao.service.ts:98-121 | an admission by join or review, run alone, is a run of its guarded updates: the fee and the seat |
| `Interleaving.EntryIsAlone` | src/services/bolao/review-bolao-request.service.ts:15-208 | an entry by joining or by approval, run alone, is the guarded updates of an admission |
| `Interleaving.UseIsAlone` | src/services/bolao/use-bolao-invite.service.ts:40-103 | an invite use that joins is the guarded increment of its count and those of the admission |
| `Interleaving.WalletIsAlone` | src/services/wallet/wallet.service.ts:90-134 | a debit is a guarded decrement and a credit an increment |
| `Interleaving.ConsumeIsAlone` | src/services/benefits/consume-benefits.service.ts:23-120 | a spend is a guarded decrement of the free units, of the inventory, or of both |
| `Interleaving.CloseIsAlone` | src/services/round/close-round.service.ts:15-24 | closing a round is a zeroing of the free units of one holder after another |

## Left out

- Interleaving: other readers of a Mesa may interleave between its status check and its seat update, so join against close is proved for transactions that run one at a time, and exactly-once crediting likewise; only the bounds and the absence of lost updates hold for every interleaving.
- Calendar.AddMonthsMonotoneExactly: the code is not monotone on instants, so its exact condition is stated instead.
- SaoPauloPeriod.FromLocalInverts: zones with two clock changes within a day on either side of the reading, because the search may then miss.
- Within one close the program reads the clock several times; the model reads it once.
- The seat update rechecks the capacity that was just checked; in a serial transaction the recheck cannot fail and has no branch of its own here.
- Floating-point rounding of shares and remainders, because exact rationals are what the rule means.
- Rankings that are not Mesas, their creation and added participants, snapshots and monthly state.
- Names of Mesas once checked, audit rows (except that an invite was used), notifications and everything else that enters no modelled table.
- Reading predictions, results, period references and distributions from text or JSON: they arrive as lists and numbers. The number of matches of a round is 12.
- The date edits of a round after its creation.
- Rounds.OpenRound: the status and the grant are one step in the method and two transactions in the program; runs also contain each on its own, and every run is a run of those (`GameRuns.RunInParts`).
- Rounds.Close: the status and the expiry are one step in the method and two statements in the program; runs also contain each on its own, and every run is a run of those.
- Recompute.Execute: of rows created at the same instant the program takes the one with the highest total as the newest, the model the one created last; only hit columns depend on it.
- The reward and paid-grant services of benefits, which no route calls: they add to an inventory as the admin credit does.
- RoundBenefitService.grantForRound (src/services/benefits/round-benefit.service.ts:6-33), which no route calls: it grants the free units of a round as the grant at its opening does, but fails where a row exists already.
- Subscription events of the payment provider, because they may set any subscription; runs include an arbitrary change of one.
- Checkout, the provider client, authentication, sessions, routes, schedules and scripts.
