# Exact bookkeeping in a group-expense backend

A Dafny model of the parts of the backend where bookkeeping must be exact, and proofs of what it guarantees.
`dafny verify dfyconfig.toml` checks the whole project.

- **Money.** An expense is split by one of six split types on a largest-remainder engine (`RoundingEngine`,
  `ExpenseSplit`), stored at four decimals for amounts and two for shares (`ExpenseLedger`), netted per user
  (`BalanceEngine`), settled by a greedy two-pointer loop with a one-unit cut-off (`DebtSimplification`), and cached per
  group (`ExpenseLedger` for calls run to completion, `BalanceCache` for calls that overlap). The proofs run from single functions (exact sums, quota, optimality of the rounding) to whole
  runs: what every reachable ledger satisfies and how its groups settle.
- **Lists.** The expense feed and the comment lists are keyset-paginated (`KeysetPagination`). Walking the cursors is
  the sorted list, also while the table changes.
- **Sessions.** Refresh-token rotation and reuse detection (`RefreshTokens`, the technique of section 10.4 of RFC 6749)
  and access-token revocation (`AccessTokens`), as calls that interleave at their database statements.
- **Redis protocols.** One-time-password sessions, the fixed-window request counter and the idempotency lock
  (`OtpSessions`, `RateCounter`, `Idempotency`), over keys that expire on a clock (`Redis`).
- **Groups.** Membership rows, roles and phone invites (`GroupMembership`), for calls run to completion and for calls
  that interleave at their database commands.

How the modules are built: a pure function says what an operation does to which state; a method with the loops and field
updates of the original is proved to compute that function; lemmas state what the function guarantees over all inputs and
runs. `Sequences`, `Sorting`, `Decimals` and `OrderedMaps` hold what the modules share: sums, a stable sort, decimals as
reals with rounding half away from zero, and insertion-ordered maps.

Times are milliseconds. Random ids are fresh naturals. Money is an integer number of units: 10^-scale for shares and
transfers, 10^-4 for stored amounts.

## Where the code and its documentation disagree, and what does not hold

The model follows the code.

- Reuse detection is documented as revoking the whole family. A rotation of that user that has already read its token,
  and whose token is still unused or already marked by it, still issues a valid one afterwards
  (`RefreshTokens.ReuseShutsDownIffNothingInFlight` gives the exact condition).
- Access tokens are documented as rejected when issued before the revocation. Since `iat` is in whole seconds, a token
  issued later in the same second is rejected too, unless the revocation falls on the second's first millisecond; and a
  revocation that stamped earlier but writes later can overwrite the marker with an older time.
- The settlement is documented as a minimal set of at most n-1 transfers; the n-1 bound is proved. It does not clear
  every debt: a net of exactly one minor unit is never settled, and a difference of one unit that arises on the way is
  dropped (`DebtSimplification.EverythingIsSettledIff` gives the exact condition for clearing everything).
- Every write drops its group's balance snapshot. A balance read that overlaps the write can still store a stale one
  afterwards (`BalanceCache.StepKeepsSettledIff` gives the exact condition).
- Reported nets can fail to sum to zero, because amounts carry four decimals and shares two
  (`BalanceEngine.ReportedSumIsCarries` says by how much, `ExpenseLedger.ReachableGroupSettlesWithin` bounds it).
- With amounts finer than the scale a split can pass its own guards and be refused by the final check
  (`ExpenseSplit.ComputeSucceedsIff` gives the exact condition).
- A comment cursor is documented as bound to its list. A feed cursor by creation carries all the fields that a top-level
  ascending comment list checks, and is accepted there.
- Rounding is documented for positive weights. Zero weights work; a negative weight passed to the engine directly can make
  the invariant error reachable.
- Role changes are refused for members who are not active. When calls overlap, a promotion can still land on a row that
  was removed and invited again, leaving a pending admin.

## Model

| member | source | states |
|---|---|---|
| `RoundingEngine.TruncDivMod` | src/modules/splits/rounding.engine.ts:24-25 | BigInt division and remainder truncate toward zero: quotient times divisor plus remainder is the dividend, and the remainder is smaller than the divisor. |
| `RoundingEngine.OrderFacts` | src/modules/splits/rounding.engine.ts:30-33 | The sorted index list holds every index once, by falling remainder and then by rising index. |
| `RoundingEngine.LeftoverBounds` | src/modules/splits/rounding.engine.ts:24-28 | What the floors leave over, times the weight sum, is the sum of the remainders; it is always below the number of weights, and not negative for non-negative inputs. |
| `RoundingEngine.ToppedUpIsApportion` | src/modules/splits/rounding.engine.ts:35-48 | Handing the leftover out along the sorted indices gives exactly the parts defined by rank, and they sum to the total. |
| `RoundingEngine.PartsSumToTotal` | src/modules/splits/rounding.engine.ts:24-48 | The parts sum exactly to the total, for any non-negative total and non-negative weights with positive sum. |
| `RoundingEngine.WithinQuota` | src/modules/splits/rounding.engine.ts:24-42 | Each part is within less than one unit of its exact quota, is not negative, and is zero for a zero weight. |
| `RoundingEngine.ToppedHasRemainder` | src/modules/splits/rounding.engine.ts:30-42 | Only indices with a non-zero remainder are ever topped up. |
| `RoundingEngine.LargestRemainderIsOptimal` | src/modules/splits/rounding.engine.ts:24-48 | No integer allocation of the same total has a smaller total absolute deviation from the exact quotas. |
| `RoundingEngine.HeavierNeverGetsLess` | src/modules/splits/rounding.engine.ts:30-42 | A heavier weight never gets less; equal weights differ by at most one unit and the lower index gets the extra. |
| `RoundingEngine.NonNegativeWeightsNeverFail` | src/modules/splits/rounding.engine.ts:13-46 | With non-negative weights the distribution succeeds exactly when the total is not negative and some weight is positive, and the invariant error is unreachable. |
| `RoundingEngine.NegativeWeightsCanFail` | src/modules/splits/rounding.engine.ts:44-46 | With a negative weight the invariant error is reachable: total 1 over -2, -2, 7. |
| `RoundingEngine.DistributeMinorByWeights` | src/modules/splits/rounding.engine.ts:9-49 | The loop returns the rank-defined parts, or the error of the first check that fails; a successful result has one part per weight and sums to the total. |
| `RoundingEngine.TopUp` | src/modules/splits/rounding.engine.ts:35-42 | The top-up loop hands out one unit per index in order, as many as there are units and indices, and reports what is left. |
| `RoundingEngine.MinorUnitsExact` | src/modules/splits/rounding.engine.ts:52-69 | The second rounding in the conversion changes nothing, and minor units written out and read back are unchanged. |
| `RoundingEngine.MoneyPartsSum` | src/modules/splits/rounding.engine.ts:75-93 | Distributed money has one non-negative part per weight, summing to the total in minor units. |
| `RoundingEngine.EqualSharesAreFair` | src/modules/splits/rounding.engine.ts:96-106 | An equal split succeeds exactly when there is someone to split among and the total does not round below zero; the parts sum to the total, never rise along the list, and differ by at most one unit. |
| `RoundingEngine.MoneyFollowsWeights` | src/modules/splits/rounding.engine.ts:75-93 | Each part follows its own weight, rounded to the scale: within less than one unit of its quota, a larger weight never gets less, and equal ones differ by at most one unit, the earlier first. |
| `RoundingEngine.MoneyIsOptimal` | src/modules/splits/rounding.engine.ts:75-93 | No other way of handing out the total deviates less from the quotas of the rounded weights. |
| `RoundingEngine.RoundingErrorsAreNamed` | src/modules/splits/rounding.engine.ts:13-22 | Which error each check raises, in order; no weights distribute to nothing. |
| `Decimals.HalfUpNearest` | src/modules/splits/rounding.engine.ts:56-58 | A value rounds to n exactly when n is nearer than half a unit, or half a unit away and further from zero. |
| `Decimals.WithinGapIsRounded` | src/modules/splits/expense-split.service.ts:334-342 | A number of units within a gap below half a unit of a value is that value rounded. |
| `Decimals.RoundFineIsToUnits` | src/modules/splits/balance.engine.ts:38-41 | Rounding a count of 10^-4 units to cents is decimal rounding half up at scale 2. |
| `ExpenseSplit.SplitExact` | src/modules/splits/expense-split.service.ts:89-121 | The exact split: its guards in order, then each amount rounded by itself. |
| `ExpenseSplit.SplitPercentage` | src/modules/splits/expense-split.service.ts:123-157 | The percentage split: its guards in order, then the total distributed by the percentages. |
| `ExpenseSplit.SplitShares` | src/modules/splits/expense-split.service.ts:159-195 | The shares split: its guards in order, then the total distributed by the shares. |
| `ExpenseSplit.SplitAdjustment` | src/modules/splits/expense-split.service.ts:197-257 | The adjustment split: disjointness and amount guards in order, fixed amounts rounded one by one, the rest split equally. |
| `ExpenseSplit.TargetsOf` | src/modules/splits/expense-split.service.ts:277-295 | Whom an itemized line is split among, and its two errors. |
| `ExpenseSplit.SplitItemized` | src/modules/splits/expense-split.service.ts:259-325 | The itemized split: lines accumulated in order with the first bad line reported, then the sum guard, then shares sorted by user. |
| `ExpenseSplit.WrapShares` | src/modules/splits/expense-split.service.ts:327-351 | The final check on the sum of the shares, with its two errors. |
| `ExpenseSplit.ComputeSplit` | src/modules/splits/expense-split.service.ts:23-46 | Dispatch on the split type followed by the final check; what it returns lists distinct users and, up to scale 3, sums to the total in minor units. |
| `ExpenseSplit.AccumulatedIsSumOfLines` | src/modules/splits/expense-split.service.ts:270-303 | After the itemized loop every user owes the sum of that user's parts of the lines, and all parts together are the lines' total in units. |
| `ExpenseSplit.SharesHaveDistinctUsers` | src/modules/splits/expense-split.service.ts:65-325 | Every split type lists each user at most once. |
| `ExpenseSplit.ComputedSharesSumToTotal` | src/modules/splits/expense-split.service.ts:327-351 | Whatever the split type, the returned shares sum to the total in minor units, at every scale up to 3. |
| `ExpenseSplit.ComputedSharesWithinTolerance` | src/modules/splits/expense-split.service.ts:334-342 | At any scale the returned shares sum to within 0.0001 of the total. |
| `ExpenseSplit.TwoHalvesMissTheTotal` | src/modules/splits/expense-split.service.ts:334-342 | At every allowed scale from 4 on, two half units of a one-unit total both round up and pass the final check one unit too high. |
| `ExpenseSplit.AlwaysExactIffScaleAtMostThree` | src/modules/splits/expense-split.service.ts:334-342 | Returned shares always sum to the total in minor units if and only if the scale is at most 3. |
| `ExpenseSplit.SharesSumToRoundedSum` | src/modules/splits/expense-split.service.ts:65-325 | What the shares of any input sum to: the rounded total, or the sum of the parts that its type rounds one by one. |
| `ExpenseSplit.RawGuardsPassIff` | src/modules/splits/expense-split.service.ts:65-325 | For any input, a type produces shares if and only if its guards pass and nothing it distributes rounds below zero, or weights to zero. |
| `ExpenseSplit.ComputeSucceedsIff` | src/modules/splits/expense-split.service.ts:23-351 | For any input, total and scale, a split succeeds if and only if the scale is allowed, those guards pass, and the parts, rounded the way the type rounds them, sum to within 0.0001 of the total. |
| `ExpenseSplit.AlignedInputsFailOnlyTheirGuards` | src/modules/splits/expense-split.service.ts:65-351 | On non-negative inputs with at most `scale` decimals a split succeeds if and only if its type's own guards pass; rounding and the final check never fail. |
| `ExpenseSplit.FineAmountsCanFailTheFinalCheck` | src/modules/splits/expense-split.service.ts:103-113 | An input of the kind that condition shuts out: 33.333, 33.333 and 33.334 of 100 pass the exact split's guard and are refused by the final check. |
| `ExpenseSplit.EqualSplitIsFair` | src/modules/splits/expense-split.service.ts:65-87 | An equal split lists just the participants; earlier ones never owe less and no two differ by more than one unit. |
| `ExpenseSplit.WeightedSharesFollowTheirEntries` | src/modules/splits/expense-split.service.ts:123-195 | In a percentage or shares split each share is that of its entry's user and lies within less than one unit of the entry's quota; larger entries never get less, equal ones differ by at most one unit. |
| `ExpenseSplit.ExactAmountsAreOwed` | src/modules/splits/expense-split.service.ts:108-113 | In an exact split each entry's user owes that entry's own amount, rounded. |
| `ExpenseSplit.FixedThenRemainderAreOwed` | src/modules/splits/expense-split.service.ts:222-248 | In an adjustment split the fixed users owe their own amounts, rounded; the remainder users, each once, together owe the rest, rounded, one unit apart at most. |
| `ExpenseSplit.LineIsSplitFairly` | src/modules/splits/expense-split.service.ts:277-302 | An itemized line is owed by its users only, one unit apart at most. |
| `ExpenseSplit.ItemizedSharesAreSumsOfLines` | src/modules/splits/expense-split.service.ts:270-316 | An itemized split lists the users of any of the lines, in rising order, each owing the sum of what the lines make them owe. |
| `ExpenseSplit.ComputeReturnsTheShares` | src/modules/splits/expense-split.service.ts:327-351 | The final check changes no share and reports their sum. |
| `ExpenseSplit.FailingGuardsAreNamed` | src/modules/splits/expense-split.service.ts:65-325 | Which error a failing guard of each type raises, in the order of the checks. |
| `ExpenseSplit.BadLineIsNamed` | src/modules/splits/expense-split.service.ts:280-295 | The first line with a user outside the group, or with no user, is reported as such. |
| `ExpenseSplit.OnlyTheSumIsLeftToFail` | src/modules/splits/expense-split.service.ts:338-342 | A split whose guards pass can fail only with the internal sum error. |
| `DebtSimplification.SimplifyDebts` | src/modules/splits/debt-simplification.service.ts:15-71 | Sides collected, sorted, and matched in place give exactly the transfers of the step-by-step settlement. |
| `DebtSimplification.MatchGreedily` | src/modules/splits/debt-simplification.service.ts:37-68 | The two-pointer loop, with amounts decremented in place and both cut-offs, emits exactly the settlement of the two sorted sides. |
| `DebtSimplification.SettleWithinBalance` | src/modules/splits/debt-simplification.service.ts:37-68 | No one pays more than they owe or receives more than they are owed. |
| `DebtSimplification.SettleExhaustsASide` | src/modules/splits/debt-simplification.service.ts:40-67 | When the loop ends everyone on one of the two sides is left with at most one unit. |
| `DebtSimplification.SettleCount` | src/modules/splits/debt-simplification.service.ts:41-68 | Two non-empty sides settle in fewer transfers than there are people. |
| `DebtSimplification.SettleAmounts` | src/modules/splits/debt-simplification.service.ts:52-59 | Every transfer exceeds one minor unit. |
| `DebtSimplification.SettleNeverRepeatsAPair` | src/modules/splits/debt-simplification.service.ts:41-68 | No pair of payer and receiver occurs twice. |
| `DebtSimplification.NetsOnlyShrink` | src/modules/splits/debt-simplification.service.ts:22-71 | For any nets, balanced or not: debtors only pay, creditors only receive, everyone else does neither, and each net moves toward zero without crossing it. |
| `DebtSimplification.TransferBounds` | src/modules/splits/debt-simplification.service.ts:15-71 | For any nets: at most n-1 transfers for n users with a non-zero net, each above one unit, no pair twice, always from a debtor to a creditor. |
| `DebtSimplification.ExhaustedSide` | src/modules/splits/debt-simplification.service.ts:40-67 | For any nets, all debtors or all creditors end within one minor unit of zero. |
| `DebtSimplification.LargestPaysLargestFirst` | src/modules/splits/debt-simplification.service.ts:34-61 | The first transfer is between the largest debtor and the largest creditor, and is the smaller of the two amounts. |
| `DebtSimplification.SidesMoveTogether` | src/modules/splits/debt-simplification.service.ts:52-61 | Transfers from debtors to creditors leave the difference of open credit and open debt at the sum of the nets. |
| `DebtSimplification.OpenSides` | src/modules/splits/debt-simplification.service.ts:15-71 | For any nets, open credit minus open debt ends at the sum of the nets, and the exhausted side keeps at most one minor unit for each of its users. |
| `DebtSimplification.BalancedSettlement` | src/modules/splits/debt-simplification.service.ts:15-71 | When nets sum to zero, open debt equals open credit afterwards and is at most one minor unit per user on the larger side. |
| `DebtSimplification.OneUnitIsNeverSettled` | src/modules/splits/debt-simplification.service.ts:40-51 | For any nets, a user whose net is one minor unit neither pays nor receives. |
| `DebtSimplification.SettleClearsIff` | src/modules/splits/debt-simplification.service.ts:37-68 | Two sides of equal totals are moved in full by the loop if and only if no amount is one unit and no running total of debts is one unit away from a running total of credits. |
| `DebtSimplification.EverythingIsSettledIff` | src/modules/splits/debt-simplification.service.ts:15-71 | For any nets, every user ends at zero if and only if the nets sum to zero and, both sides sorted, no running total of debts is one minor unit away from a running total of credits. |
| `BalanceEngine.ExpenseDeltas` | src/modules/splits/expense-split.service.ts:49-63 | The per-expense deltas: shares negated, then the total added to the payer. |
| `BalanceEngine.MergeDeltas` | src/modules/splits/balance.engine.ts:29-34 | Adding one expense's deltas to the running nets. |
| `BalanceEngine.RoundNets` | src/modules/splits/balance.engine.ts:36-42 | Nets rounded to cents, users who round to zero dropped. |
| `BalanceEngine.ComputeGroupBalances` | src/modules/splits/balance.engine.ts:19-53 | The nested netting loops, rounding and settlement give the specified nets and transfers. |
| `BalanceEngine.NetFromExpenseMeans` | src/modules/splits/expense-split.service.ts:49-63 | An expense changes each user's net by what they paid minus what they owe, also when the payer is a participant; its deltas sum to the total minus the shares. |
| `BalanceEngine.LedgerMapMeans` | src/modules/splits/balance.engine.ts:28-34 | The accumulated map holds exactly each user's sum over all expenses; its values sum to what amounts and shares differ by. |
| `BalanceEngine.ReportedNetIsRoundedLedgerNet` | src/modules/splits/balance.engine.ts:28-42 | A user is reported if and only if their net does not round to zero, and then with the rounded net. |
| `BalanceEngine.NetOfConcatenation` | src/modules/splits/balance.engine.ts:29-34 | Nets are additive over ledgers. |
| `BalanceEngine.DeletingUndoesCreating` | src/modules/splits/balance.engine.ts:29-34 | Taking an expense out of a ledger, wherever it stands, undoes what adding it did to every net. |
| `BalanceEngine.NetIsOrderIndependent` | src/modules/splits/balance.engine.ts:29-34 | Nets depend on the expenses as a multiset only. |
| `BalanceEngine.CarryIsRoundedDrift` | src/modules/splits/balance.engine.ts:36-42 | Rounding takes a user's net away from its share-only value by the drift of what they paid, to the nearest cent; not at all below half a cent. |
| `BalanceEngine.ReportedSumIsCarries` | src/modules/splits/balance.engine.ts:36-42 | With cent shares the reported nets sum to the sum of the users' carries, so to zero exactly when the carries cancel. |
| `BalanceEngine.ReportedImbalanceBound` | src/modules/splits/balance.engine.ts:36-42 | With cent shares the reported nets are out of balance by at most a fiftieth of the total drift between amounts and shares. |
| `BalanceEngine.ReportedNetsBalance` | src/modules/splits/balance.engine.ts:36-42 | With cent shares and less than half a cent of drift per payer, the rounded nets sum to exactly zero. |
| `BalanceEngine.LedgerSettlesWithin` | src/modules/splits/balance.engine.ts:28-52 | For any ledger with cent shares, open credit and open debt end apart by what the reported nets are out of balance, and one side is cleared to one unit per user. |
| `BalanceEngine.LedgerSettles` | src/modules/splits/balance.engine.ts:28-52 | End to end, with less than half a cent of drift per payer: reported nets only shrink toward zero, one side is cleared to at most one unit each, open debt equals open credit within one unit per user of the larger side, in at most n-1 transfers. |
| `BalanceEngine.ExactLedgerHasNoDrift` | src/modules/splits/balance.engine.ts:28-34 | Expenses whose shares sum to their amounts have no drift: the raw nets sum to zero. |
| `BalanceEngine.OddCopiesImbalance` | src/modules/splits/balance.engine.ts:28-42 | The bound is attained: n expenses of 1.0001 with a share of 1.00 report nets that sum to n units of 10^-4, rounded; one cent at fifty. |
| `ExpenseLedger.PricedIsSound` | src/modules/expenses/expenses.service.ts:1101-1150 | Whatever create or patch stores, for any split type and amount, has cent shares with one row per user, summing to within 0.0001 of the stored amount. |
| `ExpenseLedger.StoredWithinOneUnit` | src/modules/expenses/expenses.service.ts:1110-1137 | An amount stored at four decimals differs from shares within the split tolerance by at most one unit of 10^-4. |
| `ExpenseLedger.SameNetsForEveryOrder` | src/modules/expenses/expenses.service.ts:700-711 | The order in which the query returns a group's expenses does not affect any net. |
| `ExpenseLedger.ServedSnapshotIsCurrent` | src/modules/expenses/expenses.service.ts:696-744 | A served snapshot, cached or recomputed, reports the rounded net of the live expenses for every user, and storing it keeps the invariant. |
| `ExpenseLedger.CreateKeepsInv` | src/modules/expenses/expenses.service.ts:1039-1189 | Creating an expense keeps every expense sound and every cached snapshot current. |
| `ExpenseLedger.PatchKeepsInv` | src/modules/expenses/expenses.service.ts:1198-1359 | So does patching, with or without a new split. |
| `ExpenseLedger.DeleteKeepsInv` | src/modules/expenses/expenses.service.ts:1368-1397 | So does deleting. |
| `ExpenseLedger.ReachableInv` | src/modules/expenses/expenses.service.ts:1039-1404 | The invariant holds in every state reached by creates, patches, deletes, balance reads and cache expiry. |
| `ExpenseLedger.ServedNetsAgreeWithRecomputation` | src/modules/expenses/expenses.service.ts:696-744 | In every reachable state the nets a balance read is served equal the nets recomputed from the live expenses. |
| `ExpenseLedger.ReachableDrift` | src/modules/expenses/expenses.service.ts:1101-1150 | In every reachable state the raw nets of N live expenses sum to within N units of 10^-4. |
| `ExpenseLedger.ReachableCentGroupSettles` | src/modules/expenses/expenses.service.ts:1223-1303 | In every reachable state a group of any size whose live amounts are whole cents has raw and reported nets summing to exactly zero, and settles with open debt equal to open credit. |
| `ExpenseLedger.ReachableGroupSettlesWithin` | src/modules/expenses/expenses.service.ts:696-744 | In every reachable state and for a group of any size, the nets of N live expenses are reported out of balance by at most N/50 cents, open credit and debt end apart by just that, and one side is cleared to one cent per user. |
| `ExpenseLedger.OddExpensesUnbalance` | src/modules/expenses/expenses.service.ts:1101-1150 | That bound is attained by a run: creating n equal splits of 1.0001, paid by one member and owed by another, reports nets that sum to n units of 10^-4, rounded. |
| `ExpenseLedger.ReachableGroupSettles` | src/modules/expenses/expenses.service.ts:696-744 | So a group with fewer than fifty live expenses, whatever their amounts, has reported nets summing to exactly zero and settles evenly. |
| `ExpenseLedger.DeleteUndoesCreate` | src/modules/expenses/expenses.service.ts:1368-1384 | Deleting an expense right after creating it leaves every group's live entries as they were. |
| `ExpenseLedger.CreateCases` | src/modules/expenses/expenses.service.ts:1039-1189 | A create succeeds exactly for an active caller, a split that computes and users who are all active; it adds one row with the given payer, the amount at four decimals and each computed share, and touches no other row. |
| `ExpenseLedger.PatchCases` | src/modules/expenses/expenses.service.ts:1217-1366 | A patch without amount, split, payer or currency leaves the row; one without a split otherwise fails; one with a split stores the given amount and payer, or else the stored ones, under the same conditions as a create. |
| `ExpenseLedger.RefusedBeforeReading` | src/modules/expenses/expenses.service.ts:1204-1215 | Which error a patch or delete is refused with before it looks at the row. |
| `ExpenseLedger.DeleteCases` | src/modules/expenses/expenses.service.ts:1368-1397 | A delete succeeds exactly for a live row of the group, marks just that row, and cannot be repeated. |
| `ExpenseLedger.ExpensesService.PriceExpense` | src/modules/expenses/expenses.service.ts:1050-1063 | Split, membership check and stored rows, or the error of the first that fails. |
| `ExpenseLedger.ExpensesService.CreateExpense` | src/modules/expenses/expenses.service.ts:1039-1196 | The whole new state and result of a create: the row is added and the group's snapshot dropped, or nothing changes; the ledger invariant is kept. |
| `ExpenseLedger.ExpensesService.Update` | src/modules/expenses/expenses.service.ts:1198-1366 | The whole new state and result of a patch, including the stale-version and missing-split errors; the ledger invariant is kept. |
| `ExpenseLedger.ExpensesService.DeleteExpense` | src/modules/expenses/expenses.service.ts:1368-1404 | The whole new state and result of a delete; the ledger invariant is kept. |
| `ExpenseLedger.ExpensesService.EnsureBalanceSnapshot` | src/modules/expenses/expenses.service.ts:696-744 | The snapshot served and the cache left behind; the snapshot is current. |
| `BalanceCache.StepKeepsSettledIff` | src/modules/expenses/expenses.service.ts:696-744 | Under any interleaving, a step leaves a group's snapshot current or about to be dropped, unless it is a read storing a snapshot whose nets have changed since, with no committed write about to drop it; and then it does not. |
| `BalanceCache.RunStaysSettledIff` | src/modules/expenses/expenses.service.ts:696-744 | Over any run the snapshot is current or about to be dropped throughout if and only if no such store happens. |
| `BalanceCache.StaysSettledIff` | src/modules/expenses/group-balance-cache.service.ts:27-43 | Without further writes, it stays so in every continuation if and only if it is so now and no read in flight holds a stale snapshot. |
| `BalanceCache.WriteIsCommitThenInvalidate` | src/modules/expenses/expenses.service.ts:1358-1359 | A create, patch or delete run alone is one commit of a row of its group followed by dropping the group's snapshot. |
| `BalanceCache.EnsureSnapshotIsARun` | src/modules/expenses/expenses.service.ts:696-744 | A balance read run alone is a look-up and, after a miss, the reading of the rows and the store. |
| `BalanceCache.ExpiryHealsStaleSnapshot` | src/modules/expenses/group-balance-cache.service.ts:37-39 | Once the entry expires and no read of the group is in flight, its snapshot is settled in every continuation without writes; no other snapshot changes. |
| `BalanceCache.OverlapLeavesStaleSnapshot` | src/modules/expenses/group-balance-cache.service.ts:37-43 | There is a run that ends with no call in flight and a stale snapshot in the cache: a read stores after a write has committed and dropped. |
| `KeysetPagination.CursorRoundTrip` | src/modules/expenses/utils/expense-comment-cursor.ts:31-111 | A cursor decodes to the position it was made from, and is accepted exactly by requests of its own order and scope, except that a feed-by-creation cursor also passes as a top-level ascending comment cursor. |
| `KeysetPagination.ListingFacts` | src/modules/expenses/expenses.service.ts:467-482 | What a request lists is exactly the matching rows, strictly ordered. |
| `KeysetPagination.PageShape` | src/modules/expenses/expenses.service.ts:499-509 | A page is everything left, or its first `limit` rows with a cursor at the last of them. |
| `KeysetPagination.PageIsComplete` | src/modules/expenses/expense-comments.service.ts:122-165 | A matching row is on the page exactly when there is no next cursor or the row is not past it. |
| `KeysetPagination.NextAdvances` | src/modules/expenses/expense-comments.service.ts:157-163 | Every next cursor is strictly further on than the one before. |
| `KeysetPagination.WalkPage` | src/modules/expenses/expenses.service.ts:443-465 | No cursor that a walk hands out is ever refused. |
| `KeysetPagination.PagesDoNotOverlap` | src/modules/expenses/expense-comments.service.ts:122-165 | In a walk over a changing table, later pages lie strictly after earlier ones. |
| `KeysetPagination.PersistentRowReturnedOnce` | src/modules/expenses/expenses.service.ts:443-512 | Rows may come and go between pages: a matching row present throughout is returned on exactly one page, once. |
| `KeysetPagination.FollowListsTheRest` | src/modules/expenses/expenses.service.ts:443-512 | On a fixed table, following the cursors from any position returns exactly the rest of the sorted list. |
| `KeysetPagination.FollowFillsFewestPages` | src/modules/expenses/expenses.service.ts:438-441 | It does so in the fewest pages that hold those rows, and at least one. |
| `KeysetPagination.WalkOfFixedTable` | src/modules/expenses/expense-comments.service.ts:104-165 | Walking a fixed table from the start is the sorted list of all matching rows, in max(1, ceil(n/limit)) pages, for all four orders. |
| `KeysetPagination.PagesAreInOrder` | src/modules/expenses/expenses.service.ts:474-477 | Every page of the feed by creation and of the newest-first comments falls by creation and then id; of the feed by date by date and then id; of the oldest-first comments it rises by creation and then id. |
| `KeysetPagination.WalksAreInOrder` | src/modules/expenses/expense-comments.service.ts:145-148 | So does a whole walk over a table that changes between pages. |
| `KeysetPagination.LimitMeans` | src/modules/expenses/expenses.service.ts:438-441 | The page size is what was asked for between 1 and 100, and 20 by default. |
| `KeysetPagination.PageSize` | src/modules/expenses/expenses.service.ts:479-499 | A page holds as many matching rows as there are past the cursor, up to the page size. |
| `KeysetPagination.CursorAcceptedIff` | src/modules/expenses/utils/expense-cursor.ts:41-106 | Exactly which decoded payloads each list accepts, and the position it then goes on from. |
| `KeysetPagination.CursorMismatchIsNamed` | src/modules/expenses/utils/expense-comment-cursor.ts:86-108 | A well-formed cursor of another scope or order is refused as such. |
| `RefreshTokens.StepKeepsOneHolder` | src/modules/auth/services/token.service.ts:185-206 | A step never gives a family a second way to produce its next token. |
| `RefreshTokens.StepKeepsOneSuccessor` | src/modules/auth/services/token.service.ts:192-206 | A step never gives a token a second successor. |
| `RefreshTokens.ReachableInv` | src/modules/auth/services/token.service.ts:154-209 | Both hold in every state of every interleaving of logins, rotations, logouts and revocations. |
| `RefreshTokens.SingleRotationChain` | src/modules/auth/services/token.service.ts:164-206 | Under every interleaving a family's unused tokens plus rotations between mark and issue number at most one, and no token has two successors. |
| `RefreshTokens.StepMovesForward` | src/modules/auth/repositories/refresh-token.repository.ts:40-78 | No statement clears or changes a used mark, makes an invalid token valid, or removes a row. |
| `RefreshTokens.RunMovesForward` | src/modules/auth/repositories/refresh-token.repository.ts:40-78 | Nor does any stretch of any run. |
| `RefreshTokens.ReuseShutsDownIffNothingInFlight` | src/modules/auth/services/token.service.ts:185-199 | After TOKEN_REUSED all tokens the user had, and all their descendants, are invalid; they stay so in every continuation if and only if none of the user's rotations is in flight at that moment. |
| `RefreshTokens.InFlightIssuesAValidToken` | src/modules/auth/services/token.service.ts:192-206 | A rotation already past its read or mark still issues a valid token into the revoked family. |
| `RefreshTokens.RotateIsARun` | src/modules/auth/services/token.service.ts:154-209 | A rotation call run alone is a run of the interleaving protocol with the same result. |
| `RefreshTokens.ReuseShutsDownSerialCalls` | src/modules/auth/services/token.service.ts:185-190 | With calls run to completion, TOKEN_REUSED leaves every token the user had, and any descendant, invalid forever. |
| `RefreshTokens.RotationReplacesToken` | src/modules/auth/services/token.service.ts:192-208 | A successful rotation leaves exactly one new acceptable token, other tokens alone, and the presented one reported as reused next time. |
| `RefreshTokens.RotationCases` | src/modules/auth/services/token.service.ts:158-208 | A rotation succeeds exactly for a verified token whose row is there, with its hash, valid, unexpired and unused; reports reuse exactly if it is all that but used; and otherwise is refused with nothing changed. What each leaves in the table. |
| `RefreshTokens.RevocationsMean` | src/modules/auth/repositories/refresh-token.repository.ts:51-78 | Revoking a token, a family or a user invalidates exactly those rows. |
| `RefreshTokens.LoggedOutTokenIsRefused` | src/modules/auth/services/token.service.ts:231-240 | A logged-out token is refused in every continuation. |
| `RefreshTokens.ForcedLogoutShutsDownIffNothingInFlight` | src/modules/auth/services/token.service.ts:246-253 | After a forced logout the user's tokens and their descendants stay invalid in every continuation if and only if none of the user's rotations is in flight. |
| `RefreshTokens.LoginLastsSevenDays` | src/modules/auth/services/token.service.ts:98-108 | A token issued at a login is accepted for seven days to the millisecond. |
| `RefreshTokens.RefreshTokenRepository.MarkUsed` | src/modules/auth/repositories/refresh-token.repository.ts:40-46 | Marks the row only if it is unused and reports whether it did; rows only move forward. |
| `RefreshTokens.TokenService.RevokeUserSessions` | src/modules/auth/services/token.service.ts:246-253 | Writes the marker and invalidates the user's rows. |
| `RefreshTokens.TokenService.RotateRefreshToken` | src/modules/auth/services/token.service.ts:154-209 | The rotation call: rows and result as specified, the marker written exactly on reuse; rows only move forward. |
| `AccessTokens.RevokedTokenStaysRefusedIff` | src/modules/auth/services/token.service.ts:246-275 | A token of an earlier second than a written revocation is refused in every continuation if and only if no older revocation is still about to overwrite the marker (or it is expired, or has no `iat`). |
| `AccessTokens.IssuedBeforeRevocationIsNeverAccepted` | src/modules/auth/services/token.service.ts:122-134 | With revocations one at a time, a token issued strictly before one is never accepted afterwards: the marker outlives it and later markers only grow. |
| `AccessTokens.IssuedAfterRevocationRefusedIffSameSecond` | src/modules/auth/services/token.service.ts:259-275 | A token issued at or after the revocation is refused by its marker exactly when both fall in the same second and the marker is not at its first millisecond. |
| `AccessTokens.StepKeepsGuarded` | src/modules/auth/services/token.service.ts:246-275 | No step makes a guarded token acceptable again. |
| `AccessTokens.UnrevokedTokenLifetime` | src/modules/auth/services/token.service.ts:122-126 | Without a marker a token is accepted for 905 whole seconds. |
| `AccessTokens.MarkerExpires` | src/modules/auth/services/token.service.ts:246-251 | Seven days after it was written a marker refuses nothing any more. |
| `RateCounter.RedisCounters.AtomicIncrementWithLimit` | src/infrastructure/redis/redis.service.ts:106-136 | The script's keys, verdict and count. |
| `RateCounter.AdmittedOnlyWithRoom` | src/infrastructure/redis/redis.service.ts:112-121 | A request is admitted if and only if its window has admitted fewer than the maximum, and the reported count is bounded by it. |
| `RateCounter.RequestKeepsLogFits` | src/infrastructure/redis/redis.service.ts:112-121 | One more request keeps key and history consistent, in the current window or a new one. |
| `RateCounter.IntervalBound` | src/infrastructure/redis/redis.service.ts:116-119 | An interval of one window length meets at most two windows, so it admits at most twice the maximum. |
| `RateCounter.RateBounds` | src/infrastructure/redis/redis.service.ts:106-136 | For any request times: each window admits at most the maximum, any interval of a window's length at most twice that, and the reported count never exceeds it. |
| `RateCounter.OtherKeysUntouched` | src/infrastructure/redis/redis.service.ts:106-136 | Requests under one key leave every other counter alone. |
| `RateCounter.CounterCases` | src/infrastructure/redis/redis.service.ts:112-121 | A full window refuses and reports its count, one with room admits and counts one more under its old expiry, and an expired or missing one starts again at one. |
| `OtpSessions.CheckOpenKeepsFits` | src/infrastructure/redis/redis.service.ts:231-266 | A check of an active session keeps the counter equal to the codes compared and the counter alive longer than the session. |
| `OtpSessions.CheckLockedComparesNothing` | src/infrastructure/redis/redis.service.ts:220-234 | A locked session compares no code, even through the unlock branch: the lock outlasts the expiry. |
| `OtpSessions.StepKeepsFits` | src/infrastructure/redis/redis.service.ts:207-266 | Every creation, invalidation, check and passage of time keeps the session invariant. |
| `OtpSessions.SessionBounds` | src/infrastructure/redis/redis.service.ts:207-266 | Over any timed run a session compares at most five codes, succeeds at most once, and never succeeds once it was locked. |
| `OtpSessions.SuccessIsTimelyAndGenuine` | src/infrastructure/redis/redis.service.ts:231-262 | A success is for the code that was sent, not after the session's expiry, and its first. |
| `OtpSessions.SendIsInvalidateThenCreate` | src/modules/otp/otp.service.ts:91-120 | To sessions and attempt counters a send is an invalidation of the phone's session and a creation, the steps of the timed runs. |
| `OtpSessions.SendReplacesSession` | src/modules/otp/otp.service.ts:91-125 | After a send the phone's previous session can no longer be verified and the new one accepts its code and no other. |
| `OtpSessions.SendCases` | src/modules/otp/otp.service.ts:71-89 | A send goes through exactly when both limits allow it and no cooldown is live; which refusal it gets otherwise. |
| `OtpSessions.SecondSendWaitsAMinute` | src/modules/otp/otp.service.ts:77-82 | After a send the same phone is refused for sixty seconds and no longer. |
| `OtpSessions.SentSessionLivesFiveMinutes` | src/modules/otp/otp.service.ts:95-120 | A sent session accepts its code for five minutes and is then gone. |
| `OtpSessions.ActiveSessionCases` | src/infrastructure/redis/redis.service.ts:231-262 | An active session answers success exactly to its own code, locks exactly on a wrong code after four attempts, and otherwise counts one more attempt; what each leaves in the keys. |
| `OtpSessions.OtherSessionCases` | src/infrastructure/redis/redis.service.ts:207-234 | What a missing, verified, expired or locked session answers, changing nothing. |
| `OtpSessions.OtpService.SendOtp` | src/modules/otp/otp.service.ts:58-143 | Checks in order, then the session, registration and cooldown keys as specified. |
| `OtpSessions.OtpService.AtomicVerifyOtp` | src/infrastructure/redis/redis.service.ts:207-266 | The script statement by statement gives the specified keys and result. |
| `Idempotency.StepKeepsExclusive` | src/common/services/idempotency.service.ts:28-98 | A running handler owns the lock entry and is the only one, after every command of every request, while handlers are inside their 30 seconds. |
| `Idempotency.AtMostOneHandler` | src/common/services/idempotency.service.ts:48-70 | Under every interleaving of handlers that finish inside the lock, at most one handler per key runs at a time. |
| `Idempotency.CompletedStepKeepsEntry` | src/common/services/idempotency.service.ts:33-46 | Once completed, no command changes the entry, no handler starts, and look-ups return the stored response. |
| `Idempotency.CompletedResponseIsReplayed` | src/common/services/idempotency.service.ts:76-90 | From completion until the entry expires no execution starts and every look-up returns that response. |
| `Idempotency.LateReleaseAdmitsTwoHandlers` | src/common/services/idempotency.service.ts:95-98 | The 30-second bound is needed for every handler: one that overruns deletes the next one's lock on release, and two handlers inside their own lock times then run together. |
| `Idempotency.SecondHandlerStartsIff` | src/common/services/idempotency.service.ts:48-70 | In any state in which one handler runs, another can come to run beside it without time passing if and only if the key has no live entry. |
| `Idempotency.GetOrLockCases` | src/common/services/idempotency.service.ts:28-71 | A call starts work exactly when its key has no live entry, conflicts exactly with a live lock, and gets exactly a live stored response. |
| `Idempotency.GetOrLockIsARun` | src/common/services/idempotency.service.ts:28-71 | Run alone it is the look-up of the interleaving protocol and, if nothing was found, the taking of the lock. |
| `Idempotency.HandledCases` | src/modules/otp/otp.controller.ts:431-447 | What a verify call returns and leaves, by what its key holds. |
| `Idempotency.HandledIsReplayed` | src/common/services/idempotency.service.ts:76-90 | A computed response is replayed for ten minutes, whatever a later call would compute; after that, and after a failure, a call computes again. |
| `Idempotency.HandledIsARun` | src/modules/otp/otp.controller.ts:440-447 | Finishing is the completing or releasing step of the protocol. |
| `Idempotency.IdempotencyService.SetIfNotExists` | src/infrastructure/redis/redis.service.ts:50-57 | Stores only when the key is absent or expired, and says whether it did. |
| `Idempotency.IdempotencyService.Acquire` | src/common/services/idempotency.service.ts:28-71 | Conflict, stored response, or a newly taken lock. |
| `Idempotency.IdempotencyService.HandleVerify` | src/modules/otp/otp.controller.ts:431-447 | Replays, refuses, or runs the handler once and stores its response, releasing the lock when it throws. |
| `GroupMembership.BeginSparesOwner` | src/modules/groups/groups.service.ts:561-576 | Whatever a call decides to write to an existing row, it is not the group's owner row and never hands out ownership. |
| `GroupMembership.BeginPromotesActive` | src/modules/groups/groups.service.ts:620-634 | A promotion is decided only for a row that is active when read. |
| `GroupMembership.CommitKeepsSound` | src/modules/groups/repositories/group-member.repository.ts:67-121 | Every database command keeps: rows and invites belong to groups, exactly the creator holds the owner role and is active, `joinedAt` is set just when active; and leaves every surviving owner row untouched. |
| `GroupMembership.ClaimMeans` | src/modules/groups/repositories/group-invite.repository.ts:58-105 | Claiming row by row: every live invite of the phone is gone and its group has a row for the user, new ones pending members with the inviter recorded; existing rows, other phones and dead invites are untouched. |
| `GroupMembership.ClaimKeepsSound` | src/modules/groups/repositories/group-invite.repository.ts:58-105 | Claiming keeps the table invariant and every owner row. |
| `GroupMembership.AdminsStayActiveIff` | src/modules/groups/repositories/group-member.repository.ts:98-107 | A command keeps all admins active if and only if it is not a promotion reaching a row that is no longer active. |
| `GroupMembership.ServeKeepsInv` | src/modules/groups/groups.service.ts:194-307 | A call of any kind, run to completion, keeps the whole invariant, admins active included, and every owner row. |
| `GroupMembership.ReachableInv` | src/modules/groups/groups.service.ts:538-767 | The whole invariant holds in every state reached by calls run to completion. |
| `GroupMembership.OthersRowsNeedAuthority` | src/modules/groups/permissions/group-membership-rules.service.ts:60-90 | A call changes someone else's row only if the caller is an active admin or owner of the group; an admin's row only if the owner; and the owner's row never. |
| `GroupMembership.CallerCases` | src/modules/groups/groups.service.ts:199-205 | An unknown or inactive caller is refused with the matching error. |
| `GroupMembership.AuthorityCases` | src/modules/groups/permissions/group-membership-rules.service.ts:60-98 | Adding and removing takes an active admin or owner, changing roles and deleting the group its owner; which error everyone else gets. |
| `GroupMembership.CreateGroupCases` | src/modules/groups/repositories/group.repository.ts:19-43 | Creating adds the group and its active owner row, and nothing else. |
| `GroupMembership.DeleteGroupCases` | src/modules/groups/groups.service.ts:158-166 | Deleting takes the group with exactly its rows and invites. |
| `GroupMembership.AcceptCases` | src/modules/groups/groups.service.ts:659-719 | Accepting makes a pending row active with `joinedAt`, keeping its role and inviter, and changes nothing else; every other outcome. |
| `GroupMembership.DeclineCases` | src/modules/groups/groups.service.ts:724-767 | Declining takes out exactly the pending row; every other outcome. |
| `GroupMembership.RemoveCases` | src/modules/groups/groups.service.ts:561-588 | Removing takes out exactly the member's row; which refusal protects owners and admins. |
| `GroupMembership.UpdateRoleCases` | src/modules/groups/groups.service.ts:620-641 | The owner sets exactly the role asked for, up or down, on an active member's row; every other outcome. |
| `GroupMembership.AddRegisteredCases` | src/modules/groups/groups.service.ts:258-297 | Adding a registered user drops the phone's invite and puts in a pending row unless there is a row; every other outcome. |
| `GroupMembership.AddPhoneCases` | src/modules/groups/groups.service.ts:224-246 | Adding an unregistered phone leaves one pending invite for fourteen days, and no row. |
| `GroupMembership.AddUnknownCases` | src/modules/groups/groups.service.ts:225-262 | A target that matches no one is an error. |
| `GroupMembership.InvitedPhoneIsClaimed` | src/modules/groups/repositories/group-invite.repository.ts:58-105 | That invite becomes a pending row of whoever claims the phone within fourteen days, and not later. |
| `GroupMembership.StepKeepsWorldInv` | src/modules/groups/groups.service.ts:194-767 | Calls interleaving at their database commands keep the table invariant, with no pending command ever aimed at an owner. |
| `GroupMembership.ReachableSound` | src/modules/groups/repositories/group.repository.ts:19-43 | Under every interleaving each existing group has exactly one owner row, its creator's, active. |
| `GroupMembership.OwnerRowNeverChanges` | src/modules/groups/repositories/group.repository.ts:19-43 | Under every interleaving a group that still exists has the very owner row it was created with, and deleted groups never come back. |
| `GroupMembership.ServeIsARun` | src/modules/groups/groups.service.ts:194-767 | A call run to completion is a run of the interleaving protocol in which no other call takes a step. |
| `GroupMembership.LatePromotionMakesAPendingAdmin` | src/modules/groups/groups.service.ts:620-641 | Admins being active does not survive interleaving: from any state with an active member there is a run in which a promotion commits after the member was removed and invited again, and leaves a pending admin. |
| `GroupMembership.GroupsService.RequireManager` | src/modules/groups/permissions/group-membership-rules.service.ts:60-79 | The active-member and admin-or-owner checks, in order. |
| `GroupMembership.GroupsService.CreateForUser` | src/modules/groups/repositories/group.repository.ts:19-43 | The group and its owner row, or the caller's error. |
| `GroupMembership.GroupsService.DeleteMine` | src/modules/groups/groups.service.ts:145-173 | The group goes with its rows and invites, for its owner only. |
| `GroupMembership.GroupsService.AddToGroup` | src/modules/groups/groups.service.ts:194-307 | Adding by phone, username or id: every error in order, the invite of a registered target dropped first, then the pending row; or the phone invite for an unregistered one. |
| `GroupMembership.GroupsService.AddRegistered` | src/modules/groups/groups.service.ts:270-297 | The invite goes even when the row then turns out to exist. |
| `GroupMembership.GroupsService.RemoveFromGroup` | src/modules/groups/groups.service.ts:538-591 | Removal with its permission rules; nothing else changes, the whole invariant and every owner row are kept. |
| `GroupMembership.GroupsService.UpdateRole` | src/modules/groups/groups.service.ts:599-653 | Promotion and demotion by the owner, of active non-owner rows only. |
| `GroupMembership.GroupsService.AcceptGroupInvite` | src/modules/groups/groups.service.ts:659-719 | A pending row becomes active with `joinedAt`; an active one is left alone. |
| `GroupMembership.GroupsService.DeclineGroupInvite` | src/modules/groups/groups.service.ts:724-767 | A pending row is removed; an active one is refused. |
| `GroupMembership.GroupsService.WorkOff` | src/modules/groups/repositories/group-invite.repository.ts:72-101 | One turn of the claim loop. |
| `GroupMembership.GroupsService.WorkOffAll` | src/modules/groups/repositories/group-invite.repository.ts:72-101 | The claim loop over the invites found, in any order. |
| `GroupMembership.GroupsService.ClaimPendingForNewUser` | src/modules/groups/repositories/group-invite.repository.ts:58-105 | The claim loop, in any order of the invites, gives the claimed tables and exactly one report for each new row. |

## Left out

- `Decimal` strings: parsing, `NaN`, exponents, the 20-digit working precision and output formatting; inputs are exact reals, and results stay integer units instead of strings.
- Object key order: records and maps are modelled in insertion order; the integer-like-key reordering of JavaScript objects and `localeCompare` on ids (numeric order of ids here) only affect list order, and which of equal amounts is matched first in a settlement.
- Echoed columns: percentages and share counts stored beside the owed amounts, `paidAmount`, payer rows, tags, categories, facets, activity logs, the dominant-currency count, and the `toMinor` and bucket formatting of responses.
- Column widths: overflow of Decimal(19,4) is not modelled.
- `DebtSimplification.SimplifyDebts`: the scale is fixed at 2 and nets are counted in units of 10^-4, as the one call site in the repository has it; other scales are not modelled.
- `DebtSimplification.TransferBounds`: fewest possible transfers is not stated.
- `BalanceEngine.RoundNets`: the scale is fixed at 2, as at its one call site.
- `BalanceEngine.ComputeGroupBalances`: the scale is fixed at 2, as at its one call site.
- `ExpenseLedger.ServedNetsAgreeWithRecomputation`: calls run to completion; overlapping calls are the subject of `BalanceCache`. Only nets are compared, since ties in the sort make transfers depend on row order.
- `BalanceCache.StepKeepsSettledIff`: a write's reads and its transaction are one commit, of any row of the group; reading a group's rows is one step, and the 300-second expiry may happen at any moment.
- `ExpenseLedger.ExpensesService.CreateExpense`: the active members of the group are a parameter; classification and its errors, which come between the split and the store, are not modelled.
- `ExpenseLedger.ExpensesService.Update`: whether the expected version is stale is a parameter.
- `KeysetPagination.WalkOfFixedTable`: the filter is any predicate on rows; title search, date parsing and the database are not modelled. Cursors are decoded payloads: base64url and JSON are taken as lossless.
- `createComment`: the rule that a reply's parent is not itself a reply is one guard on insertion.
- `RefreshTokens.TokenService.RotateRefreshToken`: JWT signing and verification enter as one flag, SHA-256 as an abstract hash; user agent and address columns and `revokedAt` are not modelled.
- `RefreshTokens.ReachableInv`: an update of many rows is one step, and the deletion of expired rows, which no modelled flow calls, is left out.
- `AccessTokens.RevokedTokenStaysRefusedIff`: application and Redis clocks are one clock.
- `OtpSessions.OtpService.SendOtp`: run to completion; the rate-limit verdicts are parameters, `ttl` in whole seconds is modelled as presence of the cooldown key, and Redis failures are not modelled.
- `OtpSessions.SessionBounds`: session ids are random UUIDs, so each is created at most once; application and Redis clocks are one clock. Upserting the user and the tokens issued after a success are not part of the session model.
- `Idempotency.IdempotencyService.HandleVerify`: `complete` and `release` themselves never fail; the key-format check is left out.
- `Idempotency.AtMostOneHandler`: holds for handlers that finish inside their lock; `Idempotency.SecondHandlerStartsIff` says when a second one can start, lock overrun or not.
- `GroupMembership.StepKeepsWorldInv`: the reads at the start of a call are one step; each later database command is its own step, and the claim transaction is one.
- `GroupMembership.ClaimMeans`: the user table is given to each call; deleting users, which cascades to their rows, is left out. Group names, roster output, activity events and notifications are not modelled.
- Classification, keyword matching, analytics, uploads, receipts, contact sync and health checks: libraries and I/O.
