# Payment allocation core, modelled in Dafny

This project models the part of the payment-optimisation service that chooses
which of a user's cards and accounts pay for a purchase, and the part that
writes the result back to the balances. It also models the service's earlier
optimiser. The model covers three pieces of the service:

- **The v2 engine** (`optimize_payment` and its helpers). It converts the
  purchase to sterling. For each source it reserves the auto-debits still due
  in the current billing cycle and works out the safe spending capacity. It
  rates each source by its net benefit per pound to cash at the end of the
  month, orders the candidates (credit, then debit, then international) and
  solves the allocation programme. It then builds the plan lines, totals the
  end-of-month impact and labels the decision.
- **The commit step** (`commit_transaction`). It charges credit cards and
  draws down debit accounts and international cards by each plan line. It
  records a change per balance touched and returns a snapshot of the
  balances.
- **The earlier optimiser** (`CardOptimizer`). It sorts each card kind by id,
  prepares a flat card list, builds a linear programme whose objective
  depends on a mode chosen from the spending sector, and reports the
  allocation.

Money is an exact `real`. Each external linear-programme solver is replaced by
`LinearProgram.Solve`, which fills sources in order of decreasing rate. It is
proved to return an allocation that is feasible and optimal. An allocation is
feasible when every amount lies between zero and its capacity and the amounts
add up to the purchase. It is optimal when no feasible allocation has a
larger total rate.

Modules, in dependency order:

- `Common`: options, results and sums.
- `Selection`: the marked positions of a sequence, in order; it states that plan lines and candidates keep their input order.
- `LinearProgram`: the allocation programme and its solver.
- `Cards`: the stored user record.
- `AutoDebits`, `Capacity`, `Benefit`, `Candidates` and `Engine`: the v2 engine.
- `Ledger`: the commit step.
- `LegacyOptimizer`: the earlier optimiser.

## Model

| member | source | states |
|---|---|---|
| LinearProgram.Solve | optimisation/optimisation_model.py:337-360 | Given non-negative capacities and an amount between zero and their total, every amount stays within its capacity, the amounts add up to the purchase, and no other such allocation has a larger net benefit |
| LinearProgram.FeasibleIffCovered | optimisation/optimisation_model.py:344-360 | With non-negative capacities, a feasible allocation exists exactly when the amount lies between zero and the total capacity |
| LinearProgram.ThresholdIsOptimal | optimisation/optimisation_model.py:339-341 | A feasible allocation that fills every source above some rate and leaves every source below it empty is optimal |
| AutoDebits.CloseDay | optimisation/optimisation_model.py:100 | The cycle closes on the statement day when one is set and non-zero, otherwise on the last day of the month |
| AutoDebits.Window | optimisation/optimisation_model.py:102-107 | The window holds the days from today to the close day; if the close day is before today, it holds today to the month end plus day 1 to the close day |
| AutoDebits.PendingInCycle | optimisation/optimisation_model.py:86-109 | The reservation equals the sum of the amounts of the auto-debits whose day falls in the cycle window |
| AutoDebits.PendingSplits | optimisation/optimisation_model.py:109 | The reservation for two lists of auto-debits joined together is the sum of the reservations for each list |
| AutoDebits.PendingBounds | optimisation/optimisation_model.py:86-109 | With non-negative amounts, the reservation is at least zero and at most the total of all auto-debits |
| Capacity.DebitCapacity | optimisation/optimisation_model.py:114-130 | Debit capacity is the balance less the reservation, floored at zero; for a valid date the reservation covers today to the month end; the monthly savings rate is one twelfth of the annual rate |
| Capacity.CreditCapacity | optimisation/optimisation_model.py:133-160 | A positive credit capacity keeps balance plus reservation plus spend within both the limit and the utilisation ceiling, and reaches one of them; a zero capacity means one of them has no headroom left; the slot carries the card's cashback and points tables, APR and badge, and its reward type ("cashback" when none is stored) |
| Capacity.UtilizationCeilingBinds | optimisation/optimisation_model.py:135-143 | With a ceiling of at most 100% and a non-negative limit, the capacity is the ceiling headroom floored at zero |
| Capacity.IntlCapacity | optimisation/optimisation_model.py:163-174 | An international card offers its approximate sterling balance floored at zero, with the default spread when none is stored and no reservation |
| Benefit.CategoryRate | optimisation/optimisation_model.py:205 | The rate is the category's own entry, else the "other" entry, else zero |
| Benefit.NetBenefitRate | optimisation/optimisation_model.py:179-222 | Paid in full, a credit card earns cashback plus the grace-period savings interest; carrying a balance, it earns cashback less a month of APR; debit loses a month of savings interest; international loses the spread plus the flat fee spread over at least one pound |
| Benefit.CreditPaidInFullRanksFirst | optimisation/optimisation_model.py:179-222 | With non-negative rates, fees and grace days, a credit card paid in full never has a lower net benefit rate than a debit account or an international card |
| Benefit.WeightedRateBetween | optimisation/optimisation_model.py:257-266 | With non-negative balances, the balance-weighted savings rate lies within any bounds that hold every account's rate, and is zero when the total balance is not positive |
| Candidates.CreditCandidates | optimisation/optimisation_model.py:286-294 | A credit card appears, rated, exactly when its capacity exceeds a penny, and every element comes from some card; the result is the in-order subsequence of the cards' candidates that exceed a penny |
| Candidates.DebitCandidates | optimisation/optimisation_model.py:298-304 | A debit account appears, rated, exactly when its capacity exceeds a penny, and every element comes from some account; the result is the in-order subsequence of the accounts' candidates that exceed a penny |
| Candidates.IntlCandidates | optimisation/optimisation_model.py:314-320 | An international card appears, rated, exactly when its capacity exceeds a penny, and every element comes from some card; the result is the in-order subsequence of the cards' candidates that exceed a penny |
| Candidates.SortDebits | optimisation/optimisation_model.py:306-310 | The result is a permutation of the input ordered primary-first, then by ascending monthly savings rate |
| Candidates.BuildCandidates | optimisation/optimisation_model.py:283-320 | The candidate list is exactly the filtered credit, debit and international candidates, with tiers never decreasing and consecutive debit slots in key order: the credit candidates come first in their own order, the international candidates last in their own order, and between them a key-ordered permutation of the debit candidates |
| Engine.Truncate | optimisation/optimisation_model.py:381 | Conversion to a whole number truncates toward zero: the result is within one of the input, on the zero side |
| Engine.AmountGbp | optimisation/optimisation_model.py:249-251 | The sterling amount is the amount times the currency's rate, or the amount itself for a currency with no rate |
| Engine.SterlingAtPar | optimisation/optimisation_model.py:68-74 | With the shipped rate table, a sterling purchase, or one in a currency the table lacks, keeps its amount |
| Engine.AmountGbpLinear | optimisation/optimisation_model.py:249-251 | The sterling value of two amounts in one currency is the sum of their sterling values, and with non-negative rates conversion keeps their order |
| Engine.MakeEntry | optimisation/optimisation_model.py:369-405 | Per tier: credit lines earn the category cashback and no costs; debit lines lose a month of savings interest; international lines pay the spread plus the flat fee; points and reward type appear only on credit lines; a credit card with a points table earns the truncated category points and its own reward type, and one without earns no points and the "cashback" type; every line carries its slot's name, and a credit line its badge |
| Engine.EntryAgreesWithRate | optimisation/optimisation_model.py:179-222 | A line's net benefit agrees with its accounting: a debit line's benefit is minus its interest lost; an international line carrying the whole purchase has benefit minus its FX cost; a paid-in-full credit line is worth at least its cashback |
| Engine.BuildEntries | optimisation/optimisation_model.py:363-405 | The lines are, in slot order, one line per slot given at least half a penny, each built from that slot and its amount |
| Engine.LinesMembership | optimisation/optimisation_model.py:363-367 | The lines are well formed and carry at least half a penny each; each slot given at least half a penny has its line, and every line belongs to such a slot |
| Engine.Shortfall | optimisation/optimisation_model.py:363-367 | With non-negative amounts, the lines fall short of the allocation by at most half a penny per dropped slot, and never exceed it |
| Engine.Totals | optimisation/optimisation_model.py:408-411 | Net benefit is cashback less interest lost less FX cost, and equals the sum of the per-line nets |
| Engine.Classify | optimisation/optimisation_model.py:418-425 | On well-formed lines: a single debit line is a pass-through, a single credit line is credit-optimised, any international line makes a fallback, and everything else is a split |
| Engine.PlanCoversAmount | optimisation/optimisation_model.py:363-367 | The plan lines of a feasible allocation fall short of the purchase by at most half a penny per candidate |
| Engine.OptimizePayment | optimisation/optimisation_model.py:249-425 | Fails with no funding source exactly when there are no candidates, and with an infeasible programme exactly when no allocation of the sterling amount fits; otherwise the solution is optimal and the lines, decision and totals derive from it; the plan echoes the original amount, the currency and the category (defaults "GBP" and "other"), reports the weighted annual savings rate and its twelfth, and reports the profile's monthly interest less the interest lost |
| Engine.ProfileOfDistinct | optimisation/optimisation_model.py:268-275 | With distinct account ids, the profile's monthly interest is a twelfth of the balance-weighted sum of annual rates |
| Engine.ProfileLastWins | optimisation/optimisation_model.py:268-275 | The profile is keyed by account id: of two accounts with one id, only the later one's interest is counted |
| Ledger.FirstIndex | api/database.py:88-90 | Finds the first position holding the id, or reports that no position holds it |
| Ledger.FirstIndexOf | api/database.py:88-90 | The position holding the first occurrence of an id is exactly the one the search finds |
| Ledger.ChargeCredit | api/database.py:102-118 | Only the first credit card with the id changes, and only its balance, which rises by the amount; the one change record runs from the old balance to the new one with delta +amount; an unknown id changes nothing and records nothing |
| Ledger.DrawDebit | api/database.py:120-136 | Only the first debit account with the id changes, and only its balance, which falls by the amount; the one change record runs from the old balance to the new one with delta -amount; an unknown id changes nothing and records nothing |
| Ledger.DrawIntl | api/database.py:138-155 | Only the first international card with the id changes: its local balance (absent counts as zero) falls by the amount and is copied into the sterling balance; the one change record runs from the old local balance to the new one; an unknown id changes nothing and records nothing |
| Ledger.ApplyItem | api/database.py:97-155 | A plan line changes only its own tier's total, by its amount, and only when it names an account of that tier; any other line (including an unknown tier) changes nothing and records nothing; the accounts end as posted by that one line; its record names the line's card and kind of account, the first such account's name and balance field (`current_balance`, `balance` or `balance_local`), that account's balance before the line as `before` (an absent local balance counting as zero), and delta = after - before = +amount for credit and -amount otherwise |
| Ledger.ApplyAll | api/database.py:97-155 | Applying the lines keeps the user's accounts and ids; the change records are, in line order, one per line naming an account the user has, each with that line's card, kind and signed amount as delta = after - before, and with the account's name, its balance field, and as `before` its opening balance moved by the earlier lines naming it; and each account ends as posted: the first account with an id moves by all the lines of its tier naming it, and any later account with that id keeps its balance |
| Ledger.ApplyAllMovesBalances | api/database.py:97-155 | Money owed rises by the matching credit lines, debit and international money falls by their matching lines, and there is one change record per matching line |
| Ledger.SnapshotOf | api/database.py:159-182 | The snapshot lists every account in order with its id and name: a credit card's balance and limit with available credit equal to limit less balance, a debit account's balance, and an international card's sterling balance, absent shown as zero |
| Ledger.Commit | api/database.py:74-183 | Fails exactly when no user has the id; otherwise only the first such user's record changes, keeping its accounts, with balances moved by the matching lines, each account posted as `ApplyAll` states, one change record per matching line in line order with the line's card, kind, the account's name and balance field, its balance just before that line as `before`, and the signed amount as delta = after - before, and the snapshot shows that record |
| Ledger.OpenedShift | api/database.py:97-155 | Reading the records against the user with one line already posted is the same as reading them against the original user with that line counted among the earlier ones: a later record's `before` includes every earlier line naming its account |
| Ledger.CommitShowsBalances | api/database.py:97-182 | For a known user, the snapshot shows each credit card's balance raised, and its available credit lowered, by the credit lines naming it; each debit account's balance lowered by its lines; and each international card's local balance less its lines once a line names it, otherwise its old sterling balance |
| LegacyOptimizer.SortBy | api/optimizer.py:32-35 | The result is a permutation of the input ordered by id, compared by code point |
| LegacyOptimizer.SortIgnoresInputOrder | api/optimizer.py:32-35 | When ids are distinct, the sorted order depends only on which cards were given, not on the order they were given in |
| LegacyOptimizer.NewOptimizer | api/optimizer.py:25-36 | Each card kind is stored as a permutation of its input, sorted by id |
| LegacyOptimizer.BestDebitRate | api/optimizer.py:38-43 | Zero with no debit cards; otherwise at least every debit card's rate and equal to one of them |
| LegacyOptimizer.PrepareCredit | api/optimizer.py:58-68 | A credit card offers the lesser of its monthly limit and balance, earns its sector cashback (zero if not listed) and carries the best debit rate |
| LegacyOptimizer.PrepareDebit | api/optimizer.py:70-80 | A debit card offers the lesser of its monthly limit and balance, earns no cashback and carries its own rate |
| LegacyOptimizer.PrepareIntl | api/optimizer.py:82-93 | An overseas card offers, in pounds, the lesser of its limit and balance divided by its conversion rate, and carries its markup |
| LegacyOptimizer.PrepareCards | api/optimizer.py:45-94 | Fails exactly when an overseas card has a zero conversion rate; otherwise lists credit, then debit, then overseas cards, each prepared in stored order |
| LegacyOptimizer.ModeFor | api/optimizer.py:146-150 | The mode is balanced exactly for hotel, travel, fuel and shopping |
| LegacyOptimizer.InterestTerm | api/optimizer.py:111-120 | Each interest term is linear in the amount: minus the rate over twelve for debit, the best debit rate over twelve for credit, and minus a thousand times the markup over twelve for overseas cards |
| LegacyOptimizer.ObjectiveIsLinear | api/optimizer.py:126-140 | The objective (interest terms, plus cashback terms in balanced mode) equals the sum of one coefficient per card times its amount |
| LegacyOptimizer.Allocate | api/optimizer.py:172-183 | A report line carries the amount, its interest term and its cashback, with the sector only for credit cards |
| LegacyOptimizer.AllocationsListPositiveCards | api/optimizer.py:167-183 | Each card given a positive amount gets a line, and every line belongs to such a card |
| LegacyOptimizer.AllocationsCoverAmount | api/optimizer.py:167-171 | With non-negative amounts, the reported amounts add up to the whole allocation |
| LegacyOptimizer.AllocationsReportInterest | api/optimizer.py:172-183 | With non-negative amounts, the reported interest adds up to the interest part of the objective |
| LegacyOptimizer.FeasibleOnlyIfCovered | api/optimizer.py:100-108 | A feasible allocation exists only when no card offers a negative amount and the purchase lies between zero and the total on offer |
| LegacyOptimizer.Run | api/optimizer.py:143-190 | Fails exactly on a zero conversion rate; reports insufficient liquidity exactly when total availability is below the amount; reports a failed optimisation exactly when the programme is otherwise infeasible; otherwise the lines come from an allocation that is best in the given sense and add up to the amount |
| LegacyOptimizer.OptimizeAsWritten | api/optimizer.py:135-140 | The sense code passed means minimise, so a solved programme's lines come from an allocation with the smallest objective |
| LegacyOptimizer.Optimize | api/optimizer.py:135-140 | A solved programme's lines come from an allocation with the largest objective and add up to the amount |
| LegacyOptimizer.AsWrittenLosesInterest | api/optimizer.py:135-140 | For a 50-pound general purchase with one credit card and one 5% debit card, the as-written optimiser reports negative interest saved |
| LegacyOptimizer.IntendedKeepsInterest | api/optimizer.py:135-140 | For the same purchase, the intended optimiser reports at least a month of 5% on 50 pounds saved |

## Left out

- Rounding to pennies or hundredths of pennies is not modelled; every amount is an exact `real`. A plan line is dropped when the source's rounded amount would be under a penny, which for exact amounts means under half a penny (`Engine.MinEntry`).
- LinearProgram.Solve: the external solvers (HiGHS and GLPK) are replaced by a solver proved optimal. Among several optimal allocations, the one it returns may differ from the external solver's choice.
- Engine.OptimizePayment: the solution is optimal, but, as with `Solve`, it is not necessarily the allocation the external solver would pick among tied optima.
- Candidates.SortDebits: it is stable by construction, but stability is not proved.
- LegacyOptimizer.SortBy: it is stable by construction, but stability is not proved.
- The calendar is reduced to two integers, today's day of the month and the number of days in the month. `date.today()` and the month-length lookup are not modelled.
- The currency table is a parameter of `OptimizePayment`; the shipped table is `Engine.FxToGbp`, with the figures of optimisation/optimisation_model.py:68-74.
- The per-account interest profile is modelled by its total (`Engine.ProfileInterest`), which is the only part used in the remaining-interest figure. Its per-account entries and their rounding to four decimal places are not modelled. The transaction id and description are passed through and not modelled.
- The `is_fx` flag and `CASHBACK_THRESHOLD` are computed or declared but never change the result, so they are not modelled.
- The presentation hints (headline, earn label, comparison and savings nudge), logging and printing are not modelled.
- Loading and saving the JSON database and resetting it are not modelled. The commit step is a function from the list of users to a new list.
- The earlier optimiser's stored preferences are never read, so they are not modelled. Its request category is modelled as one of the six sectors.
- The earlier optimiser's reading of solver variables is modelled as the solved allocation itself.
- A Python exception becomes an error value. A missing user in the commit step gives `UserNotFound`, and a zero conversion rate in the earlier optimiser gives `ZeroConversion`.

## Findings

| source | as written | input that shows it | evidently intended | confidence | as-written member | corrected member |
|---|---|---|---|---|---|---|
| api/optimizer.py:135-140 | The objective is declared with sense code 1, which the modelling library reads as minimise. The optimiser therefore picks the allocation with the least interest saved and cashback | One credit card and one 5%-a-year debit card, each able to cover 100, paying 50 in the general sector: the allocation comes from the debit card and the reported interest saved is at most -50*0.05/12 | Maximise the interest saved plus cashback, as the class documentation at api/optimizer.py:20-22 says: the same purchase goes on the credit card, with at least +50*0.05/12 reported | high; not executed | LegacyOptimizer.OptimizeAsWritten, LegacyOptimizer.AsWrittenLosesInterest | LegacyOptimizer.Optimize, LegacyOptimizer.IntendedKeepsInterest |
