# A verified model of the Tellor pallet

The Tellor pallet lets reporters submit values for queries, lets users tip single reports and fund data
feeds, pays staking rewards to reporters who staked on a controlling chain, and runs disputes over
reported values. This project models that as one state machine over the pallet's storage and proves what
every run of it keeps.

The files follow the pallet's components.

| files | contents |
|---|---|
| `Prelude`, `Sums` | constants, errors, the ledger of accounts, sums over storage maps |
| `ReportLog`, `Oracle`, `ReportStore` | the report time series of a query, its skip links, removal and lookups |
| `TipBook`, `TipHistory`, `TipClaims`, `TipStore` | one-time tips: running sums, claims over disputed reports, runs |
| `Feeds`, `FeedRewards`, `FeedStore` | data feeds: rewards per interval, batches of claims, the read-only view |
| `Shares`, `Staking`, `Solvency`, `StakingReports`, `Rewards`, `StakingStore` | reward per share, accrual, stake changes, solvency, what is paid |
| `Governance`, `Disputes`, `Ballots`, `GovernanceStore` | dispute rounds, fee escrow, votes, sending, tallying, executing |
| `Pallet`, `Invariant`, `Runs`, `Guarantees` | the whole machine, its invariant, and what holds in every reachable state |
| `PaymentTerms`, `StakeTerms`, `DisputeTerms` | when each call succeeds and what it pays and changes |
| `Listing`, `Coverage`, `Counters`, `Freezing` | the list of queries with funding, solvency call by call, stored vote counts, frozen tallies |
| `Scenarios`, `TipRuns`, `OmittedTip`, `LongSeries` | concrete runs from the empty pallet |

Each component has two layers. Functions on values say what a call computes (`Staking.UpdateRewards`,
`TipBook.ClaimOne`, `Governance.ExecuteVote`). Classes (`Oracle.Oracle`, `TipStore.TipStore`,
`FeedStore.FeedStore`, `StakingStore.StakingStore`, `GovernanceStore.GovernanceStore`, `Prelude.Ledger`)
do it in place, with the pallet's loops and its order of writes, and each method is proved to have the
effect of its function, including that a failed call leaves everything as it was. Each class but the
ledger has a `Valid` that carries the invariant of its component, and its methods keep it. The lemmas are
about the functions and about `Pallet.Apply`, which runs one call on the whole storage.

What those functions compute is stated a second time without them. `TipClaims`, `FeedRewards` and `Rewards`
say who can claim which report, what a report earns and what a staker is paid, by quantifiers over reports
and tips and by products instead of quotients, and the methods promise that too. `PaymentTerms`,
`StakeTerms` and `DisputeTerms` do it for every call of `Pallet.Apply` that moves money, stakes, reports or
votes: its exact condition (for stake changes, `Counters.StakeChangeFailsIff`) and the whole new state.

`Invariant.History` is a record of a run that the pallet does not store: what was tipped and paid per
query, every single payment of a tip, which reports a feed paid by its window rule, every ballot, every
message sent, every execution, locked balances a withdrawal left behind, and what clamped reward debts cut
off. The theorems about runs relate storage to that record.

## Where the code and its intent differ

The model follows the code. Six departures come out of the proofs, each with its exact condition and with a
run from the empty pallet that shows it:

- A claim for a report that follows a disputed one searches earlier tips from index 1. The very first tip
  is therefore left unpaid in exactly the case `TipBook.OmitsFirstTip`; a claim pays every earned tip if
  and only if that case does not apply (`TipBook.ClaimPaysEarned`). `OmittedTip.FirstTipOmitted` is a run
  that earns twelve and is paid seven, and by `TipHistory.ClaimedIntervalIsClosed` no other claim ever
  earns that tip.
- The list of queries with funding can miss a query whose current tip is positive
  (`TipRuns.ListMissesQuery`): a claim takes the query off the list, and a dispute then makes its last
  tip current again. `Listing.ListingLostIff` gives the guard, read before the call, under which one call
  loses the query, and `Listing.NeverMissedIff` lifts it to runs.
- A staker's new reward debt is clamped to a 128-bit balance. If the clamp bites, the staker stays owed
  the difference although just paid, and the staking account can owe more than it holds
  (`Scenarios.ClampedRunIsInsolvent`). From a solvent state a successful call leads to an insolvent one if
  and only if the guard `Coverage.Covers`, read before the call, fails (`Coverage.SolvencyLostIff`), and a
  run stays solvent if and only if each of its successful calls meets the guard
  (`Coverage.AlwaysCoveredIff`). Calls whose debt fits a balance meet it (`Coverage.FittingCallsCover`);
  whether a debt fits is read before the call as well (`Guarantees.CutsNothingIffFits`).
- Rounding dust can stop the accrual although no staker is owed anything (`Scenarios.DustStopsAccrual`),
  because the check uses the floor of the total share rather than the sum of the floors. Calls that accrue
  then fail until the missing dust is added; the dust of all stakers is always enough
  (`Solvency.AccrualResumes`). `Solvency.AccrualFailsIff` and `Counters.StakeChangeFailsIff` give the exact
  conditions, and `Solvency.AccrualFailsForDust` bounds the shortfall by `Shares.Dust` per staker: one unit
  when the local balance has at least 18 decimals, else two units and the share of one converted unit.
- The forward search uses a saturating midpoint of two 32-bit indices, which is always below 2^31. Entered
  between the first and the last report, the search stops if and only if the report at index 2^31, if
  there is one, comes after the timestamp (`Oracle.SearchStopsIff`); otherwise it loops forever
  (`Oracle.SearchHangs`). `LongSeries.ReachedSeriesHangs` reaches such a series.
- The README of the pallet (its line 40) says that votes are sent provided the voting period has not
  elapsed. The code sends a pending round if and only if it started at least 11 hours ago, however long its
  voting period has been over (`Guarantees.VotesSentIffDue`); `TipRuns.VoteSentAfterItsPeriod` is a run.

A withdrawal that reports less than the whole lock is not foreseen by the code either: it lowers the amount
to withdraw by the whole lock, and what is left can be stranded (`Guarantees.StrandedIff`,
`Scenarios.PartialWithdrawalStrands`). And a feed whose interval starts at time zero has no window in it, since
a missing earlier report counts as one at time zero (`FeedRewards.FirstInWindow`).

## Model

| member | source | states |
|---|---|---|
| Oracle.Oracle.SubmitValue | src/lib.rs:1022-1047 | appending keeps index and timestamp maps inverse, links the report to the latest undisputed time, and fails exactly for empty values, wrong nonces and repeated timestamps |
| Oracle.Oracle.RemoveValue | src/impls.rs:1170-1220 | the storage afterwards represents the same series with that report disputed: every link is again the greatest undisputed earlier time, its value is gone, and nothing else moved; it fails exactly for unknown or disputed reports and disputed runs of maximal length |
| Oracle.Oracle.RelinkFollowers | src/impls.rs:1194-1215 | the relinking loop rewrites exactly the disputed run after the report and the next undisputed one, and counts its iterations |
| Oracle.DisputeStored | src/impls.rs:1170-1220 | the rewritten links, flags and values are those of the disputed series |
| ReportLog.DisputeRelinks | src/impls.rs:1194-1214 | disputing a report changes the latest undisputed predecessor of exactly the positions that pointed at it |
| Oracle.Oracle.GetIndexForDataBeforeWithStart | src/impls.rs:692-755 | the binary search returns the greatest undisputed index before the timestamp, or none, within floor(log2(count)) + 1 probes; no lookup in it ever misses |
| Oracle.Oracle.BisectBefore | src/impls.rs:710-752 | ends at neighbours around the timestamp after at most floor(log2(width)) + 1 probes |
| Oracle.Oracle.Resolve | src/impls.rs:721-746 | a disputed candidate is replaced by the greatest undisputed index before it, through one link |
| Oracle.Oracle.GetIndexForDataBefore | src/impls.rs:680-682 | agrees with the linear scan over undisputed reports |
| Oracle.Log2IsFloor | src/constants.rs:28 | the probe bound is the floor of the binary logarithm |
| Oracle.IterationsFitWeight | src/constants.rs:28 | 32 probes suffice for any 32-bit window, which is the iteration count charged as weight |
| Oracle.Oracle.GetIndexForDataAfter | src/impls.rs:1554-1626 | whenever the search stops, it returns the least undisputed index after the timestamp, or none |
| Oracle.Oracle.BisectAfter | src/impls.rs:1576-1608 | finds the first index after the timestamp, pass by pass as the search with the saturating midpoint |
| Oracle.SearchStopsIff | src/impls.rs:1577-1608 | entered between the first and the last report, the forward search stops if and only if the index it looks for is at most 2^31 |
| Oracle.SearchHangs | src/impls.rs:1577-1608 | past that index no number of passes ends the search: the saturated midpoint keeps falling below the window |
| LongSeries.SeriesIsReached | src/lib.rs:1022-1047 | a run that reports every second reaches a series of any length |
| LongSeries.ReachedSeriesHangs | src/impls.rs:1577-1608 | a reached series of 2^31 + 2 reports on which no number of passes ends the search |
| Oracle.MidpointInWindow | src/impls.rs:1578 | while the index looked for is at most 2^31, the saturating midpoint stays in the window |
| Oracle.Oracle.GetMultipleValuesBefore | src/impls.rs:1632-1678 | whenever its forward search stops, returns exactly the last max_count undisputed values of the open time window, oldest first |
| Oracle.Oracle.CollectBackwards | src/impls.rs:1650-1667 | collects the newest undisputed timestamps and skips disputed ones without counting them |
| Oracle.WindowByLookups | src/impls.rs:1638-1649 | the linear window scan equals the undisputed reports between the two lookups' answers |
| ReportStore.SubmitValue | src/lib.rs:979-1068 | series and staker record change together or not at all, under the exact condition on value, nonce, time, stake and lock; value and nonce are checked before the stake and the lock, a repeated timestamp after them |
| StakingStore.StakingStore.RecordReport | src/lib.rs:992-1021 | a report succeeds if and only if the reporter has n >= 1 whole stakes and more than 12 hours divided by n have passed since its last report |
| StakingReports.UnlockedIff | src/lib.rs:1002-1014 | the lock in thousandths, divided by the number of stakes, is over exactly when the seconds since the last report times the whole stakes exceed 12 hours |
| StakeTerms.SubmitTerms | src/lib.rs:979-1068 | a report is accepted if and only if it has a value, the next nonce or none, a time of its own, a whole stake behind it and the lock over; then it is appended and counted and nothing else changes |
| TipStore.TipStore.Tip | src/lib.rs:879-952 | merges into the last tip while no report followed it, otherwise appends with the running sum; a failed transfer undoes everything |
| TipStore.TipStore.Bisect | src/impls.rs:779-791 | both binary searches over tips return the last tip stamped no later than the given time, as a scan would |
| TipStore.TipStore.GetOnetimeTipAmount | src/impls.rs:763-850 | succeeds with an amount if and only if the claimer made the undisputed report more than 12 hours ago, the last tip stamped no later is unspent and after the undisputed reports before it, and the amount is what the report earns; uses up exactly that tip |
| TipClaims.EligibleIff | src/impls.rs:768-803 | the checks pass for report i and tip m exactly when the claimer is the reporter of i, i is undisputed and 12 hours old, and m is the last tip stamped no later, unspent and after every earlier undisputed report |
| TipClaims.EarnsIff | src/impls.rs:804-848 | what a claim pays is the deposits from the first tip after every earlier undisputed report, save that a search past disputed reports starts at tip 1 |
| TipClaims.ClaimOneIff | src/impls.rs:763-850 | one claim succeeds exactly when it can, with what it earns, and uses up its tip |
| TipClaims.BatchIs | src/lib.rs:677-685 | a successful batch names only reports the caller can claim, none twice, pays what they earn together, and uses up exactly their tips |
| TipClaims.BatchSucceeds | src/lib.rs:677-685 | a batch of reports that the caller can claim, none named twice, is claimed for what they earn |
| PaymentTerms.ClaimTipsTerms | src/lib.rs:666-708 | in every reachable state a claim of tips succeeds if and only if the query was tipped, each timestamp is an undisputed report of the caller more than 12 hours old whose tip is unspent, none is named twice, and the fee can be accrued; it pays the caller the amount less the fee and changes only the tips used up and the listing |
| PaymentTerms.TipTerms | src/lib.rs:879-952 | a tip succeeds if and only if the tipper has the positive amount; it joins the last tip while that was stamped after every undisputed report, and is a new tip otherwise |
| TipStore.TipStore.EarlierTips | src/impls.rs:804-846 | adds the tips left unearned by disputed reports, from running sums |
| TipStore.TipStore.ClaimOnetimeTip | src/lib.rs:666-708 | the batch pays the reporter the sum of what its reports earn, each claimable by it, less the fee and the stakers the fee, or fails and changes nothing |
| TipStore.PayReporter | src/lib.rs:686-698 | the fee goes to the staking rewards and the rest to the reporter, both or neither |
| TipBook.ClaimPaysEarned | src/impls.rs:779-848 | a claim pays exactly the deposits of a range of tips ending at the matched one, and that is every tip stamped in (previous undisputed report, report] if and only if the first tip is not omitted |
| TipBook.EarnedIsRange | src/impls.rs:779-848 | the tips earned by a report form an index range |
| TipBook.FirstPaidIsFirst | src/impls.rs:817-833 | the second search finds the first earned tip, except when it starts past tip 0 |
| TipBook.SumOverRange | src/impls.rs:834-843 | a difference of running sums is the sum of the deposits in between |
| TipHistory.EligibleIsFresh | src/impls.rs:768-797 | a report that can be claimed was never claimed, and none of the tips it earns was ever paid |
| TipHistory.DisjointIntervals | src/impls.rs:793-796 | the intervals earned by two undisputed reports are disjoint |
| TipHistory.ClaimPaysOnce | src/impls.rs:763-850 | every successful claim pays exactly the deposits of a range of tips, none of which was paid before, and keeps the tip invariant |
| TipHistory.ClaimAllPaysOnce | src/lib.rs:677-685 | over a batch, all single payments of tips together are the newly paid tips, each once and none paid before |
| TipHistory.PaidWithinDeposited | src/impls.rs:763-850 | the deposits paid never exceed the deposits made |
| TipHistory.TipKeepsTips | src/lib.rs:889-943 | a new tip adds its amount to the deposits, leaves every paid tip alone and makes the current tip positive |
| TipHistory.DisputeKeepsTips | src/lib.rs:1149-1155 | a report recent enough to be disputed was never claimed, so disputes keep the tip invariant |
| TipHistory.SubmitKeepsTips | src/lib.rs:1023-1047 | a new report keeps the tip invariant |
| TipHistory.ClaimedIntervalIsClosed | src/impls.rs:793-796 | a tip in the interval of a claimed report, paid or not, is never earned by another claim |
| OmittedTip.FirstTipOmitted | src/impls.rs:817-833 | a run whose last claim earns tips of twelve and is paid seven |
| TipHistory.DisputeRevivesTipIff | src/impls.rs:517-536 | a dispute makes a tip current again exactly when it removes the latest undisputed report and the last tip is unspent and stamped between that report and the undisputed one before |
| Listing.ListingLostIff | src/lib.rs:699-701 | from a reachable state in which the list of queries with funding does not miss a query, a successful call makes it miss the query if and only if it is a first dispute that revives the tip of the unlisted query |
| Listing.NeverMissedIff | src/lib.rs:945-947 | over a run the list never misses a query if and only if no successful call meets that guard |
| TipRuns.ListMissesQuery | src/lib.rs:699-701 | a run after which the current tip is 7 and the query is not on the list |
| FeedRewards.BigEndianConcat | src/types.rs:216-229 | the leading bytes of a value count for 256 per byte that follows |
| Feeds.BytesToU256 | src/types.rs:216-229 | decodes big-endian bytes, and fails exactly when the number exceeds 256 bits |
| FeedStore.FeedStore.SetupDataFeed | src/lib.rs:819-870 | which parameters are refused and in which order; the new feed starts with the funded amount |
| FeedStore.FeedStore.FundFeed | src/impls.rs:153-178 | funding adds to the balance, lists the feed as funded and credits the funder, or fails and changes nothing |
| FeedStore.FeedStore.DoGetRewardAmount | src/impls.rs:187-262 | succeeds with an amount if and only if the report is undisputed, unclaimed and less than four weeks old and that amount is due: in the window, the reward grown from the start of the interval; outside it, the flat reward for a value that moved by more than the threshold; at most the balance |
| FeedStore.FeedStore.GetPriceChange | src/impls.rs:211-242 | the price change from the previous undisputed value, clamped to 16 bits |
| FeedRewards.RewardIffDue | src/impls.rs:187-262 | the same over the reports of the query: a report is rewarded exactly when an amount is due, and with that amount |
| FeedRewards.EarnsIs | src/impls.rs:243-256 | the first undisputed report of its interval, inside the window, earns reward + increase * (t - start of the interval), up to the balance type; any other earns the reward if and only if its value moved by more than the threshold |
| FeedRewards.MoveIs | src/impls.rs:211-242 | the move is change with change * v2 <= 10000 * difference < (change + 1) * v2, up to 16 bits, and is defined exactly when both values decode and the difference does not overflow |
| FeedRewards.ClaimPaysDue | src/lib.rs:733-763 | a successful claim pays the sum of what is due for its reports, all made by the caller more than 12 hours ago and named once, up to the balance, which all but the last leave unexhausted |
| FeedRewards.DueIsPaid | src/lib.rs:733-763 | and every such batch is paid |
| FeedRewards.ViewIs | src/impls.rs:975-994 | the view is the sum of what is due for the reports, nothing where nothing is, up to the balance and less the fee |
| PaymentTerms.ClaimFeedTerms | src/lib.rs:717-787 | in every reachable state a claim succeeds if and only if the feed has a balance, every report is due to the caller, all but the last leave some of it, and the fee can be accrued; the feed loses the amount, the reports are claimed, and the caller gets it less the fee |
| PaymentTerms.SetupFeedTerms | src/lib.rs:819-870 | a feed is set up if and only if it is new, has a reward and a window shorter than its interval, and is funded by someone who has the amount |
| PaymentTerms.FundFeedTerms | src/impls.rs:153-178 | a feed is funded if and only if it exists and the funder has the positive amount, which then is in the feed |
| FeedRewards.FeeIs | src/lib.rs:686-690 | the fee of a claim is the given thousandths of the amount, rounded down |
| PaymentTerms.PayClaimIff | src/lib.rs:686-698 | a claim is paid exactly when the tips account holds the amount and the fee, at most the amount, can be accrued; the fee goes to the staking account and the rest to the reporter |
| FeedStore.FeedStore.ClaimBatch | src/lib.rs:733-763 | the cumulative reward, capped by the balance only at the last timestamp, with every report marked as claimed |
| FeedStore.FeedStore.ClaimTip | src/lib.rs:717-787 | the feed loses exactly the amount paid, and stays listed as funded exactly while its balance is positive |
| FeedStore.FeedStore.GetRewardAmount | src/impls.rs:975-994 | the view sums the rewards of the first MaxClaimTimestamps reports that would succeed, capped and less the fee |
| Feeds.ClaimAgreesWithView | src/impls.rs:975-994 | the amount of a successful claim less its fee is what the view returned before, cap included |
| Guarantees.ClaimPaysTheView | src/lib.rs:767-778 | a successful claim raises the reporter's balance by exactly what the view returned before it |
| Feeds.ClaimedOnce | src/lib.rs:733-763 | a successful claim names no report twice and none claimed before |
| Feeds.ClaimKeepsFeed | src/impls.rs:202-256 | a claim pays only settled, undisputed reports and keeps the feed invariant |
| Feeds.OneWindowPaymentPerInterval | src/impls.rs:243-256 | at most one report per feed interval is ever paid by the window rule |
| Feeds.OnePaymentPerIntervalWithoutThreshold | src/impls.rs:202-256 | with no price threshold at most one report per interval is ever paid at all |
| Feeds.DisputeKeepsFeed | src/lib.rs:1149-1155 | a dispute never touches a paid report and never reopens its interval |
| Shares.ConvertScales | src/impls.rs:72-91 | converting a stake multiplies it by 10^decimals / 10^18 and rounds down |
| Shares.ConvertSuperAdditive | src/impls.rs:72-91 | converting stakes separately gives at most the conversion of their sum |
| Shares.ShareSuperAdditive | src/impls.rs:1428-1435 | the floors of two shares sum to at most the floor of the joint share |
| Shares.ShareMonoAcc | src/impls.rs:1370-1375 | shares grow with the reward per share |
| Shares.ShareNearlyAdditive | src/impls.rs:1428-1435 | the share of a sum exceeds the sum of the shares by at most one unit, or with fewer than 18 decimals by two units and the share of one converted unit |
| Shares.PendingShare | src/impls.rs:1377-1401 | sharing out what is left raises the total share by at most what is left |
| Solvency.OwedWithinShare | src/impls.rs:1370-1376 | what all stakers are owed together is at most the total share less the total debt |
| Solvency.DebtsWithinShares | src/impls.rs:1428-1435 | no debt exceeds its share and the total debt not the total share, so the subtractions never underflow |
| Solvency.AccrualKeeps | src/impls.rs:1344-1410 | accrual, capped when rewards run out, keeps every staker covered |
| Rewards.AccrualIs | src/impls.rs:1344-1410 | with T the converted total stake and U the unit: while the account holds more than is then unpaid, the reward per share rises by r with r * T <= seconds * rate * U < (r + 1) * T; else by r with r * T <= free * U < (r + 1) * T, free being what the account holds beyond what was unpaid, and the rate ends; both up to the balance type |
| Rewards.AccruesIff | src/impls.rs:1344-1410 | accrual succeeds exactly when there is such a state |
| Rewards.AccruesOnce | src/impls.rs:1344-1410 | and there is only one |
| Rewards.AddedRewardsSpread | src/impls.rs:116-145 | added rewards are counted before the accrual, and what is free afterwards over 30 days, rounded down, is the new rate |
| Rewards.AddRewardsIff | src/impls.rs:116-145 | adding rewards succeeds exactly when the source has them, the accrual with them goes through and no more is unpaid than is in the account |
| StakeTerms.AddRewardsTerms | src/lib.rs:959-969 | over the pallet: exactly when rewards can be added, and the whole new state |
| Rewards.RewardIs | src/impls.rs:1426-1458 | with what is owed and the votes opened and cast since staking: the reward is all of it if there were no votes or all were cast, else r with r * votes <= owed * cast < (r + 1) * votes; it fails exactly when the debt exceeds the share or stored counts are ahead |
| Rewards.StakeChangePays | src/impls.rs:1418-1533 | a stake change pays exactly that reward at the accrued reward per share, from the staking account, moves no other account, and starts a new rate when none is left |
| StakeTerms.DepositTerms | src/lib.rs:1323-1375 | over the pallet: a deposit raises the staker's balance by exactly its reward, and the staker's whole record and the amount to withdraw afterwards |
| StakeTerms.RequestTerms | src/lib.rs:1384-1420 | the same for a withdrawal request, which restarts the week of waiting |
| StakeTerms.SlashTerms | src/lib.rs:1477-1550 | the same for a slash beyond the lock; one within it changes only the lock |
| StakeTerms.WithdrawnTerms | src/lib.rs:1429-1469 | a withdrawal completes if and only if there is a lock, seven days have passed, the amount to withdraw covers the lock and the lock the amount |
| Solvency.AccrualFailsIff | src/impls.rs:1376-1401 | exactly when accrual fails: the totals leave more unpaid than is in the account, or the reward per share overflows |
| Solvency.ShortfallIsDust | src/impls.rs:1370-1376 | what the totals leave unpaid exceeds what the stakers are owed by at most `Shares.Dust` per staker |
| Solvency.AccrualFailsForDust | src/impls.rs:1376-1391 | an accrual that underflows leaves less in the account, beyond what the stakers are owed, than `Shares.Dust` per staker |
| Solvency.AccrualResumes | src/impls.rs:1376-1391 | an account that covers what is owed and gets `Shares.Dust` per staker more accrues without underflow |
| Scenarios.DustStopsAccrual | src/impls.rs:1376-1391 | a run after which no staker is owed anything, a unit is left, the accrual fails, and adding one unit fails while adding two succeeds |
| Solvency.PendingIsFunded | src/impls.rs:1426-1458 | the reward paid, discounted for missed votes, is at most what is owed |
| Solvency.UpdateStakeKeeps | src/impls.rs:1418-1533 | a stake change keeps totals, debts and solvency, up to what a clamped debt cuts off |
| Solvency.UpdateStakeFailsIff | src/impls.rs:1418-1533 | in a solvent state a stake change fails exactly when accrual fails, vote counts are ahead of the pallet's, or the reward rate cannot be restarted |
| Counters.RunKeepsBehind | src/impls.rs:1437-1449 | in every run no staker's stored vote counts are ahead of the pallet's |
| Counters.StakeChangeFailsIff | src/impls.rs:1418-1533 | in a reachable solvent state a stake change fails exactly when accrual fails or the reward rate cannot be restarted |
| Solvency.ShortAfterIsDust | src/impls.rs:1511-1531 | a reward rate that cannot be restarted is a shortfall of rounding dust |
| StakingReports.SettledIffDebtFits | src/impls.rs:1487-1495 | after a stake change the staker is owed nothing if and only if, before it, the new stake's share at the accrued reward per share fits a balance |
| Scenarios.ClampedRunIsInsolvent | src/types.rs:211-213 | a run of four calls after which a staker who was just settled is owed more than the staking account holds |
| StakingReports.DepositKeeps | src/lib.rs:1332-1372 | a deposit uses the locked balance first, adds the whole amount to the stake, and keeps solvency and totals |
| StakingReports.RequestKeeps | src/lib.rs:1393-1417 | a request moves the amount from stake to lock and keeps solvency and totals |
| StakingReports.WithdrawnKeeps | src/lib.rs:1437-1466 | the amount to withdraw falls by the whole lock while the lock falls by the reported amount |
| StakingReports.SlashKeeps | src/lib.rs:1485-1547 | stake and lock together fall by exactly min(amount, stake + lock), the lock first |
| StakingReports.AddRewardsKeeps | src/impls.rs:116-145 | adding rewards moves exactly the amount and keeps solvency |
| StakingReports.RecordReportKeeps | src/lib.rs:992-1021 | reporting changes no staker's stake, debt or lock, counts one report, and keeps solvency |
| StakingStore.StakingStore.UpdateRewards | src/impls.rs:1344-1410 | the accrual in place: exactly what the seconds since the last one add while rewards flow, and all that is free when they run out; no write before any of its failures |
| StakingStore.StakingStore.AddStakingRewards | src/impls.rs:116-145 | transfer, accrual with the added rewards and a new rate of all that is free over 30 days, or nothing |
| StakingStore.StakingStore.UpdateStakeAndPayRewards | src/impls.rs:1418-1533 | accrual, payment of exactly the staker's reward and its return to the totals, in the code's order of writes |
| StakingStore.StakingStore.VotingReward | src/impls.rs:1427-1457 | the reward is what is owed, or the share of it, rounded down, of the votes cast among those opened since staking; and exactly when it fails |
| StakingStore.StakingStore.ReportStakeDeposited | src/lib.rs:1323-1375 | the deposit in place, undone as a whole on failure |
| StakingStore.StakingStore.ReportStakingWithdrawRequest | src/lib.rs:1384-1420 | the request in place, undone as a whole on failure |
| StakingStore.StakingStore.ReportStakeWithdrawn | src/lib.rs:1429-1469 | the completed withdrawal in place, exactly when it has waited seven days and lock and amount to withdraw suffice; undone as a whole on failure |
| StakingStore.StakingStore.ReportSlash | src/lib.rs:1477-1550 | all three slashing branches in place, undone as a whole on failure |
| StakingReports.StakeIgnoresWithdrawals | src/lib.rs:1515-1542 | the branches may lower the amount to withdraw before or after the stake change |
| GovernanceStore.GovernanceStore.BeginDispute | src/lib.rs:1097-1270 | opening a round changes governance, series and ledger together or not at all |
| GovernanceStore.GovernanceStore.OpenFirstRound | src/lib.rs:1149-1190 | the first round needs a recent undisputed report, removes the value, and costs the dispute fee times 2 to the number of open disputes |
| GovernanceStore.GovernanceStore.OpenFurtherRound | src/lib.rs:1191-1212 | a further round is possible if and only if the previous one exists, was tallied less than a day ago and is unexecuted; its fee is the dispute fee times 2 to the number of rounds before it |
| GovernanceStore.GovernanceStore.DoVote | src/impls.rs:361-411 | one vote per account and round, with its report and tip weights, only before the round is sent or tallied |
| GovernanceStore.GovernanceStore.DoSendVotes | src/impls.rs:268-318 | sends at most max due rounds in schedule order; a failed send stays pending and stops nothing |
| GovernanceStore.GovernanceStore.TallyVotes | src/impls.rs:1249-1290 | the last round is tallied if and only if it is untallied and as many days old as there are rounds, at most six; it gets exactly the given result and the time |
| GovernanceStore.GovernanceStore.ExecuteVote | src/impls.rs:417-488 | execution marks the last round, lowers the open count and pays all rounds, if and only if that round was tallied a day ago and is unexecuted; otherwise it does nothing |
| GovernanceStore.GovernanceStore.PayFees | src/impls.rs:454-480 | the fee loop, last round first: with the fees in the account, all go to the disputed reporter if the dispute failed, and else to whoever opened each round |
| Disputes.BeginOpens | src/lib.rs:1121-1226 | a successful dispute call opens exactly the next round; its fee is the dispute fee times 2 to the number of open disputes about the query, for a further round to the number of rounds, and at most ten dispute fees |
| DisputeTerms.BeginTerms | src/lib.rs:1097-1270 | a dispute call succeeds if and only if the caller may dispute, the report exists and its reporter has a stake record, a first report is undisputed, less than 12 hours old and not before too long a disputed run, a further round follows one tallied less than a day ago and unexecuted, fewer than 20 rounds exist, and the fee is there; then the whole new state |
| DisputeTerms.VoteTerms | src/impls.rs:361-411 | a vote counts if and only if the last round is untallied, unsent and not yet voted in by the account; it adds the account's reports and tips to exactly the chosen side |
| DisputeTerms.SendTerms | src/impls.rs:268-318 | exactly the delivered ones of the first max due disputes have their last round sent and stop being pending |
| DisputeTerms.TallyTerms | src/impls.rs:1249-1290 | over the pallet: the exact condition of a tally, the result it stores and nothing else |
| DisputeTerms.ExecuteTerms | src/impls.rs:417-488 | over the pallet: the exact condition of an execution, and where every fee goes |
| Disputes.OpenKeeps | src/lib.rs:1121-1226 | opening keeps contiguous rounds, counters, pending votes and the fee escrow |
| Disputes.VoteKeeps | src/impls.rs:361-411 | voting keeps the governance invariant |
| Disputes.TallyKeeps | src/impls.rs:1249-1286 | tallying keeps the governance invariant |
| Disputes.SendOneKeeps | src/impls.rs:279-315 | sending keeps the governance invariant and removes exactly the sent dispute from the pending votes |
| Disputes.PayRoundsPays | src/impls.rs:454-480 | with the escrow in place every fee is paid, the disputed reporter gains all of them if the dispute failed, otherwise each user those of the rounds it opened, and no other account moves |
| Disputes.FailedPaysReporter | src/impls.rs:467-479 | executing a failed dispute pays the fees of all rounds to the disputed reporter, and nothing to anyone else |
| Disputes.OthersPayInitiators | src/impls.rs:467-479 | executing a passed or invalid dispute pays each user the fees of exactly the rounds it opened |
| Disputes.ExecutableIff | src/impls.rs:417-450 | a dispute is executable if and only if its last round was tallied at least a day ago and is unexecuted |
| Disputes.TallyIff | src/impls.rs:1249-1286 | the exact condition of a tally and the vote it leaves |
| Disputes.ExecuteKeeps | src/impls.rs:417-488 | execution succeeds exactly when the dispute is executable; it empties the dispute's escrow, to the disputed reporter if it failed and else to whoever opened each round |
| Disputes.OpenOrExecute | src/lib.rs:1195-1207 | opening a further round and executing are never both possible, and neither is possible after execution |
| Ballots.VoteKeepsBallots | src/impls.rs:361-411 | each tally stays the sum of the weights of distinct voters for that choice |
| Ballots.SendFirstKeeps | src/impls.rs:268-318 | a batch of sends sends each round at most once, with the tally the round still has |
| Ballots.SendFirstSends | src/impls.rs:279-315 | every round of a batch that can be sent is sent |
| Freezing.CallKeepsFrozen | src/impls.rs:378-383 | no call changes the tallies of a sent or tallied round, or the result of a tallied one |
| Freezing.RunKeepsFrozen | src/impls.rs:378-383 | nor does any sequence of calls |
| Runs.ClaimTipsKeeps | src/lib.rs:666-708 | a claim of tips keeps the whole pallet's invariant |
| Runs.ClaimFeedKeeps | src/lib.rs:717-787 | a claim of feed rewards keeps the whole pallet's invariant |
| Runs.PayClaimPays | src/lib.rs:767-779 | a claim debits the tips account by exactly the reporter's payout plus the fee |
| Runs.BeginKeeps | src/lib.rs:1097-1270 | a dispute keeps the whole pallet's invariant: tips, feeds, rounds and the report's disputed flag |
| Runs.ExecuteKeeps | src/impls.rs:417-488 | an execution keeps the whole pallet's invariant and is recorded once |
| Runs.ApplyKeeps | src/lib.rs:602-1583 | every successful call keeps the whole pallet's invariant |
| Runs.RunKeeps | src/lib.rs:602-1583 | the invariant holds after every sequence of calls, failed ones rolled back |
| Guarantees.TipsPaidAtMostOnce | src/impls.rs:763-850 | in every reachable state no tip of any query was paid twice, what was paid out is the sum of the paid tips' deposits, and that is at most what was tipped |
| Guarantees.TipsAccountCovers | src/lib.rs:677-779 | in every reachable state the tips account covers all feed balances and all unpaid tips |
| Guarantees.TipClaimsAreFunded | src/lib.rs:677-698 | in every reachable state a batch of claims that passes its checks never lacks funds |
| Guarantees.FeedsPayOncePerInterval | src/impls.rs:202-256 | in every reachable state a feed has paid at most one report per interval by the window rule, and is listed as funded exactly when its balance is positive |
| Guarantees.StakersAreCovered | src/impls.rs:1344-1533 | in every reachable state totals are sums over stakers, debts stay below shares, and the staking account covers what is owed up to clamped debts |
| Coverage.StakeChangeCoversIff | src/impls.rs:1418-1533 | from a solvent state a stake change stays solvent if and only if, after the accrual, what the others are owed and what the new debt cuts off is within what the payment leaves |
| Coverage.SolvencyLostIff | src/impls.rs:1487-1495 | from a reachable solvent state a successful call leads to insolvency if and only if that guard fails before the call |
| Coverage.AlwaysCoveredIff | src/impls.rs:1487-1495 | a run stays solvent throughout if and only if each successful call meets the guard |
| Coverage.FittingCallsCover | src/impls.rs:1487-1495 | a call whose new debt fits a balance meets the guard |
| Guarantees.SolventUnlessClamped | src/impls.rs:1344-1533 | in every run whose stake changes fit beforehand the staking account covers everything owed |
| Guarantees.CutsNothingIffFits | src/impls.rs:1487-1495 | a successful call cuts nothing off a reward debt if and only if, before it, the share of the stake it sets fits a balance |
| Guarantees.NothingCutIff | src/impls.rs:1487-1495 | a run cuts nothing off if and only if each successful stake change of the run fits beforehand |
| Guarantees.ToWithdrawIff | src/lib.rs:1453-1462 | the amount to withdraw is the sum of all locks if and only if every withdrawal of the run reported the whole lock |
| Guarantees.StrandedIff | src/lib.rs:1453-1462 | a staker's lock exceeds the amount to withdraw exactly when withdrawals left more locked than all others have; then no withdrawal succeeds, nor any slash beyond the amount to withdraw |
| Scenarios.PartialWithdrawalStrands | src/lib.rs:1453-1462 | a run after which nine locked tokens can be neither withdrawn nor slashed |
| Guarantees.DisputesAreSound | src/lib.rs:1121-1217 | in every reachable state the dispute account covers the fees of all unexecuted disputes, no dispute was executed twice, rounds are contiguous, a further round and an execution exclude each other, counters are exact, and a report is disputed exactly when its dispute has a round |
| Guarantees.NeverBeginAndExecute | src/lib.rs:1195-1207 | in every reachable state a dispute that can be begun anew cannot be executed |
| Guarantees.VotesAreSound | src/impls.rs:268-411 | in every reachable state tallies are sums over distinct voters, each sent round has one message with its final tally, and pending votes are exactly the unsent last rounds |
| Guarantees.TalliesStayFrozen | src/impls.rs:378-383 | from every reachable state, every continuation leaves the tallies of a sent or tallied round unchanged |
| Guarantees.VotesSentIffDue | src/impls.rs:268-315 | in every reachable state a full batch sends a pending round if and only if it started at least 11 hours ago, also after its voting period |
| TipRuns.VoteSentAfterItsPeriod | src/impls.rs:268-315 | a run in which a first round is sent two days after its start |

## Left out

- Message construction, encoding and weighing for the controlling chains: a send of votes succeeds or fails by a parameter; a dispute or registration message that fails to send is a failed call, which changes nothing.
- Query data, hashes, origins, events, weights, block numbers and registration: identifiers are tuples or numbers, and callers are given.
- Price lookups behind the stake amount and the dispute fee: both change arbitrarily between calls (`SetParameters`), and their range checks are not modelled.
- The asset pallet's existential deposit, preservation rules and reaping: a transfer fails only for missing funds.
- Solvency.AccrualFailsIff: leaves out failures by 256-bit overflow, as the other share computations do, whose products are unbounded numbers.
- Solvency.UpdateStakeFailsIff: leaves out failures by 256-bit and 128-bit overflow, and so does Counters.StakeChangeFailsIff.
- Overflow errors of 128-bit and 256-bit sums, products and exponentiation outside the modelled ones (reward increase, price change, reward per share): they only turn a success into a failure.
- Saturating additions to tips, feed balances, tallies, dispute fees and report counters: these are unbounded numbers here, so amounts near the 128-bit limit are not covered.
- Limits on the length of claim batches, votes and values: batches of any size are covered.
- Votes on several disputes in one call, and the hook that sends votes every block: they are sequences of modelled calls, except that a failing vote undoes the ones before it.
- Oracle.Oracle.GetIndexForDataAfter: requires that the search stops, with the exact condition `Oracle.SearchEnds`, because outside it the code loops forever and returns nothing; the report count is a 32-bit number. Oracle.Oracle.BisectAfter and Oracle.Oracle.GetMultipleValuesBefore inherit this.
- GovernanceStore.GovernanceStore.DoSendVotes: the order of votes due at the same time is storage order, here any order sorted by schedule.
- Guarantees.StakersAreCovered: bounds the shortfall of an insolvent pallet by what clamped debts cut off, without being equal to it; when a pallet becomes insolvent is exact (`Coverage.SolvencyLostIff`).
- Guarantees.SolventUnlessClamped: a sufficient condition; the exact one is `Coverage.AlwaysCoveredIff`.
- The storage classes hold one query, one feed or one component each, where the pallet keeps maps keyed by query and feed; `Pallet.State` has the maps.
