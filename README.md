# Silence and MutePoets vow ledgers, in Dafny

This project models two Ethereum contracts of the mutepoets repository.
In both, the holder of a Lost Poet takes a "vow of silence": the poet goes
into the contract's custody, and the holder earns the SILENCE reward token
until the vow is broken and the poet returned. Silence accepts only mute
poets (no words) that are not Origin poets; MutePoets accepts any poet its
holder sends.

The Solidity sources are not part of this model. The behaviour of both
contracts is taken from their Hardhat suites, `test/Silence.test.ts` and
`test/MutePoets.test.ts`. Every row below cites the lines that pin the
behaviour down. Time is integer seconds and amounts are integer wei
(1 SILENCE = 10^18 wei).

- `common.dfy` (module `Common`): addresses, token ids, the revert
  reasons, the `Result` type, and the registry's view of a poet (holder,
  Origin flag, word count).
- `arith.dfy` (module `Arith`): monotonicity and uniqueness facts about
  multiplication and floor division, and `Chronological`, a run of claim
  instants in time order. Both ledgers use them.
- `curve.dfy` (module `Curve`): the Silence accrual curve.
  - The rate is 1 SILENCE/day when a vow is taken and ramps linearly to
    5/day at an age of 360 days.
  - The cumulative accrual after `d` days is `d + 2d²/360` SILENCE.
  - One global emission window of 360 days opens at deployment. Nothing
    accrues after it closes.
  - The rounding is the model's own: one floor division at the end.
- `settlement.dfy` (module `Settlement`): Silence claim settlement as pure
  functions.
  - `Claimable` is `F(age(now)) - F(age(updated))`.
  - A checkpoint moves on every claim.
  - `SettleBatch` is the claim loop of `claimBatch`, as a function.
- `silence.dfy` (module `SilenceContract`): the `Silence` contract as a
  class over maps.
  - It holds the vow table, with ids from 1; the append-only per-address
    list of vow ids; the proposals; and the balances.
  - Its invariant `LedgerOk` lives on a snapshot of the state (`Ledger`).
  - Each state change is proved to keep the invariant by one
    `LedgerAfter…` lemma.
  - `RunBatch` is the claim loop as an imperative loop, proved equal to
    `SettleBatch`.
- `mute_poets.dfy` (module `MutePoetsContract`): the predecessor
  contract.
  - Vows are keyed by token id.
  - A claim pays exactly one SILENCE per whole day since the vow or the
    previous claim. The unfinished part of a day is forfeited.

Each entry point that a user calls takes the sender (`caller`) and the
block timestamp (`now`) as parameters. The token-receipt hook
`ReceiveToken` takes instead the collection, the sender and the token id
it is handed; it has no timestamp. A call that reverts returns
`Err(reason)` and leaves the state unchanged. The ghost field `clock`
records the latest timestamp seen. Every entry point with a timestamp
requires `clock <= now` and ensures the clock lies between its old value
and `now`, at `now` after a success. `ReceiveToken` leaves the clock
alone.

## Model

| member | source | states |
|---|---|---|
| Curve.Age | test/Silence.test.ts:850-918 | A vow's age never exceeds the time since its creation. It is at most 360 days, and 0 for a vow created at or after the window end. Inside the window it is exactly the time elapsed. |
| Curve.AgeMonotone | test/Silence.test.ts:850-862 | Age never decreases with time, and it is frozen from the window end on. |
| Curve.CumulativeMonotone | test/Silence.test.ts:797-844 | The accrued amount never decreases as a vow ages. |
| Curve.CurveIsIntegralOfRate | test/Silence.test.ts:691-731 | The unrounded accrual between two ages equals the elapsed time times the mean of the rates at the two ends. So the cumulative curve is the integral of the advertised rate. |
| Curve.CumulativeAtWholeDays | test/Silence.test.ts:797-835 | At a whole number of days `d`, the accrual is `WAD·d·(360+2d)/360`, with a single rounding. |
| Curve.RateAtWholeDays | test/Silence.test.ts:691-723 | At a whole number of days `d`, the rate is `WAD·(360+4d)/360` wei per day. |
| Curve.CumulativeSchedule | test/Silence.test.ts:797-835 | The accrual is exactly 0, 9.45, 135, 360, 675 and 1080 SILENCE at 0, 9, 90, 180, 270 and 360 days. |
| Curve.RateSchedule | test/Silence.test.ts:691-731 | The rate is exactly 1, 1.1, 2, 3, 4 and 5 SILENCE/day at 0, 9, 90, 180, 270 and 360 days. One second before 360 days it is within 0.001 below 5. |
| Curve.RateRamp | test/Silence.test.ts:691-731 | Within 360 days of age the rate lies between 1 and 5 SILENCE/day and never decreases. |
| Curve.AccrualRateWindow | test/Silence.test.ts:691-737 | `accrualRate` is 0 once the window has closed. Before that it is between 1 and 5 SILENCE/day. |
| Settlement.ClaimsPartition | test/Silence.test.ts:503-581 | A claim at `t` followed by a claim at `now` pays exactly what one claim at `now` pays. |
| Settlement.ClaimTwicePaysZero | test/Silence.test.ts:750-783 | Right after a claim, the vow can claim 0. |
| Settlement.NothingAfterWindow | test/Silence.test.ts:850-898 | Once the checkpoint is at or past the window end, claimable is 0. A vow taken at or after the end never accrues anything. |
| Settlement.StraddlingVow | test/Silence.test.ts:864-918 | A vow taken inside the window and claimed after its end gets exactly the curve up to the window end. |
| Settlement.LateVowTotals | test/Silence.test.ts:837-918 | Vows taken at 0, 180 and 270 days accrue exactly 1080, 360 and 135 SILENCE in all. |
| Settlement.AccruedBounded | test/Silence.test.ts:829-862 | No vow accrues more than 1080 SILENCE. |
| Settlement.FirstDayClaim | test/Silence.test.ts:583-588 | A claim one day after the vow pays exactly 1.005555555555555555 SILENCE. |
| Settlement.DayAfterClaim | test/Silence.test.ts:783-795 | One day after a claim made on day 3, the vow can claim `F(4d) - F(3d)`, which is 1.038888888888888888 SILENCE. |
| Settlement.ClaimsTelescope | test/Silence.test.ts:503-581 | Any chronological run of claims pays exactly what one claim at the last instant would pay. |
| Settlement.SmallClaimsOverHalfYear | test/Silence.test.ts:503-581 | Claims spread over a vow's first 180 days pay 360 SILENCE in all, however the time is split. |
| Settlement.SettleBatch | test/Silence.test.ts:604-635 | The only revert reason of a batch is "!tokenOwner". A successful batch keeps every vow, with only its checkpoint changed. Exactly the listed live vows move their checkpoint to `now`. |
| Settlement.BatchRevertsIff | test/Silence.test.ts:618-635 | A batch reverts if and only if one of its ids names a live vow of someone else. Ids without a vow never cause a revert. |
| Settlement.BatchTotalIsSum | test/Silence.test.ts:604-616 | With no repeated id, a successful batch pays the sum of what each vow could claim on its own. |
| Settlement.BatchRevertSticks | test/Silence.test.ts:628-635 | A batch whose prefix reverts reverts as a whole. |
| Settlement.OwnBatchSucceeds | test/Silence.test.ts:658-678 | A batch of the caller's own ids, or of ids without a vow, never reverts. With distinct ids it pays the sum of the claimables. |
| Settlement.Dedup | test/Silence.test.ts:604-635 | The ids a batch settles: no id twice, the same ids as the list, and the list itself when it has no repeats. |
| Settlement.BatchPaysEachVowOnce | test/Silence.test.ts:604-635 | A successful batch pays each vow it names exactly once, whatever repeats the list holds: its total is the sum of the claimables of the distinct ids. |
| SilenceContract.Credit | test/Silence.test.ts:417-422 | Minting raises the recipient's balance by the amount and leaves every other balance alone. |
| SilenceContract.OwnerIndexExact | test/Silence.test.ts:230-270 | An address's list of vow ids is strictly ascending. It holds every live vow the address took, and every live id in it names a vow of that address. |
| SilenceContract.IdsIssued | test/Silence.test.ts:282-286 | Every live vow id lies between 1 and `vowCount`, so the next id is never one in use. |
| SilenceContract.OneVowPerPoet | test/Silence.test.ts:321-348 | A vowed poet is a non-Origin poet in the contract's custody, and no poet backs two live vows. |
| SilenceContract.LedgerAfterTake | test/Silence.test.ts:321-366 | Opening a vow under the next id keeps the invariant. |
| SilenceContract.LedgerAfterBreak | test/Silence.test.ts:402-432 | Deleting a vow and returning its poet keeps the invariant. |
| SilenceContract.LedgerAfterSettle | test/Silence.test.ts:463-678 | Moving vow checkpoints to `now` keeps the invariant. |
| SilenceContract.LedgerAfterOriginMove | test/Silence.test.ts:954-1083 | Moving an Origin poet into or out of custody keeps the invariant. |
| SilenceContract.LedgerAfterProposals | test/Silence.test.ts:982-1083 | Adding a proposal under the next id, or consuming one, keeps the invariant. |
| SilenceContract.RunBatch | test/Silence.test.ts:604-635 | The claim loop over a copy of the vow table returns exactly `SettleBatch`. It stops with "!tokenOwner" at the first foreign vow. |
| SilenceContract.Silence.constructor | test/Silence.test.ts:282-294 | Deployment opens the window at `now`, with no vows, no proposals and zero counters. |
| SilenceContract.Silence.GetVowsByAddress | test/Silence.test.ts:230-270 | The list is ascending. It contains every live vow the address took. Each live id in it is that address's vow. |
| SilenceContract.Silence.ClaimableOf | test/Silence.test.ts:846-862 | Claimable is 0 for an id without a vow and never more than 1080 SILENCE. It is 0 once the vow has been settled past the window end. |
| SilenceContract.Silence.AccrualRateOf | test/Silence.test.ts:691-737 | The rate is 0 for an id without a vow or after the window. Otherwise it is between 1 and 5 SILENCE/day. |
| SilenceContract.Silence.TakeVow | test/Silence.test.ts:282-366 | Succeeds if and only if the poet exists, the caller holds it and it is mute and not Origin. Otherwise it reverts "nonexistent token", "!tokenOwner" or "!mute", with no effect. On success it records `(caller, tokenId, now, now)` under `vowCount + 1`, an id above every id in use. It moves the poet into custody, appends the id to the caller's list, increments `vowCount` and keeps the invariant. The clock moves to `now` on success and stays put on a revert. |
| SilenceContract.Silence.BreakVow | test/Silence.test.ts:390-432 | Succeeds if and only if the id names a live vow the caller took. Otherwise it reverts "!vow" or "!tokenOwner", with no effect. On success it pays exactly what was claimable and deletes the record, so the getter reads all zeros. It returns the poet to the caller and keeps the caller's id list. The clock moves to `now` on success and stays put on a revert. |
| SilenceContract.Silence.Claim | test/Silence.test.ts:451-501 | Succeeds if and only if the id names a live vow the caller took. Otherwise it reverts "!vow" or "!tokenOwner", with no effect. On success it pays exactly what was claimable and moves the checkpoint forward to `now`, leaving 0 claimable. Nothing else changes. The clock moves to `now` on success and stays put on a revert. |
| SilenceContract.Silence.SettleIds | test/Silence.test.ts:604-678 | On a copy of the table: it reverts with nothing changed exactly when `SettleBatch` does. Otherwise it commits `SettleBatch`'s table and credits its total. The clock moves to `now` on success and stays put on a revert. |
| SilenceContract.Silence.ClaimBatch | test/Silence.test.ts:604-635 | Reverts "!tokenOwner", with no effect, if and only if some id names another holder's live vow. Otherwise only the listed vows' checkpoints move, and never backwards. It pays the sum of the claimables of the distinct listed ids, so a repeated id is paid once. The clock moves to `now` on success and stays put on a revert. |
| SilenceContract.Silence.ClaimAll | test/Silence.test.ts:658-678 | Never reverts. It pays the sum of the claimables of the ids in the caller's list, skipping broken vows. It moves the checkpoint of exactly the caller's live vows. The clock moves to `now`. |
| SilenceContract.Silence.ReceiveToken | test/Silence.test.ts:929-967 | Succeeds if and only if the token is a poet of the registry, held by the sender, and an Origin poet. Otherwise it reverts "!poet" for another collection; the registry's "nonexistent token" or custody refusal; or "!origin" for a non-Origin poet. On success it takes the poet into custody, with nothing else changed. The clock is left alone. |
| SilenceContract.Silence.ProposeTransfer | test/Silence.test.ts:974-1016 | Reverts for anyone but the owner, and only then. Otherwise it stores `(to, tokenId, now + 7 days)` under `proposalCount + 1` and increments `proposalCount`. The clock moves to `now` on success and stays put on a revert. |
| SilenceContract.Silence.ExecuteTransfer | test/Silence.test.ts:1035-1083 | Succeeds if and only if the owner calls, the proposal exists, its timelock has passed, and its token is an Origin poet in custody. Otherwise it reverts for a non-owner; "!proposal" for an absent id, id 0 included; "timelock" before the unlock time; "!origin" for a non-Origin token; or the registry's custody refusal when the contract does not hold the poet. On success it moves the poet to the recipient and consumes the proposal. The clock moves to `now` on success and stays put on a revert. |
| MutePoetsContract.DailyPayout | test/MutePoets.test.ts:160-182 | A claim pays a whole number of SILENCE: the number of whole days elapsed, rounded down. |
| MutePoetsContract.PartialDayPaysNothing | test/MutePoets.test.ts:175-182 | A claim less than a day after the vow's instant pays exactly 0. |
| MutePoetsContract.OneDayPaysOne | test/MutePoets.test.ts:160-173 | A claim one day (and less than two) after the vow's instant pays exactly one SILENCE. |
| MutePoetsContract.DaysSplit | test/MutePoets.test.ts:175-182 | Splitting a stretch of time in two loses less than one whole day: the parts' whole days add up to the stretch's, or to one less. |
| MutePoetsContract.DailyClaimsBounds | test/MutePoets.test.ts:160-182 | Any chronological run of claims pays at most one SILENCE per whole day from the vow to the last claim, and less than one SILENCE per claim short of that. |
| MutePoetsContract.DailySchedule | test/MutePoets.test.ts:160-173 | A claim within a day of the vow, then claims each one day (and less than two) after the previous, bring the balance to exactly 0, 1, 2 and 3 SILENCE. |
| MutePoetsContract.RoundsDownSchedule | test/MutePoets.test.ts:175-182 | A claim within a day of the vow and a second less than a day after it pay 0 in all, in particular claims one second and one day after the vow. |
| MutePoetsContract.MutePoets.constructor | test/MutePoets.test.ts:66-70 | Deployment records the Lost Poets registry address and the contract's own address. It starts with no vows and no balances, and the clock at the deployment time. |
| MutePoetsContract.MutePoets.TakeVow | test/MutePoets.test.ts:88-113 | Succeeds if and only if the poet exists and the caller holds it. Otherwise it reverts with no effect. On success it moves the poet into custody and records `vows[tokenId] = (caller, now)`, under the token id. The clock moves to `now` on success and stays put on a revert. |
| MutePoetsContract.MutePoets.BreakVow | test/MutePoets.test.ts:125-140 | Succeeds if and only if the token has a vow the caller created. Otherwise it reverts "!vow" or "!owner", with no effect. On success it deletes the vow and returns the poet to its creator. The clock moves to `now` on success and stays put on a revert. |
| MutePoetsContract.MutePoets.Claim | test/MutePoets.test.ts:152-182 | Succeeds if and only if the token has a vow the caller created. Otherwise it reverts "!vow" or "!owner", with no effect. On success it credits the caller exactly one SILENCE per whole day since the vow's instant and restarts the count at `now`. Other balances are untouched. The clock moves to `now` on success and stays put on a revert. |

## Left out

- Events (`TakeVow`, `BreakVow`, `Claim`, `ClaimBatch`, `ProposeTransfer`) are not modelled. Neither are the ERC20 name, symbol and decimals.
- The Lost Poets registry, the page sale, minting, `addWord` and approvals are external contracts. The model keeps only the registry's view of each poet (holder, Origin flag, word count), and the custody moves the ledgers make through it.
- The SILENCE balance is a plain credit map. Transfers and allowances of the reward token are not modelled.
- Block timing (one second per mined block, `evm_increaseTime`) is not modelled: `now` is a parameter.
- Curve.Cumulative: the model rounds down once, at the end, and may sit a few wei above the deployed contract. The suite's expected values look like the deployed outputs to the wei, and some are 1 to 3 wei lower: 3.049999999999999999 at test/Silence.test.ts:778, where the model gives 3.05. The model matches the exact 1.005555555555555555 of the first-day claim.
- SilenceContract.Silence.AccrualRateOf: the suite expects a rate close to 5 SILENCE/day 360 days minus one second after a vow taken a few blocks after deployment. The model's 360-day window from deployment has already closed at that instant, so the model gives 0 there. The window and the amounts follow the suite's other cases ("accrual stops after 360 days", "up to end of silent era").
- SilenceContract.Silence.Claim: the checkpoint moves to `now` even after the window end, rather than to the window end. Ages are clamped at the window end, so every amount is the same.
- SilenceContract.Silence.TakeVow: Origin poets are refused with "!mute", like poets with words. The suite shows only the word case. A poet already under a vow is in the contract's custody, so its holder check refuses it with "!tokenOwner". There is no separate duplicate-deposit error.
- SilenceContract.Silence.ProposeTransfer: no check on the token is made when proposing. The suite proposes a non-Origin token and only `executeTransfer` refuses it.
- Silence: the ghost map `vowOf` (poet to vow id) is bookkeeping of the model, not contract state.
- Silence: the total paid to a vow over its life is not a contract field. It is stated by the value-level lemmas `ClaimsTelescope` and `LateVowTotals`.
- MutePoetsContract.MutePoets.BreakVow pays nothing. The suite shows no payout when a vow is broken.
- MutePoetsContract.MutePoets.TakeVow: muteness is not checked. The suite vows only freshly minted poets and shows no refusal of a poet with words, so any poet its holder sends is accepted.
- MutePoetsContract.MutePoets.TakeVow: the registry's refusal to move a token the caller does not hold is reported as `NotInCustody`. The suite does not name that revert string.
- Reentrancy through the registry's transfer callback is not modelled: every entry point is one atomic step.
- The web application under `app/`, and `scripts/deploy.ts` and `hardhat.config.ts`, are presentation, deployment and configuration code, and are not part of this model.
