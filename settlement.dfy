/** Claim settlement for Silence vows, as pure functions over vow records:
    what one vow can claim, what a run of successive claims pays, and what
    a batch of claims does to the vow table. The Silence class uses these
    as the specification of its state-changing entry points. */
module Settlement {
  import opened Common
  import opened Curve
  import opened Arith

  /** A vow record: who took it, which poet it holds, when it was taken,
      and the checkpoint up to which its accrual has been paid. */
  datatype Vow = Vow(tokenOwner: Address, tokenId: TokenId, created: nat, updated: nat)

  /** What the `vows` getter returns for an id that holds no vow. */
  const EMPTY_VOW: Vow := Vow(ZERO_ADDRESS, 0, 0, 0)

  /** Wei accrued by `v` from its creation up to time `t`. */
  function Accrued(start: nat, v: Vow, t: nat): nat
  {
    Cumulative(Age(start, v.created, t))
  }

  /** What `v` can claim at `now`: the accrual between its checkpoint and now. */
  function Claimable(start: nat, v: Vow, now: nat): nat
    requires v.updated <= now
  {
    AgeMonotone(start, v.created, v.updated, now);
    CumulativeMonotone(Age(start, v.created, v.updated), Age(start, v.created, now));
    Accrued(start, v, now) - Accrued(start, v, v.updated)
  }

  /** The vow after a claim at `now`: its checkpoint moves to `now`. */
  function Checkpoint(v: Vow, now: nat): Vow
  {
    v.(updated := now)
  }

  // ---------------------------------------------------------------------
  // One vow

  /** Claiming at `t` and again at `now` pays exactly what one claim at
      `now` pays: claims partition the curve with no gap and no overlap. */
  lemma ClaimsPartition(start: nat, v: Vow, t: nat, now: nat)
    requires v.updated <= t <= now
    ensures Claimable(start, v, t) + Claimable(start, Checkpoint(v, t), now) == Claimable(start, v, now)
  {
  }

  /** A second claim at the same instant pays nothing. */
  lemma ClaimTwicePaysZero(start: nat, v: Vow, now: nat)
    requires v.updated <= now
    ensures Claimable(start, Checkpoint(v, now), now) == 0
  {
  }

  /** Nothing accrues once the checkpoint has reached the window end, and
      a vow taken at or after the window end never accrues anything. */
  lemma NothingAfterWindow(start: nat, v: Vow, now: nat)
    requires v.created <= v.updated <= now
    requires v.updated >= WindowEnd(start)
    ensures Claimable(start, v, now) == 0
    ensures v.created >= WindowEnd(start) ==> Accrued(start, v, now) == 0
  {
    AgeMonotone(start, v.created, v.updated, now);
  }

  /** A vow taken inside the window and first claimed after its end
      accrues exactly the curve up to the window end. */
  lemma StraddlingVow(start: nat, v: Vow, now: nat)
    requires start <= v.created == v.updated < WindowEnd(start) <= now
    ensures Claimable(start, v, now) == Cumulative(WindowEnd(start) - v.created)
  {
  }

  /** A vow taken after 270 days accrues 135 SILENCE in all; one taken
      after 180 days accrues 360; one taken at deployment accrues 1080. */
  lemma LateVowTotals(start: nat, now: nat)
    requires now >= WindowEnd(start)
    ensures Claimable(start, Vow(1, 0, start + 270 * DAY, start + 270 * DAY), now) == 135 * WAD
    ensures Claimable(start, Vow(1, 0, start + 180 * DAY, start + 180 * DAY), now) == 360 * WAD
    ensures Claimable(start, Vow(1, 0, start, start), now) == 1080 * WAD
  {
    StraddlingVow(start, Vow(1, 0, start + 270 * DAY, start + 270 * DAY), now);
    StraddlingVow(start, Vow(1, 0, start + 180 * DAY, start + 180 * DAY), now);
    StraddlingVow(start, Vow(1, 0, start, start), now);
    CumulativeSchedule();
  }

  /** No vow ever accrues more than 1080 SILENCE. */
  lemma AccruedBounded(start: nat, v: Vow, t: nat)
    requires start <= v.created
    ensures Accrued(start, v, t) <= 1080 * WAD
  {
    CumulativeMonotone(Age(start, v.created, t), PERIOD);
    CumulativeSchedule();
  }

  /** A claim one day into a vow pays F(1 day) = 1 + 2/360 SILENCE, which
      is 1.005555555555555555 SILENCE in wei. */
  lemma FirstDayClaim(start: nat, v: Vow)
    requires start <= v.created == v.updated && v.created + DAY <= WindowEnd(start)
    ensures Claimable(start, v, v.created + DAY) == 1_005_555_555_555_555_555
  {
    CumulativeAtWholeDays(1);
  }

  /** One day after a claim made three days into a vow, the vow can claim
      F(4 days) - F(3 days), about 1.0389 SILENCE. */
  lemma DayAfterClaim(start: nat, c: nat)
    requires start <= c && c + 4 * DAY <= WindowEnd(start)
    ensures Claimable(start, Vow(1, 0, c, c + 3 * DAY), c + 4 * DAY) == 1_038_888_888_888_888_888
  {
    CumulativeAtWholeDays(3);
    CumulativeAtWholeDays(4);
  }

  // ---------------------------------------------------------------------
  // A run of successive claims on one vow

  /** Total paid by claiming `v` at each instant of `times`, in order. */
  function PaidBySuccessiveClaims(start: nat, v: Vow, times: seq<nat>): nat
    requires Chronological(v.updated, times)
    decreases |times|
  {
    if times == [] then 0
    else Claimable(start, v, times[0]) + PaidBySuccessiveClaims(start, Checkpoint(v, times[0]), times[1..])
  }

  /** Any number of claims pays exactly what one claim at the last instant
      would have paid. */
  lemma {:induction false} ClaimsTelescope(start: nat, v: Vow, times: seq<nat>)
    requires Chronological(v.updated, times) && times != []
    ensures PaidBySuccessiveClaims(start, v, times) == Claimable(start, v, times[|times| - 1])
    decreases |times|
  {
    if |times| > 1 {
      var rest := times[1..];
      ClaimsTelescope(start, Checkpoint(v, times[0]), rest);
      ClaimsPartition(start, v, times[0], rest[|rest| - 1]);
    }
  }

  /** Claims spread over the first 180 days of a vow pay 360 SILENCE in all,
      however the 180 days are split. */
  lemma SmallClaimsOverHalfYear(start: nat, c: nat, times: seq<nat>)
    requires start <= c && c + 180 * DAY <= WindowEnd(start)
    requires Chronological(c, times) && times != [] && times[|times| - 1] == c + 180 * DAY
    ensures PaidBySuccessiveClaims(start, Vow(1, 0, c, c), times) == 360 * WAD
  {
    ClaimsTelescope(start, Vow(1, 0, c, c), times);
    CumulativeSchedule();
  }

  // ---------------------------------------------------------------------
  // A batch of claims over the vow table

  /** What a successful batch leaves behind: the new table and the total paid. */
  datatype Settlement = Settlement(vows: map<nat, Vow>, total: nat)

  /** Every checkpoint in the table lies at or before `now`. */
  ghost predicate CheckpointsBefore(vows: map<nat, Vow>, now: nat)
  {
    forall id :: id in vows ==> vows[id].updated <= now
  }

  /** `b` holds the same vows as `a`, up to their checkpoints. */
  ghost predicate SameVows(a: map<nat, Vow>, b: map<nat, Vow>)
  {
    && a.Keys == b.Keys
    && forall id :: id in a ==>
         b[id].tokenOwner == a[id].tokenOwner && b[id].tokenId == a[id].tokenId && b[id].created == a[id].created
  }

  /** No id occurs twice. */
  ghost predicate Distinct(ids: seq<nat>)
  {
    forall i, j :: 0 <= i < j < |ids| ==> ids[i] != ids[j]
  }

  /** Some id of the batch names a live vow that `caller` did not take. */
  ghost predicate HasForeignVow(vows: map<nat, Vow>, ids: seq<nat>, caller: Address)
  {
    exists i :: 0 <= i < |ids| && ids[i] in vows && vows[ids[i]].tokenOwner != caller
  }

  /** `claimBatch`: claim each id in turn; an id without a vow is skipped,
      a vow taken by someone else reverts the whole batch with "!tokenOwner". */
  function SettleBatch(start: nat, vows: map<nat, Vow>, ids: seq<nat>, caller: Address, now: nat): (r: Result<Settlement>)
    requires CheckpointsBefore(vows, now)
    ensures r.Err? ==> r.error == NotTokenOwner
    ensures r.Ok? ==> SameVows(vows, r.value.vows) && CheckpointsBefore(r.value.vows, now)
    ensures r.Ok? ==> forall id :: id in vows ==>
              r.value.vows[id].updated == if id in ids then now else vows[id].updated
    decreases |ids|
  {
    if ids == [] then Ok(Settlement(vows, 0))
    else
      var prefix, id := ids[..|ids| - 1], ids[|ids| - 1];
      assert forall x :: x in ids <==> x in prefix || x == id;
      match SettleBatch(start, vows, prefix, caller, now)
      case Err(e) => Err(e)
      case Ok(s) =>
        if id !in s.vows then Ok(s)
        else if s.vows[id].tokenOwner != caller then Err(NotTokenOwner)
        else Ok(Settlement(s.vows[id := Checkpoint(s.vows[id], now)], s.total + Claimable(start, s.vows[id], now)))
  }

  /** One step of the batch: settling the first `i + 1` ids is settling the
      first `i` and then the id at `i`. */
  lemma SettleBatchStep(start: nat, vows: map<nat, Vow>, ids: seq<nat>, i: nat, caller: Address, now: nat)
    requires CheckpointsBefore(vows, now) && i < |ids|
    requires SettleBatch(start, vows, ids[..i], caller, now).Ok?
    ensures var s := SettleBatch(start, vows, ids[..i], caller, now).value;
            SettleBatch(start, vows, ids[..i + 1], caller, now) ==
              if ids[i] !in s.vows then Ok(s)
              else if s.vows[ids[i]].tokenOwner != caller then Err(NotTokenOwner)
              else Ok(Settlement(s.vows[ids[i] := Checkpoint(s.vows[ids[i]], now)], s.total + Claimable(start, s.vows[ids[i]], now)))
  {
    assert ids[..i + 1][..i] == ids[..i];
  }

  /** Sum of what each id of `ids` can claim on its own (0 for an id without a vow). */
  function SumClaimable(start: nat, vows: map<nat, Vow>, ids: seq<nat>, now: nat): nat
    requires CheckpointsBefore(vows, now)
    decreases |ids|
  {
    if ids == [] then 0
    else
      var id := ids[|ids| - 1];
      SumClaimable(start, vows, ids[..|ids| - 1], now) + (if id in vows then Claimable(start, vows[id], now) else 0)
  }

  /** The batch reverts exactly when one of its ids names a live vow of
      someone else; ids without a vow never make it revert. */
  lemma {:induction false} BatchRevertsIff(start: nat, vows: map<nat, Vow>, ids: seq<nat>, caller: Address, now: nat)
    requires CheckpointsBefore(vows, now)
    ensures SettleBatch(start, vows, ids, caller, now).Err? <==> HasForeignVow(vows, ids, caller)
    decreases |ids|
  {
    if ids != [] {
      var prefix, id := ids[..|ids| - 1], ids[|ids| - 1];
      BatchRevertsIff(start, vows, prefix, caller, now);
      if HasForeignVow(vows, prefix, caller) {
        var i :| 0 <= i < |prefix| && prefix[i] in vows && vows[prefix[i]].tokenOwner != caller;
        assert ids[i] == prefix[i];
      }
      if id in vows && vows[id].tokenOwner != caller {
        assert ids[|ids| - 1] == id;
      }
      if HasForeignVow(vows, ids, caller) {
        var i :| 0 <= i < |ids| && ids[i] in vows && vows[ids[i]].tokenOwner != caller;
        if i < |ids| - 1 {
          assert prefix[i] == ids[i];
        }
      }
    }
  }

  /** With no id repeated, a successful batch pays the sum of what each of
      its vows could claim on its own, so the order of the ids is irrelevant
      to the total. */
  lemma {:induction false} BatchTotalIsSum(start: nat, vows: map<nat, Vow>, ids: seq<nat>, caller: Address, now: nat)
    requires CheckpointsBefore(vows, now) && Distinct(ids)
    requires SettleBatch(start, vows, ids, caller, now).Ok?
    ensures SettleBatch(start, vows, ids, caller, now).value.total == SumClaimable(start, vows, ids, now)
    decreases |ids|
  {
    if ids != [] {
      var prefix, id := ids[..|ids| - 1], ids[|ids| - 1];
      assert Distinct(prefix);
      BatchTotalIsSum(start, vows, prefix, caller, now);
      var s := SettleBatch(start, vows, prefix, caller, now).value;
      if id in vows {
        assert id !in prefix;
        assert s.vows[id] == vows[id];
      }
    }
  }

  /** `ids` with every repeat of an id dropped, first occurrences kept in
      order: the vows a batch actually settles. */
  function Dedup(ids: seq<nat>): (d: seq<nat>)
    ensures Distinct(d)
    ensures forall x :: x in d <==> x in ids
    ensures Distinct(ids) ==> d == ids
    decreases |ids|
  {
    if ids == [] then []
    else
      var prefix, id := ids[..|ids| - 1], ids[|ids| - 1];
      assert ids == prefix + [id];
      assert forall x :: x in ids <==> x in prefix || x == id;
      if id in prefix then
        assert !Distinct(ids) by {
          var i :| 0 <= i < |prefix| && prefix[i] == id;
          assert ids[i] == ids[|ids| - 1];
        }
        Dedup(prefix)
      else
        Dedup(prefix) + [id]
  }

  /** A successful batch pays every vow it names exactly once, whatever
      repeats the list holds: its total is the sum of the claimables of the
      distinct ids. */
  lemma {:induction false} BatchPaysEachVowOnce(start: nat, vows: map<nat, Vow>, ids: seq<nat>, caller: Address, now: nat)
    requires CheckpointsBefore(vows, now)
    requires SettleBatch(start, vows, ids, caller, now).Ok?
    ensures SettleBatch(start, vows, ids, caller, now).value.total == SumClaimable(start, vows, Dedup(ids), now)
    decreases |ids|
  {
    if ids != [] {
      var prefix, id := ids[..|ids| - 1], ids[|ids| - 1];
      assert SettleBatch(start, vows, prefix, caller, now).Ok?;
      BatchPaysEachVowOnce(start, vows, prefix, caller, now);
      var s := SettleBatch(start, vows, prefix, caller, now).value;
      var d := Dedup(prefix);
      if id in prefix {
        if id in vows {
          assert s.vows[id].updated == now;
        }
      } else {
        assert (d + [id])[..|d + [id]| - 1] == d;
        if id in vows {
          assert s.vows[id] == vows[id];
        }
      }
    }
  }

  /** Once a prefix of the batch reverts, the whole batch reverts. */
  lemma BatchRevertSticks(start: nat, vows: map<nat, Vow>, ids: seq<nat>, k: nat, caller: Address, now: nat)
    requires CheckpointsBefore(vows, now) && k <= |ids|
    requires SettleBatch(start, vows, ids[..k], caller, now).Err?
    ensures SettleBatch(start, vows, ids, caller, now).Err?
  {
    BatchRevertsIff(start, vows, ids[..k], caller, now);
    var i :| 0 <= i < k && ids[..k][i] in vows && vows[ids[..k][i]].tokenOwner != caller;
    assert ids[i] == ids[..k][i];
    BatchRevertsIff(start, vows, ids, caller, now);
  }

  /** A batch made only of ids whose vows (if any) belong to the caller never
      reverts; with the ids distinct it pays the sum of their claimables. */
  lemma OwnBatchSucceeds(start: nat, vows: map<nat, Vow>, ids: seq<nat>, caller: Address, now: nat)
    requires CheckpointsBefore(vows, now)
    requires forall i :: 0 <= i < |ids| && ids[i] in vows ==> vows[ids[i]].tokenOwner == caller
    ensures SettleBatch(start, vows, ids, caller, now).Ok?
    ensures Distinct(ids) ==> SettleBatch(start, vows, ids, caller, now).value.total == SumClaimable(start, vows, ids, now)
  {
    BatchRevertsIff(start, vows, ids, caller, now);
    if Distinct(ids) {
      BatchTotalIsSum(start, vows, ids, caller, now);
    }
  }
}
