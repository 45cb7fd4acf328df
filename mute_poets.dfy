/** MutePoets, the predecessor of Silence: vows are keyed by the poet's
    token id, and a claim pays exactly one SILENCE for every whole day that
    has passed since the vow was taken or last claimed. A claim restarts the
    count at the claim's own instant, so the unfinished part of a day is
    forfeited. */
module MutePoetsContract {
  import opened Common
  import opened Arith

  /** A vow: who took it, and the instant from which unpaid days are counted. */
  datatype MuteVow = MuteVow(owner: Address, created: nat)

  /** Whole days from `created` to `now`, rounded down. */
  function WholeDays(created: nat, now: nat): nat
    requires created <= now
  {
    (now - created) / DAY
  }

  /** What a claim at `now` pays: one SILENCE per whole day. */
  function DailyPayout(created: nat, now: nat): (amount: nat)
    requires created <= now
    ensures amount % WAD == 0
    ensures amount * DAY <= (now - created) * WAD < amount * DAY + DAY * WAD
  {
    WholeDays(created, now) * WAD
  }

  /** A claim less than a day after the vow's instant pays nothing. */
  lemma PartialDayPaysNothing(created: nat, now: nat)
    requires created <= now < created + DAY
    ensures DailyPayout(created, now) == 0
  {
    DivUnique(now - created, DAY, 0, now - created);
  }

  /** A claim between one and two days after the vow's instant pays
      exactly one SILENCE. */
  lemma OneDayPaysOne(created: nat, now: nat)
    requires created + DAY <= now < created + 2 * DAY
    ensures DailyPayout(created, now) == WAD
  {
    DivUnique(now - created, DAY, 1, now - created - DAY);
  }

  /** Splitting a stretch of time at `t` loses less than one whole day:
      the whole days of the two parts add up to the whole days of the
      stretch, or to one less. */
  lemma DaysSplit(created: nat, t: nat, t': nat)
    requires created <= t <= t'
    ensures WholeDays(created, t) + WholeDays(t, t') <= WholeDays(created, t')
    ensures WholeDays(created, t') <= WholeDays(created, t) + WholeDays(t, t') + 1
  {
    var d1, r1 := (t - created) / DAY, (t - created) % DAY;
    var d2, r2 := (t' - t) / DAY, (t' - t) % DAY;
    if r1 + r2 < DAY {
      DivUnique(t' - created, DAY, d1 + d2, r1 + r2);
    } else {
      DivUnique(t' - created, DAY, d1 + d2 + 1, r1 + r2 - DAY);
    }
  }

  /** Total paid by claiming at each instant of `times`, in order; each
      claim restarts the count at its own instant. */
  function PaidByDailyClaims(created: nat, times: seq<nat>): nat
    requires Chronological(created, times)
    decreases |times|
  {
    if times == [] then 0
    else DailyPayout(created, times[0]) + PaidByDailyClaims(times[0], times[1..])
  }

  /** However often a vow is claimed, it is never paid more than one SILENCE
      per whole day from the vow to the last claim, and each claim forfeits
      less than one day: the shortfall is under one SILENCE per claim. */
  lemma {:induction false} DailyClaimsBounds(created: nat, times: seq<nat>)
    requires Chronological(created, times) && times != []
    ensures PaidByDailyClaims(created, times) <= WholeDays(created, times[|times| - 1]) * WAD
    ensures WholeDays(created, times[|times| - 1]) * WAD < PaidByDailyClaims(created, times) + |times| * WAD
    decreases |times|
  {
    if |times| > 1 {
      var t, rest := times[0], times[1..];
      var last := rest[|rest| - 1];
      assert Chronological(t, rest);
      DailyClaimsBounds(t, rest);
      DaysSplit(created, t, last);
      var a, b, w := WholeDays(created, t), WholeDays(t, last), WholeDays(created, last);
      assert PaidByDailyClaims(created, times) == a * WAD + PaidByDailyClaims(t, rest);
      MulMono(a + b, w, WAD, WAD);
      MulMono(w, a + b + 1, WAD, WAD);
    }
  }

  /** The schedule of "transfers 1 SILENCE per day": a claim within a day of
      the vow pays 0, and each later claim made one day (and less than two)
      after the previous one pays exactly one SILENCE more. */
  lemma DailySchedule(c: nat, t0: nat, t1: nat, t2: nat, t3: nat)
    requires c <= t0 < c + DAY
    requires t0 + DAY <= t1 < t0 + 2 * DAY
    requires t1 + DAY <= t2 < t1 + 2 * DAY
    requires t2 + DAY <= t3 < t2 + 2 * DAY
    ensures PaidByDailyClaims(c, [t0]) == 0
    ensures PaidByDailyClaims(c, [t0, t1]) == WAD
    ensures PaidByDailyClaims(c, [t0, t1, t2]) == 2 * WAD
    ensures PaidByDailyClaims(c, [t0, t1, t2, t3]) == 3 * WAD
  {
    PartialDayPaysNothing(c, t0);
    OneDayPaysOne(t0, t1);
    OneDayPaysOne(t1, t2);
    OneDayPaysOne(t2, t3);
    assert [t0, t1][1..] == [t1];
    assert [t0, t1, t2][1..] == [t1, t2] && [t1, t2][1..] == [t2];
    assert [t0, t1, t2, t3][1..] == [t1, t2, t3] && [t1, t2, t3][1..] == [t2, t3] && [t2, t3][1..] == [t3];
    assert PaidByDailyClaims(t2, [t3]) == WAD;
    assert PaidByDailyClaims(t1, [t2]) == WAD;
    assert PaidByDailyClaims(t0, [t1]) == WAD;
    assert PaidByDailyClaims(t1, [t2, t3]) == 2 * WAD;
    assert PaidByDailyClaims(t0, [t1, t2]) == 2 * WAD;
    assert PaidByDailyClaims(t0, [t1, t2, t3]) == 3 * WAD;
  }

  /** The schedule of "rounds down days": a claim within a day of the vow,
      then one less than a day after it, pay 0 in all; the claims one second
      after the vow and one day after the vow are such a pair. */
  lemma RoundsDownSchedule(c: nat, t0: nat, t1: nat)
    requires c <= t0 < c + DAY && t0 <= t1 < t0 + DAY
    ensures PaidByDailyClaims(c, [t0, t1]) == 0
    ensures PaidByDailyClaims(c, [c + 1, c + DAY]) == 0
  {
    PartialDayPaysNothing(c, t0);
    PartialDayPaysNothing(t0, t1);
    PartialDayPaysNothing(c, c + 1);
    PartialDayPaysNothing(c + 1, c + DAY);
    assert [t0, t1][1..] == [t1];
    assert [c + 1, c + DAY][1..] == [c + DAY];
    assert PaidByDailyClaims(t0, [t1]) == 0;
    assert PaidByDailyClaims(c + 1, [c + DAY]) == 0;
  }

  /** Every vowed poet is in the contract's custody, and no vow counts from
      a later instant than the latest block. */
  ghost predicate CustodyOk(vows: map<TokenId, MuteVow>, poets: map<TokenId, Poet>, self: Address, clock: nat)
  {
    forall t :: t in vows ==> t in poets && poets[t].holder == self && vows[t].created <= clock
  }

  class MutePoets {
    /** The contract's own address. */
    const self: Address
    /** Address of the Lost Poets registry, fixed at deployment. */
    const poetsContract: Address

    /** The registry's view of the poets. */
    var poets: map<TokenId, Poet>
    /** Vows keyed by token id. */
    var vows: map<TokenId, MuteVow>
    /** SILENCE balances in wei. */
    var balances: map<Address, nat>

    /** Latest block time seen; block time never goes back. */
    ghost var clock: nat

    ghost predicate Valid()
      reads this
    {
      CustodyOk(vows, poets, self, clock)
    }

    /** Deploy at time `now`, with no vows. */
    constructor (self: Address, poetsContract: Address, poets: map<TokenId, Poet>, now: nat)
      ensures Valid()
      ensures this.self == self && this.poetsContract == poetsContract && this.poets == poets && vows == map[] && balances == map[] && clock == now
    {
      this.self := self;
      this.poetsContract := poetsContract;
      this.poets := poets;
      vows := map[];
      balances := map[];
      clock := now;
    }

    /** SILENCE balance of `a` in wei. */
    function BalanceOf(a: Address): nat
      reads this
    {
      if a in balances then balances[a] else 0
    }

    /** `takeVow`: pull the caller's poet into custody and record the vow
        under the poet's token id. */
    method TakeVow(caller: Address, tokenId: TokenId, now: nat) returns (r: Result<()>)
      requires Valid() && clock <= now && caller != self
      modifies this
      ensures Valid()
      ensures old(clock) <= clock <= now
      ensures r.Ok? ==> clock == now
      ensures r.Ok? <==> tokenId in old(poets) && old(poets)[tokenId].holder == caller
      ensures tokenId !in old(poets) ==> r == Err(NonexistentToken)
      ensures tokenId in old(poets) && old(poets)[tokenId].holder != caller ==> r == Err(NotInCustody)
      ensures r.Err? ==> unchanged(this)
      ensures r.Ok? ==>
                && tokenId !in old(vows)
                && vows == old(vows)[tokenId := MuteVow(caller, now)]
                && poets == old(poets)[tokenId := old(poets)[tokenId].(holder := self)]
                && balances == old(balances)
    {
      if tokenId !in poets {
        return Err(NonexistentToken);
      }
      var poet := poets[tokenId];
      if poet.holder != caller {
        return Err(NotInCustody);
      }
      poets, vows, clock := poets[tokenId := poet.(holder := self)], vows[tokenId := MuteVow(caller, now)], now;
      r := Ok(());
    }

    /** `breakVow`: delete the vow and hand the poet back to its creator. */
    method BreakVow(caller: Address, tokenId: TokenId, now: nat) returns (r: Result<()>)
      requires Valid() && clock <= now
      modifies this
      ensures Valid()
      ensures old(clock) <= clock <= now
      ensures r.Ok? ==> clock == now
      ensures r.Ok? <==> tokenId in old(vows) && old(vows)[tokenId].owner == caller
      ensures tokenId !in old(vows) ==> r == Err(NoVow)
      ensures tokenId in old(vows) && old(vows)[tokenId].owner != caller ==> r == Err(NotVowOwner)
      ensures r.Err? ==> unchanged(this)
      ensures r.Ok? ==>
                && tokenId in old(poets)
                && vows == old(vows) - {tokenId}
                && poets == old(poets)[tokenId := old(poets)[tokenId].(holder := caller)]
                && balances == old(balances)
    {
      if tokenId !in vows {
        return Err(NoVow);
      }
      if vows[tokenId].owner != caller {
        return Err(NotVowOwner);
      }
      poets, vows, clock := poets[tokenId := poets[tokenId].(holder := caller)], vows - {tokenId}, now;
      r := Ok(());
    }

    /** `claim`: pay one SILENCE per whole day since the vow's instant and
        restart the count at `now`. */
    method Claim(caller: Address, tokenId: TokenId, now: nat) returns (r: Result<nat>)
      requires Valid() && clock <= now
      modifies this
      ensures Valid()
      ensures old(clock) <= clock <= now
      ensures r.Ok? ==> clock == now
      ensures r.Ok? <==> tokenId in old(vows) && old(vows)[tokenId].owner == caller
      ensures tokenId !in old(vows) ==> r == Err(NoVow)
      ensures tokenId in old(vows) && old(vows)[tokenId].owner != caller ==> r == Err(NotVowOwner)
      ensures r.Err? ==> unchanged(this)
      ensures r.Ok? ==>
                var v := old(vows)[tokenId];
                && v.created <= now
                && r.value == DailyPayout(v.created, now)
                && BalanceOf(caller) == old(BalanceOf(caller)) + r.value
                && (forall a :: a != caller ==> BalanceOf(a) == old(BalanceOf(a)))
                && vows == old(vows)[tokenId := v.(created := now)]
                && poets == old(poets)
    {
      if tokenId !in vows {
        return Err(NoVow);
      }
      var v := vows[tokenId];
      if v.owner != caller {
        return Err(NotVowOwner);
      }
      var amount := DailyPayout(v.created, now);
      balances, vows, clock := balances[caller := BalanceOf(caller) + amount], vows[tokenId := v.(created := now)], now;
      r := Ok(amount);
    }
  }
}
