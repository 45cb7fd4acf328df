/** The Silence contract: holders of a mute Lost Poet vow silence by placing
    the poet in the contract's custody, and earn SILENCE along the accrual
    curve until they break the vow. Vows are numbered 1, 2, ... by a global
    counter; every holder has an append-only list of the vow ids they ever
    took. Separately, the contract's owner can move Origin poets that the
    contract holds, through proposals that unlock after seven days.

    Every entry point is one atomic transaction: `caller` is the sender and
    `now` the block timestamp. A call that reverts changes nothing. */
module SilenceContract {
  import opened Common
  import opened Curve
  import opened Settlement

  /** Delay between proposing and executing a transfer. */
  const TIMELOCK: nat := 7 * DAY

  /** A proposed transfer of `tokenId` to `to`, executable from `timelock` on. */
  datatype Proposal = Proposal(to: Address, tokenId: TokenId, timelock: nat)

  /** SILENCE balance of `a` in wei (0 for an address never credited). */
  function BalanceOf(balances: map<Address, nat>, a: Address): nat
  {
    if a in balances then balances[a] else 0
  }

  /** Mint `amount` wei of SILENCE to `a`. */
  function Credit(balances: map<Address, nat>, a: Address, amount: nat): (b: map<Address, nat>)
    ensures BalanceOf(b, a) == BalanceOf(balances, a) + amount
    ensures forall x :: x != a ==> BalanceOf(b, x) == BalanceOf(balances, x)
  {
    balances[a := BalanceOf(balances, a) + amount]
  }

  /** A poet may be vowed when it carries no words and is not an Origin poet. */
  predicate Eligible(p: Poet)
  {
    p.words == 0 && !p.origin
  }

  // ---------------------------------------------------------------------
  // The contract's invariant, over a snapshot of its state

  /** The part of the contract's state that its invariant is about. `vowOf`
      is bookkeeping of the model only: for each poet under a vow, its id. */
  datatype Ledger = Ledger(
    start: nat,
    clock: nat,
    self: Address,
    poets: map<TokenId, Poet>,
    vows: map<nat, Vow>,
    vowCount: nat,
    vowOf: map<TokenId, nat>,
    index: map<Address, seq<nat>>,
    proposals: map<nat, Proposal>,
    proposalCount: nat)

  /** `id` names a live vow. The invariant quantifies over live vows through
      this predicate, so its instances are only produced where asked for. */
  predicate Live(vows: map<nat, Vow>, id: nat)
  {
    id in vows
  }

  /** `a` has a list in the owner index. */
  predicate Listed(index: map<Address, seq<nat>>, a: Address)
  {
    a in index
  }

  /** The ids listed for `a`; an address that never took a vow has none. */
  function IdsOf(index: map<Address, seq<nat>>, a: Address): seq<nat>
  {
    if Listed(index, a) then index[a] else []
  }

  /** What holds of live vow `id` with record `v`: its id was issued; it was
      taken after deployment and last settled between its creation and the
      latest block; its poet is a non-Origin poet in the contract's custody
      that backs no other vow; and its taker's list holds its id. */
  ghost predicate VowOk(l: Ledger, id: nat, v: Vow)
  {
    && 1 <= id <= l.vowCount
    && l.start <= v.created <= v.updated <= l.clock
    && v.tokenId in l.poets && l.poets[v.tokenId].holder == l.self && !l.poets[v.tokenId].origin
    && v.tokenId in l.vowOf && l.vowOf[v.tokenId] == id
    && id in IdsOf(l.index, v.tokenOwner)
  }

  /** What holds of the list `ids` of address `a`: ascending, all issued,
      and each id still live names a vow `a` took. */
  ghost predicate OwnerIndexOk(l: Ledger, a: Address, ids: seq<nat>)
  {
    && (forall i, j :: 0 <= i < j < |ids| ==> ids[i] < ids[j])
    && (forall i :: 0 <= i < |ids| ==> 1 <= ids[i] <= l.vowCount)
    && (forall i :: 0 <= i < |ids| && ids[i] in l.vows ==> l.vows[ids[i]].tokenOwner == a)
  }

  /** The contract's invariant. */
  ghost predicate LedgerOk(l: Ledger)
  {
    && l.start <= l.clock
    && (forall id {:trigger Live(l.vows, id)} :: Live(l.vows, id) ==> VowOk(l, id, l.vows[id]))
    && (forall a {:trigger Listed(l.index, a)} :: Listed(l.index, a) ==> OwnerIndexOk(l, a, l.index[a]))
    && (forall p :: p in l.proposals ==> 1 <= p <= l.proposalCount)
  }

  /** Each live vow satisfies the per-vow invariant. */
  lemma LiveVow(l: Ledger, id: nat)
    requires LedgerOk(l) && id in l.vows
    ensures VowOk(l, id, l.vows[id])
  {
    assert Live(l.vows, id);
  }

  /** Every live vow id was issued: it lies between 1 and the vow count,
      so the next id is never one in use. */
  lemma IdsIssued(l: Ledger)
    requires LedgerOk(l)
    ensures forall id :: id in l.vows ==> 1 <= id <= l.vowCount
  {
    forall id | id in l.vows
      ensures 1 <= id <= l.vowCount
    {
      LiveVow(l, id);
    }
  }

  /** No live vow was settled after the latest block. */
  lemma CheckpointsInPast(l: Ledger, now: nat)
    requires LedgerOk(l) && l.clock <= now
    ensures CheckpointsBefore(l.vows, now)
  {
    forall id | id in l.vows
      ensures l.vows[id].updated <= now
    {
      LiveVow(l, id);
    }
  }

  /** The owner index is exact: the list of `a` is ascending, and its live
      ids are precisely the live vows `a` took. */
  lemma OwnerIndexExact(l: Ledger, a: Address)
    requires LedgerOk(l)
    ensures forall i, j :: 0 <= i < j < |IdsOf(l.index, a)| ==> IdsOf(l.index, a)[i] < IdsOf(l.index, a)[j]
    ensures forall id :: id in l.vows && l.vows[id].tokenOwner == a ==> id in IdsOf(l.index, a)
    ensures forall id :: id in l.vows && id in IdsOf(l.index, a) ==> l.vows[id].tokenOwner == a
  {
    forall id | id in l.vows && l.vows[id].tokenOwner == a
      ensures id in IdsOf(l.index, a)
    {
      LiveVow(l, id);
    }
    if Listed(l.index, a) {
      assert OwnerIndexOk(l, a, l.index[a]);
    }
  }

  /** A poet backs at most one live vow, and a vowed poet is a non-Origin
      poet in the contract's custody. */
  lemma OneVowPerPoet(l: Ledger, id1: nat, id2: nat)
    requires LedgerOk(l) && id1 in l.vows && id2 in l.vows
    ensures l.vows[id1].tokenId in l.poets && l.poets[l.vows[id1].tokenId].holder == l.self
    ensures !l.poets[l.vows[id1].tokenId].origin
    ensures l.vows[id1].tokenId == l.vows[id2].tokenId ==> id1 == id2
  {
    LiveVow(l, id1);
    LiveVow(l, id2);
  }

  /** Taking a vow under the next id keeps the invariant. */
  lemma LedgerAfterTake(l: Ledger, caller: Address, tokenId: TokenId, now: nat)
    requires LedgerOk(l) && l.clock <= now && caller != l.self
    requires tokenId in l.poets && l.poets[tokenId].holder == caller && Eligible(l.poets[tokenId])
    ensures LedgerOk(l.(clock := now,
                        poets := l.poets[tokenId := l.poets[tokenId].(holder := l.self)],
                        vows := l.vows[l.vowCount + 1 := Vow(caller, tokenId, now, now)],
                        vowCount := l.vowCount + 1,
                        vowOf := l.vowOf[tokenId := l.vowCount + 1],
                        index := l.index[caller := IdsOf(l.index, caller) + [l.vowCount + 1]]))
  {
    var id := l.vowCount + 1;
    var l' := l.(clock := now,
                 poets := l.poets[tokenId := l.poets[tokenId].(holder := l.self)],
                 vows := l.vows[id := Vow(caller, tokenId, now, now)],
                 vowCount := id,
                 vowOf := l.vowOf[tokenId := id],
                 index := l.index[caller := IdsOf(l.index, caller) + [id]]);
    forall x | Live(l'.vows, x)
      ensures VowOk(l', x, l'.vows[x])
    {
      if x != id {
        LiveVow(l, x);
        var v := l.vows[x];
        assert x in IdsOf(l'.index, v.tokenOwner) by {
          if v.tokenOwner == caller {
            assert IdsOf(l'.index, caller) == IdsOf(l.index, caller) + [id];
          }
        }
      } else {
        assert IdsOf(l'.index, caller) == IdsOf(l.index, caller) + [id];
      }
    }
    forall a | Listed(l'.index, a)
      ensures OwnerIndexOk(l', a, l'.index[a])
    {
      var ids := IdsOf(l.index, a);
      assert OwnerIndexOk(l, a, ids) by {
        if Listed(l.index, a) {
          assert OwnerIndexOk(l, a, l.index[a]);
        }
      }
      assert id !in ids;
    }
  }

  /** Deleting a vow and handing its poet to `to` keeps the invariant. */
  lemma LedgerAfterBreak(l: Ledger, id: nat, to: Address, now: nat)
    requires LedgerOk(l) && l.clock <= now && id in l.vows && l.vows[id].tokenId in l.poets
    ensures LedgerOk(l.(clock := now,
                        vows := l.vows - {id},
                        poets := l.poets[l.vows[id].tokenId := l.poets[l.vows[id].tokenId].(holder := to)]))
  {
    var t := l.vows[id].tokenId;
    var l' := l.(clock := now, vows := l.vows - {id}, poets := l.poets[t := l.poets[t].(holder := to)]);
    LiveVow(l, id);
    forall x | Live(l'.vows, x)
      ensures VowOk(l', x, l'.vows[x])
    {
      LiveVow(l, x);
    }
    forall a | Listed(l'.index, a)
      ensures OwnerIndexOk(l', a, l'.index[a])
    {
      assert Listed(l.index, a);
    }
  }

  /** Moving checkpoints forward to `now`, and nothing else in the vows,
      keeps the invariant. */
  lemma LedgerAfterSettle(l: Ledger, vows': map<nat, Vow>, now: nat)
    requires LedgerOk(l) && l.clock <= now && SameVows(l.vows, vows')
    requires forall id :: id in l.vows ==> vows'[id].updated == l.vows[id].updated || vows'[id].updated == now
    ensures LedgerOk(l.(clock := now, vows := vows'))
  {
    var l' := l.(clock := now, vows := vows');
    forall x | Live(l'.vows, x)
      ensures VowOk(l', x, l'.vows[x])
    {
      LiveVow(l, x);
    }
    forall a | Listed(l'.index, a)
      ensures OwnerIndexOk(l', a, l'.index[a])
    {
      assert Listed(l.index, a);
    }
  }

  /** Receiving an Origin poet, or sending one away, keeps the invariant. */
  lemma LedgerAfterOriginMove(l: Ledger, tokenId: TokenId, to: Address)
    requires LedgerOk(l) && tokenId in l.poets && l.poets[tokenId].origin
    ensures LedgerOk(l.(poets := l.poets[tokenId := l.poets[tokenId].(holder := to)]))
  {
    var l' := l.(poets := l.poets[tokenId := l.poets[tokenId].(holder := to)]);
    forall x | Live(l'.vows, x)
      ensures VowOk(l', x, l'.vows[x])
    {
      LiveVow(l, x);
    }
    forall a | Listed(l'.index, a)
      ensures OwnerIndexOk(l', a, l'.index[a])
    {
      assert Listed(l.index, a);
    }
  }

  /** Recording a proposal under the next id, or consuming one, at a later
      block keeps the invariant. */
  lemma LedgerAfterProposals(l: Ledger, proposals: map<nat, Proposal>, proposalCount: nat, now: nat)
    requires LedgerOk(l) && l.clock <= now && l.proposalCount <= proposalCount
    requires forall p :: p in proposals ==> p in l.proposals || 1 <= p == proposalCount
    ensures LedgerOk(l.(clock := now, proposals := proposals, proposalCount := proposalCount))
  {
    var l' := l.(clock := now, proposals := proposals, proposalCount := proposalCount);
    forall x | Live(l'.vows, x)
      ensures VowOk(l', x, l'.vows[x])
    {
      LiveVow(l, x);
    }
    forall a | Listed(l'.index, a)
      ensures OwnerIndexOk(l', a, l'.index[a])
    {
      assert Listed(l.index, a);
    }
  }

  /** The claim loop of `claimBatch` and `claimAll`: claim each id in turn
      on a copy of the vow table, stopping at the first vow of someone else. */
  method RunBatch(start: nat, vows: map<nat, Vow>, ids: seq<nat>, caller: Address, now: nat)
    returns (r: Result<Settlement>)
    requires CheckpointsBefore(vows, now)
    ensures r == SettleBatch(start, vows, ids, caller, now)
  {
    var work, total: nat := vows, 0;
    var i := 0;
    while i < |ids|
      invariant i <= |ids|
      invariant SettleBatch(start, vows, ids[..i], caller, now) == Ok(Settlement(work, total))
    {
      var id := ids[i];
      SettleBatchStep(start, vows, ids, i, caller, now);
      if id in work {
        var v := work[id];
        if v.tokenOwner != caller {
          BatchRevertSticks(start, vows, ids, i + 1, caller, now);
          return Err(NotTokenOwner);
        }
        work, total := work[id := Checkpoint(v, now)], total + Claimable(start, v, now);
      }
      i := i + 1;
    }
    assert ids[..|ids|] == ids;
    r := Ok(Settlement(work, total));
  }

  class Silence {
    /** Deployment time: the emission window is [start, start + PERIOD). */
    const start: nat
    /** The contract's owner, the only account that may move Origin poets. */
    const admin: Address
    /** The contract's own address. */
    const self: Address
    /** The address of the Lost Poets registry. */
    const poetsContract: Address

    /** The registry's view of the poets this contract deals with. */
    var poets: map<TokenId, Poet>
    /** The vow table; an id absent from it reads as the all-zero record. */
    var vows: map<nat, Vow>
    var vowCount: nat
    /** Every vow id each address ever took, in creation order. */
    var vowsByAddress: map<Address, seq<nat>>
    var proposals: map<nat, Proposal>
    var proposalCount: nat
    /** SILENCE balances in wei. */
    var balances: map<Address, nat>

    /** Latest block time seen; block time never goes back. */
    ghost var clock: nat
    /** For each poet under a vow, that vow's id. */
    ghost var vowOf: map<TokenId, nat>

    ghost function State(): Ledger
      reads this
    {
      Ledger(start, clock, self, poets, vows, vowCount, vowOf, vowsByAddress, proposals, proposalCount)
    }

    ghost predicate Valid()
      reads this
    {
      LedgerOk(State())
    }

    /** Deploy at time `now`, with no vows and no proposals. */
    constructor (admin: Address, self: Address, poetsContract: Address, poets: map<TokenId, Poet>, now: nat)
      ensures Valid()
      ensures this.admin == admin && this.self == self && this.poetsContract == poetsContract
      ensures start == now && clock == now && this.poets == poets
      ensures vows == map[] && vowCount == 0 && vowsByAddress == map[]
      ensures proposals == map[] && proposalCount == 0 && balances == map[]
    {
      this.admin := admin;
      this.self := self;
      this.poetsContract := poetsContract;
      this.poets := poets;
      start := now;
      clock := now;
      vows := map[];
      vowCount := 0;
      vowsByAddress := map[];
      proposals := map[];
      proposalCount := 0;
      balances := map[];
      vowOf := map[];
    }

    // -------------------------------------------------------------------
    // Views

    /** The `vows` getter: the record, or all zeros for an id without a vow. */
    function VowRecord(id: nat): Vow
      reads this
    {
      if id in vows then vows[id] else EMPTY_VOW
    }

    /** `getVowsByAddress`: the ids of every vow `a` ever took, in creation order. */
    function GetVowsByAddress(a: Address): (ids: seq<nat>)
      reads this
      requires Valid()
      ensures forall i, j :: 0 <= i < j < |ids| ==> ids[i] < ids[j]
      ensures forall id :: id in vows && vows[id].tokenOwner == a ==> id in ids
      ensures forall i :: 0 <= i < |ids| && ids[i] in vows ==> vows[ids[i]].tokenOwner == a
    {
      OwnerIndexExact(State(), a);
      IdsOf(vowsByAddress, a)
    }

    /** `claimable`: what vow `id` could claim at `now`. */
    function ClaimableOf(id: nat, now: nat): (amount: nat)
      reads this
      requires Valid() && clock <= now
      ensures id !in vows ==> amount == 0
      ensures amount <= 1080 * WAD
      ensures now >= WindowEnd(start) && id in vows && vows[id].updated >= WindowEnd(start) ==> amount == 0
    {
      if id in vows then
        LiveVow(State(), id);
        AccruedBounded(start, vows[id], now);
        if vows[id].updated >= WindowEnd(start) then NothingAfterWindow(start, vows[id], now); Claimable(start, vows[id], now)
        else Claimable(start, vows[id], now)
      else 0
    }

    /** The sum of `claimable` over `ids` (an id without a vow adds 0). */
    ghost function TotalClaimable(ids: seq<nat>, now: nat): nat
      reads this
      requires Valid() && clock <= now
    {
      CheckpointsInPast(State(), now);
      SumClaimable(start, vows, ids, now)
    }

    /** `accrualRate`: vow `id`'s current rate in wei per day. */
    function AccrualRateOf(id: nat, now: nat): (rate: nat)
      reads this
      requires Valid() && clock <= now
      ensures id !in vows || now >= WindowEnd(start) ==> rate == 0
      ensures id in vows && now < WindowEnd(start) ==> WAD <= rate <= 5 * WAD
    {
      if id in vows then
        LiveVow(State(), id);
        AccrualRateWindow(start, vows[id].created, now);
        AccrualRate(start, vows[id].created, now)
      else 0
    }

    // -------------------------------------------------------------------
    // Vows

    /** `takeVow`: move a mute poet of the caller into custody and open a
        vow for it under the next id. */
    method TakeVow(caller: Address, tokenId: TokenId, now: nat) returns (r: Result<nat>)
      requires Valid() && clock <= now && caller != self
      modifies this
      ensures Valid()
      ensures old(clock) <= clock <= now
      ensures r.Ok? ==> clock == now
      ensures r.Ok? <==> tokenId in old(poets) && old(poets)[tokenId].holder == caller && Eligible(old(poets)[tokenId])
      ensures tokenId !in old(poets) ==> r == Err(NonexistentToken)
      ensures tokenId in old(poets) && old(poets)[tokenId].holder != caller ==> r == Err(NotTokenOwner)
      ensures tokenId in old(poets) && old(poets)[tokenId].holder == caller && !Eligible(old(poets)[tokenId]) ==>
                r == Err(NotMute)
      ensures r.Err? ==> unchanged(this)
      ensures r.Ok? ==>
                && r.value == old(vowCount) + 1 == vowCount
                && (forall x :: x in old(vows) ==> x < r.value)
                && vows == old(vows)[r.value := Vow(caller, tokenId, now, now)]
                && poets == old(poets)[tokenId := old(poets)[tokenId].(holder := self)]
                && vowsByAddress == old(vowsByAddress)[caller := IdsOf(old(vowsByAddress), caller) + [r.value]]
                && balances == old(balances)
                && proposals == old(proposals) && proposalCount == old(proposalCount)
    {
      if tokenId !in poets {
        return Err(NonexistentToken);
      }
      var poet := poets[tokenId];
      if poet.holder != caller {
        return Err(NotTokenOwner);
      }
      if !Eligible(poet) {
        return Err(NotMute);
      }
      IdsIssued(State());
      LedgerAfterTake(State(), caller, tokenId, now);
      var id := vowCount + 1;
      poets, vows, vowCount, vowOf, vowsByAddress, clock :=
        poets[tokenId := poet.(holder := self)], vows[id := Vow(caller, tokenId, now, now)], id,
        vowOf[tokenId := id], vowsByAddress[caller := IdsOf(vowsByAddress, caller) + [id]], now;
      r := Ok(id);
    }

    /** `breakVow`: pay out what the vow has accrued, delete it, and hand
        the poet back to the caller. The vow is gone before the poet moves. */
    method BreakVow(caller: Address, id: nat, now: nat) returns (r: Result<nat>)
      requires Valid() && clock <= now
      modifies this
      ensures Valid()
      ensures old(clock) <= clock <= now
      ensures r.Ok? ==> clock == now
      ensures r.Ok? <==> id in old(vows) && old(vows)[id].tokenOwner == caller
      ensures id !in old(vows) ==> r == Err(NoVow)
      ensures id in old(vows) && old(vows)[id].tokenOwner != caller ==> r == Err(NotTokenOwner)
      ensures r.Err? ==> unchanged(this)
      ensures r.Ok? ==>
                var v := old(vows)[id];
                && id in old(vows) && 1 <= id <= old(vowCount) && v.tokenId in old(poets)
                && r.value == old(ClaimableOf(id, now))
                && balances == Credit(old(balances), caller, r.value)
                && vows == old(vows) - {id} && VowRecord(id) == EMPTY_VOW
                && poets == old(poets)[v.tokenId := old(poets)[v.tokenId].(holder := caller)]
                && vowsByAddress == old(vowsByAddress) && vowCount == old(vowCount)
                && proposals == old(proposals) && proposalCount == old(proposalCount)
    {
      if id !in vows {
        return Err(NoVow);
      }
      var v := vows[id];
      if v.tokenOwner != caller {
        return Err(NotTokenOwner);
      }
      LiveVow(State(), id);
      LedgerAfterBreak(State(), id, caller, now);
      var amount := Claimable(start, v, now);
      balances, vows, poets, clock :=
        Credit(balances, caller, amount), vows - {id}, poets[v.tokenId := poets[v.tokenId].(holder := caller)], now;
      r := Ok(amount);
    }

    // -------------------------------------------------------------------
    // Claims

    /** `claim`: pay what vow `id` has accrued and move its checkpoint to now. */
    method Claim(caller: Address, id: nat, now: nat) returns (r: Result<nat>)
      requires Valid() && clock <= now
      modifies this
      ensures Valid()
      ensures old(clock) <= clock <= now
      ensures r.Ok? ==> clock == now
      ensures r.Ok? <==> id in old(vows) && old(vows)[id].tokenOwner == caller
      ensures id !in old(vows) ==> r == Err(NoVow)
      ensures id in old(vows) && old(vows)[id].tokenOwner != caller ==> r == Err(NotTokenOwner)
      ensures r.Err? ==> unchanged(this)
      ensures r.Ok? ==>
                && id in old(vows) && old(vows)[id].updated <= now
                && r.value == old(ClaimableOf(id, now))
                && balances == Credit(old(balances), caller, r.value)
                && vows == old(vows)[id := Checkpoint(old(vows)[id], now)]
                && clock == now && ClaimableOf(id, now) == 0
                && poets == old(poets) && vowsByAddress == old(vowsByAddress) && vowCount == old(vowCount)
                && proposals == old(proposals) && proposalCount == old(proposalCount)
    {
      if id !in vows {
        return Err(NoVow);
      }
      var v := vows[id];
      if v.tokenOwner != caller {
        return Err(NotTokenOwner);
      }
      LiveVow(State(), id);
      LedgerAfterSettle(State(), vows[id := Checkpoint(v, now)], now);
      var amount := Claimable(start, v, now);
      ClaimTwicePaysZero(start, v, now);
      balances, vows, clock := Credit(balances, caller, amount), vows[id := Checkpoint(v, now)], now;
      r := Ok(amount);
    }

    /** Settle the vows named by `ids` for `caller` as one all-or-nothing
        step: the work is done on a copy of the table, committed only if no
        id names someone else's vow. */
    method SettleIds(caller: Address, ids: seq<nat>, now: nat) returns (r: Result<nat>)
      requires Valid() && clock <= now
      modifies this
      ensures Valid()
      ensures old(clock) <= clock <= now
      ensures r.Ok? ==> clock == now
      ensures CheckpointsBefore(old(vows), now)
      ensures SettleBatch(start, old(vows), ids, caller, now).Err? ==> r == Err(NotTokenOwner) && unchanged(this)
      ensures SettleBatch(start, old(vows), ids, caller, now).Ok? ==>
                && r == Ok(SettleBatch(start, old(vows), ids, caller, now).value.total)
                && vows == SettleBatch(start, old(vows), ids, caller, now).value.vows
                && balances == Credit(old(balances), caller, r.value)
                && poets == old(poets) && vowsByAddress == old(vowsByAddress) && vowCount == old(vowCount)
                && proposals == old(proposals) && proposalCount == old(proposalCount)
    {
      CheckpointsInPast(State(), now);
      var batch := RunBatch(start, vows, ids, caller, now);
      if batch.Err? {
        return Err(NotTokenOwner);
      }
      LedgerAfterSettle(State(), batch.value.vows, now);
      vows, balances, clock := batch.value.vows, Credit(balances, caller, batch.value.total), now;
      r := Ok(batch.value.total);
    }

    /** `claimBatch`: claim every listed vow at once. Ids without a vow are
        skipped; one vow of someone else reverts the whole call. */
    method ClaimBatch(caller: Address, ids: seq<nat>, now: nat) returns (r: Result<nat>)
      requires Valid() && clock <= now
      modifies this
      ensures Valid()
      ensures old(clock) <= clock <= now
      ensures r.Ok? ==> clock == now
      ensures r.Err? <==> HasForeignVow(old(vows), ids, caller)
      ensures r.Err? ==> r.error == NotTokenOwner && unchanged(this)
      ensures r.Ok? ==>
                && (forall id :: id in old(vows) ==>
                      (id in vows && vows[id] == if id in ids then Checkpoint(old(vows)[id], now) else old(vows)[id]))
                && vows.Keys == old(vows).Keys
                && (forall id :: id in old(vows) ==> old(vows)[id].updated <= vows[id].updated)
                && balances == Credit(old(balances), caller, r.value)
                && r.value == old(TotalClaimable(Dedup(ids), now))
                && (Distinct(ids) ==> r.value == old(TotalClaimable(ids, now)))
                && poets == old(poets) && vowsByAddress == old(vowsByAddress) && vowCount == old(vowCount)
                && proposals == old(proposals) && proposalCount == old(proposalCount)
    {
      r := SettleIds(caller, ids, now);
      BatchRevertsIff(start, old(vows), ids, caller, now);
      if r.Ok? {
        BatchPaysEachVowOnce(start, old(vows), ids, caller, now);
      }
    }

    /** `claimAll`: claim every live vow the caller ever took; ids of broken
        vows in the caller's list are skipped. Never reverts. */
    method ClaimAll(caller: Address, now: nat) returns (total: nat)
      requires Valid() && clock <= now
      modifies this
      ensures Valid()
      ensures clock == now
      ensures total == old(TotalClaimable(GetVowsByAddress(caller), now))
      ensures forall id :: id in old(vows) ==>
                (id in vows && vows[id] == if old(vows)[id].tokenOwner == caller then Checkpoint(old(vows)[id], now) else old(vows)[id])
      ensures vows.Keys == old(vows).Keys
      ensures balances == Credit(old(balances), caller, total)
      ensures poets == old(poets) && vowsByAddress == old(vowsByAddress) && vowCount == old(vowCount)
      ensures proposals == old(proposals) && proposalCount == old(proposalCount)
    {
      var ids := GetVowsByAddress(caller);
      assert Distinct(ids);
      var r := SettleIds(caller, ids, now);
      OwnBatchSucceeds(start, old(vows), ids, caller, now);
      total := r.value;
    }

    // -------------------------------------------------------------------
    // Origin poets and the timelock

    /** `onERC721Received`: the contract accepts, by direct transfer, Origin
        poets only. The registry itself refuses unknown tokens and tokens the
        sender does not hold. */
    method ReceiveToken(collection: Address, from: Address, tokenId: TokenId) returns (r: Result<()>)
      requires Valid()
      modifies this
      ensures Valid()
      ensures clock == old(clock)
      ensures r.Ok? <==>
                collection == poetsContract && tokenId in old(poets) && old(poets)[tokenId].holder == from &&
                old(poets)[tokenId].origin
      ensures collection != poetsContract ==> r == Err(NotPoet)
      ensures collection == poetsContract && tokenId !in old(poets) ==> r == Err(NonexistentToken)
      ensures collection == poetsContract && tokenId in old(poets) && old(poets)[tokenId].holder != from ==>
                r == Err(NotInCustody)
      ensures (collection == poetsContract && tokenId in old(poets) && old(poets)[tokenId].holder == from &&
               !old(poets)[tokenId].origin) ==> r == Err(NotOrigin)
      ensures r.Err? ==> unchanged(this)
      ensures r.Ok? ==>
                && tokenId in old(poets) && old(poets)[tokenId].origin
                && poets == old(poets)[tokenId := old(poets)[tokenId].(holder := self)]
                && vows == old(vows) && vowsByAddress == old(vowsByAddress) && vowCount == old(vowCount)
                && balances == old(balances) && proposals == old(proposals) && proposalCount == old(proposalCount)
    {
      if collection != poetsContract {
        return Err(NotPoet);
      }
      if tokenId !in poets {
        return Err(NonexistentToken);
      }
      var poet := poets[tokenId];
      if poet.holder != from {
        return Err(NotInCustody);
      }
      if !poet.origin {
        return Err(NotOrigin);
      }
      LedgerAfterOriginMove(State(), tokenId, self);
      poets := poets[tokenId := poet.(holder := self)];
      r := Ok(());
    }

    /** `proposeTransfer`: the owner records a transfer of `tokenId` to `to`
        that unlocks seven days from now. */
    method ProposeTransfer(caller: Address, to: Address, tokenId: TokenId, now: nat) returns (r: Result<nat>)
      requires Valid() && clock <= now
      modifies this
      ensures Valid()
      ensures old(clock) <= clock <= now
      ensures r.Ok? ==> clock == now
      ensures r.Err? <==> caller != admin
      ensures r.Err? ==> r.error == NotOwner && unchanged(this)
      ensures r.Ok? ==>
                && r.value == old(proposalCount) + 1 == proposalCount
                && proposals == old(proposals)[r.value := Proposal(to, tokenId, now + TIMELOCK)]
                && poets == old(poets) && vows == old(vows) && vowsByAddress == old(vowsByAddress)
                && vowCount == old(vowCount) && balances == old(balances)
    {
      if caller != admin {
        return Err(NotOwner);
      }
      var id := proposalCount + 1;
      LedgerAfterProposals(State(), proposals[id := Proposal(to, tokenId, now + TIMELOCK)], id, now);
      proposals, proposalCount, clock := proposals[id := Proposal(to, tokenId, now + TIMELOCK)], id, now;
      r := Ok(id);
    }

    /** `executeTransfer`: once unlocked, the owner moves the proposed Origin
        poet out of custody to its recipient; the proposal is consumed. */
    method ExecuteTransfer(caller: Address, id: nat, now: nat) returns (r: Result<()>)
      requires Valid() && clock <= now
      modifies this
      ensures Valid()
      ensures old(clock) <= clock <= now
      ensures r.Ok? ==> clock == now
      ensures caller != admin ==> r == Err(NotOwner)
      ensures caller == admin && id !in old(proposals) ==> r == Err(NoProposal)
      ensures caller == admin && id == 0 ==> r == Err(NoProposal)
      ensures caller == admin && id in old(proposals) && now < old(proposals)[id].timelock ==> r == Err(TimelockActive)
      ensures caller == admin && id in old(proposals) && now >= old(proposals)[id].timelock &&
                (old(proposals)[id].tokenId !in old(poets) || !old(poets)[old(proposals)[id].tokenId].origin) ==>
                r == Err(NotOrigin)
      ensures caller == admin && id in old(proposals) && now >= old(proposals)[id].timelock &&
                old(proposals)[id].tokenId in old(poets) && old(poets)[old(proposals)[id].tokenId].origin &&
                old(poets)[old(proposals)[id].tokenId].holder != self ==>
                r == Err(NotInCustody)
      ensures r.Ok? <==>
                && caller == admin && id in old(proposals) && old(proposals)[id].timelock <= now
                && old(proposals)[id].tokenId in old(poets) && old(poets)[old(proposals)[id].tokenId].origin
                && old(poets)[old(proposals)[id].tokenId].holder == self
      ensures r.Err? ==> unchanged(this)
      ensures r.Ok? ==>
                var p := old(proposals)[id];
                && caller == admin && id in old(proposals) && p.timelock <= now
                && p.tokenId in old(poets) && old(poets)[p.tokenId].origin && old(poets)[p.tokenId].holder == self
                && poets == old(poets)[p.tokenId := old(poets)[p.tokenId].(holder := p.to)]
                && proposals == old(proposals) - {id}
                && vows == old(vows) && vowsByAddress == old(vowsByAddress) && vowCount == old(vowCount)
                && balances == old(balances) && proposalCount == old(proposalCount)
    {
      if caller != admin {
        return Err(NotOwner);
      }
      if id !in proposals {
        return Err(NoProposal);
      }
      var p := proposals[id];
      if now < p.timelock {
        return Err(TimelockActive);
      }
      if p.tokenId !in poets || !poets[p.tokenId].origin {
        return Err(NotOrigin);
      }
      if poets[p.tokenId].holder != self {
        return Err(NotInCustody);
      }
      LedgerAfterProposals(State(), proposals - {id}, proposalCount, now);
      LedgerAfterOriginMove(State().(clock := now, proposals := proposals - {id}), p.tokenId, p.to);
      proposals, poets, clock := proposals - {id}, poets[p.tokenId := poets[p.tokenId].(holder := p.to)], now;
      r := Ok(());
    }
  }
}
