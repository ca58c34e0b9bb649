/** The three records of a stake agree: the dominator's total, the staker's entry and the reserve. */
module StakeLedgers {
  import opened Results
  import opened MapSums
  import opened VerifierTypes
  import opened VerifierState
  import opened VerifierSteps
  import opened Entries
  import opened Receipts
  import opened Eviction

  function StakeWeight(d: Account, k: (Account, Account), v: Staking): nat {
    if k.0 == d then v.amount else 0
  }

  function StakedAt(d: Account): ((Account, Account), Staking) -> nat {
    (k, v) => StakeWeight(d, k, v)
  }

  ghost function StakeSum(stakings: map<(Account, Account), Staking>, d: Account): nat {
    Weigh(stakings, StakedAt(d))
  }

  function StakedOf(s: State, d: Account): nat {
    if d in s.dominators then s.dominators[d].staked else 0
  }

  predicate StatusOk(c: Config, dom: Dominator) {
    match dom.status
    case Registered => dom.staked == 0
    case Inactive => dom.staked < c.onlineThreshold
    case Active => dom.staked >= c.onlineThreshold
    case Evicted => true
  }

  /** Dominator `D`: its total is the sum of its stakings, and its status follows the total. */
  ghost predicate TotalOk(c: Config, s: State, D: Account) {
    && StakedOf(s, D) == StakeSum(s.stakings, D)
    && (D in s.dominators ==> StatusOk(c, s.dominators[D]))
  }

  /** Staker `U` at `D`: the entry is reserved in full, and no entry is below the minimum. */
  predicate StakerOk(c: Config, s: State, D: Account, U: Account) {
    && s.StakingOf(D, U).amount == Entry(s, ReserveKey(Staked, U, c.native, D))
    && ((D, U) in s.stakings ==> D in s.dominators && s.stakings[(D, U)].amount >= c.minStake)
  }

  // ---- which calls touch stakes ----

  predicate IsStaking(op: Op) { op.Stake? || op.Unstake? || op.ClaimShares? }

  /** Staking calls take no time, and only unstaking queues anything. */
  lemma StakingClock(c: Config, s: State, op: Op)
    requires c.Valid() && IsStaking(op) && Step(c, s, op).Ok?
    ensures Step(c, s, op).value.now == s.now
    ensures !op.Unstake? ==> Step(c, s, op).value.pending == s.pending
  {
    hide DoStake, DoUnstake, DoClaim;
    if op.Stake? {
      StakeEffect(c, s, op.u, op.d, op.x);
    } else if op.Unstake? {
      UnstakeEffect(c, s, op.u, op.d, op.x);
    } else {
      ClaimEffect(c, s, op.u, op.d);
    }
  }

  /** Calls outside staking: no staking entry moves, and a dominator can only be registered with
      nothing staked, launched or evicted. */
  predicate StakesUntouched(s: State, s': State, D: Account) {
    && s'.stakings == s.stakings
    && StakedOf(s', D) == StakedOf(s, D)
    && (D in s'.dominators ==>
          if D !in s.dominators then s'.dominators[D].status == Registered
          else s'.dominators[D].status == s.dominators[D].status
               || s'.dominators[D].status == Evicted
               || (s.dominators[D].status == Registered && s'.dominators[D].status == Inactive))
  }

  lemma VerifyOneStakes(c: Config, s: State, d: Account, p: Proof, stable: set<Token>, D: Account)
    requires c.Valid() && d in s.dominators && VerifyOne(c, s, d, p, stable).Ok?
    ensures VerifyOne(c, s, d, p, stable).value.stakings == s.stakings
    ensures StakedOf(VerifyOne(c, s, d, p, stable).value, D) == StakedOf(s, D)
    ensures D in VerifyOne(c, s, d, p, stable).value.dominators <==> D in s.dominators
    ensures D in s.dominators ==> VerifyOne(c, s, d, p, stable).value.dominators[D].status == s.dominators[D].status
  {
    hide Apply, Proves, Updated;
  }

  lemma {:induction false} VerifyAllStakes(c: Config, s: State, d: Account, proofs: seq<Proof>, stable: set<Token>, D: Account)
    requires c.Valid() && d in s.dominators && VerifyAll(c, s, d, proofs, stable).Ok?
    ensures VerifyAll(c, s, d, proofs, stable).value.stakings == s.stakings
    ensures StakedOf(VerifyAll(c, s, d, proofs, stable).value, D) == StakedOf(s, D)
    ensures D in VerifyAll(c, s, d, proofs, stable).value.dominators <==> D in s.dominators
    ensures D in s.dominators ==> VerifyAll(c, s, d, proofs, stable).value.dominators[D].status == s.dominators[D].status
  {
    hide VerifyOne;
    if proofs != [] {
      var n := |proofs| - 1;
      VerifyAllStakes(c, s, d, proofs[..n], stable, D);
      VerifyOneStakes(c, VerifyAll(c, s, d, proofs[..n], stable).value, d, proofs[n], stable, D);
    }
  }

  lemma {:induction false} ReleaseAllStakes(c: Config, s: State, order: seq<Account>)
    ensures ReleaseAll(c, s, order).stakings == s.stakings
    ensures ReleaseAll(c, s, order).dominators == s.dominators
    ensures ReleaseAll(c, s, order).bonuses == s.bonuses
    ensures ReleaseAll(c, s, order).now == s.now
  {
    hide Unreserve;
    if order != [] {
      ReleaseAllStakes(c, s, order[..|order| - 1]);
    }
  }

  lemma RevokeStakes(c: Config, s: State, u: Account, d: Account, t: Token, x: nat, callback: Option<nat>)
    requires DoRevoke(c, s, u, d, t, x, callback).Ok?
    ensures var s' := DoRevoke(c, s, u, d, t, x, callback).value;
            && s'.stakings == s.stakings && s'.dominators == s.dominators && s'.now == s.now
            && s'.bonuses == s.bonuses && s'.pending == s.pending
  {
    hide DoRevoke;
  }

  lemma OtherStepStakes(c: Config, s: State, op: Op, D: Account)
    requires c.Valid() && Step(c, s, op).Ok? && !IsStaking(op)
    ensures StakesUntouched(s, Step(c, s, op).value, D)
  {
    hide DoRevoke, Reserve, VerifyAll, ReleaseAll;
    if op.RevokeFrom? {
      RevokeStakes(c, s, op.u, op.d, op.t, op.x, op.callback);
    } else if op.Verify? {
      VerifyAllStakes(c, s, op.d, op.proofs, op.stable, D);
    } else if op.NextBlock? {
      ReleaseAllStakes(c, Snapshots(c, s.(now := s.now + 1)), op.order);
    }
  }

  lemma OtherStepEntry(c: Config, s: State, op: Op, U: Account, T: Token, D: Account)
    requires c.Valid() && Step(c, s, op).Ok? && !IsStaking(op)
    ensures Entry(Step(c, s, op).value, ReserveKey(Staked, U, T, D)) == Entry(s, ReserveKey(Staked, U, T, D))
  {
    hide DoAuthorize, DoRevoke, VerifyAll, ReleaseAll;
    var j := ReserveKey(Staked, U, T, D);
    if op.AuthorizeTo? {
      AuthorizeEntry(s, op.u, op.d, op.t, op.x, j);
    } else if op.RevokeFrom? {
      RevokeReceipts(c, s, op.u, op.d, op.t, op.x, op.callback);
      if s.dominators[op.d].status == Evicted {
        EvictedRevokeEntry(c, s, op.u, op.d, op.t, op.x, op.callback, j);
      } else {
        PlainRevokeEntry(c, s, op.u, op.d, op.t, op.x, op.callback, j);
      }
    } else if op.Verify? {
      VerifyAllOtherEntry(c, s, op.d, op.proofs, op.stable, j);
    } else if op.NextBlock? {
      ReleaseAllEntry(c, Snapshots(c, s.(now := s.now + 1)), op.order, j);
    }
  }

  // ---- invariance ----

  lemma StakeTotal(c: Config, s: State, u: Account, d: Account, x: nat, D: Account)
    requires c.Valid() && DoStake(c, s, u, d, x).Ok? && TotalOk(c, s, D)
    ensures TotalOk(c, DoStake(c, s, u, d, x).value, D)
  {
    hide DoStake, StakeSum;
    StakeEffect(c, s, u, d, x);
    PutStakeSum(s.stakings, d, u, Staking(CurrentSeason(c, s.now, s.dominators[d].startFrom), s.StakingOf(d, u).amount + x), D);
  }

  lemma PutStakeSum(m: map<(Account, Account), Staking>, d: Account, u: Account, v: Staking, D: Account)
    ensures StakeSum(m[(d, u) := v], D)
            == StakeSum(m, D) + if D == d then v.amount - (if (d, u) in m then m[(d, u)].amount else 0) else 0
  {
    WeighPut(m, StakedAt(D), (d, u), v);
  }

  lemma DropStakeSum(m: map<(Account, Account), Staking>, d: Account, u: Account, D: Account)
    requires (d, u) in m
    ensures StakeSum(m - {(d, u)}, D) == StakeSum(m, D) - if D == d then m[(d, u)].amount else 0
  {
    WeighDrop(m, StakedAt(D), (d, u));
  }

  lemma UnstakeTotal(c: Config, s: State, u: Account, d: Account, x: nat, D: Account)
    requires c.Valid() && DoUnstake(c, s, u, d, x).Ok? && TotalOk(c, s, D)
    ensures TotalOk(c, DoUnstake(c, s, u, d, x).value, D)
  {
    hide DoUnstake, StakeSum;
    UnstakeEffect(c, s, u, d, x);
    var was := s.stakings[(d, u)];
    DropStakeSum(s.stakings, d, u, D);
    if was.amount != x {
      PutStakeSum(s.stakings, d, u, Staking(CurrentSeason(c, s.now, s.dominators[d].startFrom), was.amount - x), D);
    }
  }

  lemma ClaimTotal(c: Config, s: State, u: Account, d: Account, D: Account)
    requires c.Valid() && DoClaim(c, s, u, d).Ok? && TotalOk(c, s, D)
    ensures TotalOk(c, DoClaim(c, s, u, d).value, D)
  {
    hide DoClaim, StakeSum;
    ClaimEffect(c, s, u, d);
    PutStakeSum(s.stakings, d, u, Staking(CurrentSeason(c, s.now, s.dominators[d].startFrom), s.stakings[(d, u)].amount), D);
  }

  lemma StepTotal(c: Config, s: State, op: Op, D: Account)
    requires c.Valid() && Step(c, s, op).Ok? && TotalOk(c, s, D)
    ensures TotalOk(c, Step(c, s, op).value, D)
  {
    hide DoStake, DoUnstake, DoClaim, StakeSum;
    if op.Stake? {
      StakeTotal(c, s, op.u, op.d, op.x, D);
    } else if op.Unstake? {
      UnstakeTotal(c, s, op.u, op.d, op.x, D);
    } else if op.ClaimShares? {
      ClaimTotal(c, s, op.u, op.d, D);
    } else {
      OtherStepStakes(c, s, op, D);
      hide Step;
    }
  }

  lemma StakingStaker(c: Config, s: State, op: Op, D: Account, U: Account)
    requires c.Valid() && Step(c, s, op).Ok? && IsStaking(op) && StakerOk(c, s, D, U)
    ensures StakerOk(c, Step(c, s, op).value, D, U)
  {
    hide DoStake, DoUnstake, DoClaim;
    var j := ReserveKey(Staked, U, c.native, D);
    if op.Stake? {
      StakeEffect(c, s, op.u, op.d, op.x);
      StakeEntry(c, s, op.u, op.d, op.x, j);
    } else if op.Unstake? {
      UnstakeEffect(c, s, op.u, op.d, op.x);
      UnstakeEntry(c, s, op.u, op.d, op.x, j);
    } else {
      ClaimEffect(c, s, op.u, op.d);
      ClaimEntry(c, s, op.u, op.d, j);
    }
  }

  lemma StepStaker(c: Config, s: State, op: Op, D: Account, U: Account)
    requires c.Valid() && Step(c, s, op).Ok? && StakerOk(c, s, D, U)
    ensures StakerOk(c, Step(c, s, op).value, D, U)
  {
    hide Step;
    if IsStaking(op) {
      StakingStaker(c, s, op, D, U);
    } else {
      OtherStepStakes(c, s, op, D);
      OtherStepEntry(c, s, op, U, c.native, D);
      StepDominator(c, s, op, D);
    }
  }

  /** In every reachable state a dominator's total is the sum of its stakings and decides its status:
      nothing staked while Registered; once launched and not evicted, Active exactly at the threshold. */
  lemma {:induction false} StakeTotalsAgree(c: Config, ops: seq<Op>, d: Account)
    requires c.Valid()
    ensures TotalOk(c, Run(c, ops), d)
  {
    hide Step, TotalOk;
    if ops == [] {
      GenesisTotal(c, d);
    } else {
      var n := |ops| - 1;
      StakeTotalsAgree(c, ops[..n], d);
      if Step(c, Run(c, ops[..n]), ops[n]).Ok? {
        StepTotal(c, Run(c, ops[..n]), ops[n], d);
      }
    }
  }

  lemma GenesisTotal(c: Config, d: Account)
    ensures TotalOk(c, INITIAL, d)
  {
    assert Weigh(INITIAL.stakings, StakedAt(d)) == 0;
  }

  /** In every reachable state each staking entry equals the matching reserve. */
  lemma {:induction false} StakersAreReserved(c: Config, ops: seq<Op>, d: Account, u: Account)
    requires c.Valid()
    ensures StakerOk(c, Run(c, ops), d, u)
  {
    hide Step;
    if ops != [] {
      var n := |ops| - 1;
      StakersAreReserved(c, ops[..n], d, u);
      if Step(c, Run(c, ops[..n]), ops[n]).Ok? {
        StepStaker(c, Run(c, ops[..n]), ops[n], d, u);
      }
    }
  }
}
