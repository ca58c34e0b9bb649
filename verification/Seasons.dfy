/** Profit seasons: finished records are final, snapshots match the stakes paid from them, and every
    staker is paid for a season at most once. */
module Seasons {
  import opened FixedPoint
  import opened VerifierTypes
  import opened VerifierState
  import opened VerifierSteps
  import opened Entries
  import opened Eviction
  import opened StakeLedgers
  import opened FundEvents

  function SeasonOf(c: Config, s: State, D: Account): nat
    requires c.seasonDuration > 0
  {
    if D in s.dominators then CurrentSeason(c, s.now, s.dominators[D].startFrom) else 0
  }

  // ---- payments on record ----

  datatype Payment = Payment(staker: Account, stake: nat, bonus: Bonus)

  /** Every payment for season `k` of dominator `D`, oldest first. */
  function Payments(h: History, D: Account, k: nat): seq<Payment> {
    if h.Genesis? then []
    else if h.last.SeasonPaid? && h.last.dominator == D && h.last.season == k then
      Payments(h.before, D, k) + [Payment(h.last.staker, h.last.stake, h.last.bonus)]
    else Payments(h.before, D, k)
  }

  function StakesPaid(ps: seq<Payment>): seq<nat> {
    seq(|ps|, i requires 0 <= i < |ps| => ps[i].stake)
  }

  /** How often `U` appears among the payments. */
  function TimesPaid(ps: seq<Payment>, U: Account): nat {
    if ps == [] then 0
    else TimesPaid(ps[..|ps| - 1], U) + if ps[|ps| - 1].staker == U then 1 else 0
  }

  predicate AllFrom(ps: seq<Payment>, b: Bonus) {
    forall i :: 0 <= i < |ps| ==> ps[i].bonus == b
  }

  lemma SumAppend(ps: seq<Payment>, p: Payment)
    ensures SumOf(StakesPaid(ps + [p])) == SumOf(StakesPaid(ps)) + p.stake
    ensures TimesPaid(ps + [p], p.staker) == TimesPaid(ps, p.staker) + 1
    ensures forall U :: U != p.staker ==> TimesPaid(ps + [p], U) == TimesPaid(ps, U)
  {
    assert StakesPaid(ps + [p]) == StakesPaid(ps) + [p.stake];
    assert (ps + [p])[..|ps|] == ps;
  }

  lemma {:induction false} FundsKeepPayments(h: History, D: Account, k: nat)
    ensures Payments(Funds(h), D, k) == Payments(h, D, k)
  {
    if h.Then? {
      FundsKeepPayments(h.before, D, k);
    }
  }

  /** Taking shares records one payment for every season in the range and none outside it. */
  lemma {:induction false} PaidRange(s: State, d: Account, u: Account, from: nat, to: nat, stake: nat, D: Account, k: nat)
    ensures Payments(PaidHistory(s, d, u, from, to, stake), D, k)
            == Payments(s.history, D, k)
               + if D == d && from <= k < to then [Payment(u, stake, s.BonusOf(D, k))] else []
    decreases (to)
  {
    if from < to {
      PaidRange(s, d, u, from, to - 1, stake, D, k);
    }
  }

  lemma TakenPayments(s: State, d: Account, u: Account, from: nat, to: nat, stake: nat, D: Account, k: nat)
    requires TakeShares(s, d, u, from, to, stake).Ok?
    ensures Payments(TakeShares(s, d, u, from, to, stake).value.history, D, k)
            == Payments(s.history, D, k)
               + if D == d && from <= k < to then [Payment(u, stake, s.BonusOf(D, k))] else []
  {
    hide PaidHistory, Credited, Shares, CreditFits;
    PaidRange(s, d, u, from, to, stake, D, k);
  }

  /** Whether a staking call pays its staker for season `k` of `D`. */
  predicate Pays(c: Config, s: State, op: Op, D: Account, k: nat)
    requires c.seasonDuration > 0 && IsStaking(op)
  {
    D == op.d && s.StakingOf(D, op.u).amount != 0 && s.StakingOf(D, op.u).fromSeason <= k < SeasonOf(c, s, D)
  }

  lemma StakePayments(c: Config, s: State, u: Account, d: Account, x: nat, D: Account, k: nat)
    requires c.Valid() && DoStake(c, s, u, d, x).Ok?
    ensures Payments(DoStake(c, s, u, d, x).value.history, D, k)
            == Payments(s.history, D, k)
               + if Pays(c, s, Stake(u, d, x), D, k) then [Payment(u, s.StakingOf(D, u).amount, s.BonusOf(D, k))] else []
  {
    hide Reserve, TakeShares, Payments;
    var was, season := s.StakingOf(d, u), CurrentSeason(c, s.now, s.dominators[d].startFrom);
    var s1 := Reserve(s, Staked, u, c.native, x, d).value;
    if was.amount != 0 {
      TakenPayments(s1, d, u, was.fromSeason, season, was.amount, D, k);
    }
  }

  lemma UnstakePayments(c: Config, s: State, u: Account, d: Account, x: nat, D: Account, k: nat)
    requires c.Valid() && DoUnstake(c, s, u, d, x).Ok? && s.StakingOf(d, u).amount != 0
    ensures Payments(DoUnstake(c, s, u, d, x).value.history, D, k)
            == Payments(s.history, D, k)
               + if Pays(c, s, Unstake(u, d, x), D, k) then [Payment(u, s.StakingOf(D, u).amount, s.BonusOf(D, k))] else []
  {
    hide Reserve, Unreserve, TakeShares;
    var s1, was := MoveToPending(c, s, u, d, x).value, s.stakings[(d, u)];
    TakenPayments(s1, d, u, was.fromSeason, CurrentSeason(c, s.now, s.dominators[d].startFrom), was.amount, D, k);
  }

  lemma ClaimPayments(c: Config, s: State, u: Account, d: Account, D: Account, k: nat)
    requires c.Valid() && DoClaim(c, s, u, d).Ok? && s.StakingOf(d, u).amount != 0
    ensures Payments(DoClaim(c, s, u, d).value.history, D, k)
            == Payments(s.history, D, k)
               + if Pays(c, s, ClaimShares(u, d), D, k) then [Payment(u, s.StakingOf(D, u).amount, s.BonusOf(D, k))] else []
  {
    hide TakeShares, Payments;
    var was := s.stakings[(d, u)];
    TakenPayments(s, d, u, was.fromSeason, CurrentSeason(c, s.now, s.dominators[d].startFrom), was.amount, D, k);
  }

  /** A staking call records at most one payment for (`D`, `k`): the caller's whole stake, at the
      season's present record. */
  lemma StakingPayments(c: Config, s: State, op: Op, D: Account, k: nat)
    requires c.Valid() && IsStaking(op) && Step(c, s, op).Ok? && StakerOk(c, s, op.d, op.u)
    ensures Payments(Step(c, s, op).value.history, D, k)
            == Payments(s.history, D, k)
               + if Pays(c, s, op, D, k) then [Payment(op.u, s.StakingOf(D, op.u).amount, s.BonusOf(D, k))] else []
  {
    hide DoStake, DoUnstake, DoClaim, Payments, Entry;
    if op.Stake? {
      StakePayments(c, s, op.u, op.d, op.x, D, k);
    } else if op.Unstake? {
      UnstakeEffect(c, s, op.u, op.d, op.x);
      UnstakePayments(c, s, op.u, op.d, op.x, D, k);
    } else {
      ClaimEffect(c, s, op.u, op.d);
      ClaimPayments(c, s, op.u, op.d, D, k);
    }
  }

  lemma {:induction false} ReleaseAllPayments(c: Config, s: State, order: seq<Account>, D: Account, k: nat)
    ensures Payments(ReleaseAll(c, s, order).history, D, k) == Payments(s.history, D, k)
  {
    hide Unreserve;
    if order != [] {
      ReleaseAllPayments(c, s, order[..|order| - 1], D, k);
    }
  }

  lemma OtherPayments(c: Config, s: State, op: Op, D: Account, k: nat)
    requires c.Valid() && !IsStaking(op) && Step(c, s, op).Ok?
    ensures Payments(Step(c, s, op).value.history, D, k) == Payments(s.history, D, k)
  {
    if op.NextBlock? {
      hide ReleaseAll, Payments;
      ReleaseAllPayments(c, Snapshots(c, s.(now := s.now + 1)), op.order, D, k);
    } else {
      hide Step, Payments, Funds;
      QuietFunds(c, s, op);
      FundsKeepPayments(s.history, D, k);
      FundsKeepPayments(Step(c, s, op).value.history, D, k);
    }
  }

  // ---- the clock ----

  /** Seasons of `D` start on a hook block in the past. */
  predicate ClockOk(c: Config, s: State, D: Account)
    requires c.grace > 0
  {
    D in s.dominators ==> 0 < s.dominators[D].startFrom <= s.now && s.dominators[D].startFrom % c.grace == 0
  }

  /** Nobody waits for a season that has not begun. */
  predicate FromOk(c: Config, s: State, D: Account, U: Account)
    requires c.seasonDuration > 0
  {
    (D, U) in s.stakings ==> s.stakings[(D, U)].fromSeason <= SeasonOf(c, s, D)
  }

  lemma RegisterClock(c: Config, s: State, d: Account)
    requires c.Valid() && DoRegister(c, s, d).Ok?
    ensures ClockOk(c, DoRegister(c, s, d).value, d)
    ensures SeasonOf(c, DoRegister(c, s, d).value, d) == 0
  {
    var g, q := c.grace, s.now / c.grace;
    var start := s.now - s.now % g;
    assert start == g * q;
    DivUnique(start, g, q, 0);
    assert q >= 1;
    MulMono(1, q, g);
    assert s.now - start < c.seasonDuration;
    DivUnique(s.now - start, c.seasonDuration, 0, s.now - start);
  }

  lemma NoNewDominator(c: Config, s: State, op: Op, D: Account)
    requires c.Valid() && Step(c, s, op).Ok? && D !in s.dominators && (op.Register? ==> op.d != D)
    ensures D !in Step(c, s, op).value.dominators
  {
    hide DoRevoke, DoStake, DoUnstake, DoClaim, Reserve, VerifyAll, ReleaseAll;
    if op.Stake? {
      StakeEffect(c, s, op.u, op.d, op.x);
    } else if op.Unstake? {
      UnstakeEffect(c, s, op.u, op.d, op.x);
    } else if op.ClaimShares? {
      ClaimEffect(c, s, op.u, op.d);
    } else if op.RevokeFrom? {
      RevokeStakes(c, s, op.u, op.d, op.t, op.x, op.callback);
    } else if op.Verify? {
      VerifyAllStakes(c, s, op.d, op.proofs, op.stable, D);
    } else if op.NextBlock? {
      ReleaseAllStakes(c, Snapshots(c, s.(now := s.now + 1)), op.order);
    }
  }

  lemma StepClock(c: Config, s: State, op: Op)
    requires c.Valid() && Step(c, s, op).Ok?
    ensures Step(c, s, op).value.now == s.now + if op.NextBlock? then 1 else 0
  {
    if IsStaking(op) {
      StakingClock(c, s, op);
    } else if op.NextBlock? {
      hide DoNextBlock;
      BlockTicks(c, s, op.order);
    } else {
      hide Step, Funds;
      QuietFunds(c, s, op);
    }
  }

  lemma BlockTicks(c: Config, s: State, order: seq<Account>)
    requires c.Valid()
    ensures DoNextBlock(c, s, order).now == s.now + 1
  {
    hide ReleaseAll;
    ReleaseAllStakes(c, Snapshots(c, s.(now := s.now + 1)), order);
  }

  /** Between blocks the season of a dominator stands still. */
  lemma SeasonStill(c: Config, s: State, op: Op, D: Account)
    requires c.Valid() && Step(c, s, op).Ok? && !op.NextBlock? && ClockOk(c, s, D)
    ensures ClockOk(c, Step(c, s, op).value, D)
    ensures SeasonOf(c, Step(c, s, op).value, D) == SeasonOf(c, s, D)
  {
    if op.Register? && op.d == D && D !in s.dominators {
      RegisterClock(c, s, D);
    } else {
      hide Step;
      StepClock(c, s, op);
      StepDominator(c, s, op, D);
      if D !in s.dominators {
        NoNewDominator(c, s, op, D);
      }
    }
  }

  /** Across a block a season advances by one exactly when the block closes it, on a hook block. */
  lemma NextSeason(c: Config, now: nat, start: nat)
    requires c.Valid() && start <= now && start % c.grace == 0
    ensures var m, e := CurrentSeason(c, now, start), (now + 1 - start) % c.seasonDuration == 0;
            && CurrentSeason(c, now + 1, start) == m + (if e then 1 else 0)
            && (e ==> (now + 1) % c.grace == 0)
  {
    var d, g, x := c.seasonDuration, c.grace, now - start;
    var m, r := x / d, x % d;
    assert x == d * m + r;
    DivUnique(x, d, m, r);
    if r + 1 < d {
      DivUnique(x + 1, d, m, r + 1);
    } else {
      assert x + 1 == d * (m + 1);
      DivUnique(x + 1, d, m + 1, 0);
      Multiples(g, d, m + 1, start);
    }
  }

  lemma Multiples(g: nat, d: nat, n: nat, start: nat)
    requires g > 0 && d % g == 0 && start % g == 0
    ensures (start + d * n) % g == 0
  {
    var a, b := d / g, start / g;
    assert d == g * a && start == g * b;
    Swap(g, a, n);
    assert start + d * n == g * (b + a * n);
    DivUnique(start + d * n, g, b + a * n, 0);
  }

  lemma BlockClock(c: Config, s: State, order: seq<Account>, D: Account)
    requires c.Valid() && ClockOk(c, s, D)
    ensures var s' := DoNextBlock(c, s, order);
            && ClockOk(c, s', D)
            && s'.dominators == s.dominators && s'.stakings == s.stakings
            && SeasonOf(c, s', D) == SeasonOf(c, s, D)
                 + (if D in s.dominators && SeasonEnds(c, s.dominators[D], s.now + 1) then 1 else 0)
            && (D in s.dominators && SeasonEnds(c, s.dominators[D], s.now + 1) ==> (s.now + 1) % c.grace == 0)
  {
    hide ReleaseAll;
    ReleaseAllStakes(c, Snapshots(c, s.(now := s.now + 1)), order);
    if D in s.dominators {
      NextSeason(c, s.now, s.dominators[D].startFrom);
    }
  }

  lemma StakingStakings(c: Config, s: State, op: Op)
    requires c.Valid() && IsStaking(op) && Step(c, s, op).Ok?
    ensures op.d in s.dominators && Step(c, s, op).value.bonuses == s.bonuses
    ensures var s' := Step(c, s, op).value;
            || s'.stakings == s.stakings - {(op.d, op.u)}
            || ((op.d, op.u) in s'.stakings
                && s'.stakings == s.stakings[(op.d, op.u) := s'.stakings[(op.d, op.u)]]
                && s'.stakings[(op.d, op.u)].fromSeason == SeasonOf(c, s, op.d))
  {
    hide DoStake, DoUnstake, DoClaim;
    if op.Stake? {
      StakeEffect(c, s, op.u, op.d, op.x);
    } else if op.Unstake? {
      UnstakeEffect(c, s, op.u, op.d, op.x);
    } else {
      ClaimEffect(c, s, op.u, op.d);
    }
  }

  lemma StepFrom(c: Config, s: State, op: Op, D: Account, U: Account)
    requires c.Valid() && Step(c, s, op).Ok? && ClockOk(c, s, D) && FromOk(c, s, D, U)
    ensures ClockOk(c, Step(c, s, op).value, D) && FromOk(c, Step(c, s, op).value, D, U)
  {
    if op.NextBlock? {
      hide DoNextBlock;
      BlockClock(c, s, op.order, D);
    } else {
      hide Step;
      SeasonStill(c, s, op, D);
      if IsStaking(op) {
        StakingStakings(c, s, op);
      } else {
        OtherStepStakes(c, s, op, D);
      }
    }
  }

  lemma {:induction false} SeasonClocks(c: Config, ops: seq<Op>, D: Account, U: Account)
    requires c.Valid()
    ensures ClockOk(c, Run(c, ops), D) && FromOk(c, Run(c, ops), D, U)
  {
    hide Step;
    if ops != [] {
      var n := |ops| - 1;
      SeasonClocks(c, ops[..n], D, U);
      if Step(c, Run(c, ops[..n]), ops[n]).Ok? {
        StepFrom(c, Run(c, ops[..n]), ops[n], D, U);
      }
    }
  }
}
