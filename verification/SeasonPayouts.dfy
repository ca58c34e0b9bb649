/** What every run keeps about season records and the payments drawn from them. */
module SeasonPayouts {
  import opened Results
  import opened FixedPoint
  import opened MapSums
  import opened VerifierTypes
  import opened VerifierState
  import opened VerifierSteps
  import opened Orders
  import opened StakeLedgers
  import opened Seasons

  // ---- season records ----

  lemma SettleBonus(s: State, d: Account, season: nat, base: Token, quote: Token, cl: Clearing, D: Account, k: nat)
    requires Settle(s, d, season, base, quote, cl).Ok?
    ensures var s' := Settle(s, d, season, base, quote, cl).value;
            && s'.BonusOf(D, k).staked == s.BonusOf(D, k).staked
            && (D != d || k != season ==> s'.BonusOf(D, k) == s.BonusOf(D, k))
  {
    hide ClearUsers, CreditFee, PutProfit, State.BonusOf;
    var s1 := (if |cl.users| > 1 then ClearUsers(s, d, base, quote, cl.users) else Ok(s)).value;
    var s2 := PutProfit(s1, d, season, quote, cl.quoteFee).value;
    BonusFrame(s, s1, D, k);
    ProfitBonus(s1, d, season, quote, cl.quoteFee, D, k);
    BonusFrame(s2, Settle(s, d, season, base, quote, cl).value, D, k);
  }

  lemma ProfitBonus(s: State, d: Account, season: nat, t: Token, x: nat, D: Account, k: nat)
    requires PutProfit(s, d, season, t, x).Ok?
    ensures var s' := PutProfit(s, d, season, t, x).value;
            && s'.BonusOf(D, k).staked == s.BonusOf(D, k).staked
            && (D != d || k != season ==> s'.BonusOf(D, k) == s.BonusOf(D, k))
  {
  }

  lemma OrderBonus(c: Config, s: State, d: Account, p: Proof, stable: set<Token>, D: Account, k: nat)
    requires c.Valid() && d in s.dominators && (p.cmd.AskLimit? || p.cmd.BidLimit?)
    requires ApplyOrder(c, s, d, p, stable).Ok?
    ensures var s' := ApplyOrder(c, s, d, p, stable).value;
            && s'.BonusOf(D, k).staked == s.BonusOf(D, k).staked
            && (k != SeasonOf(c, s, D) ==> s'.BonusOf(D, k) == s.BonusOf(D, k))
  {
    hide Settle, AskAccepted, BidAccepted, AskClearing, BidClearing, State.BonusOf;
    assert OrderOf(p.cmd, p).Shapes(p.leaves) by {
      OrderShapes(c, s, d, p, stable);
    }
    SettleBonus(s, d, CurrentSeason(c, s.now, s.dominators[d].startFrom), p.cmd.base, p.cmd.quote, OrderClearing(p), D, k);
  }

  lemma OrderShapes(c: Config, s: State, d: Account, p: Proof, stable: set<Token>)
    requires p.cmd.AskLimit? || p.cmd.BidLimit?
    requires OrderAccepted(c, s, d, p, stable)
    ensures OrderOf(p.cmd, p).Shapes(p.leaves)
  {
  }

  lemma VerifyOneBonus(c: Config, s: State, d: Account, p: Proof, stable: set<Token>, D: Account, k: nat)
    requires c.Valid() && d in s.dominators && VerifyOne(c, s, d, p, stable).Ok?
    ensures var s' := VerifyOne(c, s, d, p, stable).value;
            && SeasonOf(c, s', D) == SeasonOf(c, s, D)
            && s'.BonusOf(D, k).staked == s.BonusOf(D, k).staked
            && (k != SeasonOf(c, s, D) ==> s'.BonusOf(D, k) == s.BonusOf(D, k))
  {
    hide ApplyOrder, ApplyCommand, Proves, Updated;
    if p.cmd.AskLimit? || p.cmd.BidLimit? {
      OrderBonus(c, s, d, p, stable, D, k);
    }
  }

  lemma {:induction false} VerifyAllBonus(c: Config, s: State, d: Account, proofs: seq<Proof>, stable: set<Token>, D: Account, k: nat)
    requires c.Valid() && d in s.dominators && VerifyAll(c, s, d, proofs, stable).Ok?
    ensures var s' := VerifyAll(c, s, d, proofs, stable).value;
            && SeasonOf(c, s', D) == SeasonOf(c, s, D)
            && s'.BonusOf(D, k).staked == s.BonusOf(D, k).staked
            && (k != SeasonOf(c, s, D) ==> s'.BonusOf(D, k) == s.BonusOf(D, k))
  {
    hide VerifyOne, State.BonusOf, SeasonOf;
    if proofs != [] {
      var n := |proofs| - 1;
      VerifyAllBonus(c, s, d, proofs[..n], stable, D, k);
      VerifyOneBonus(c, VerifyAll(c, s, d, proofs[..n], stable).value, d, proofs[n], stable, D, k);
    }
  }

  /** A call can only add profit, and only to the season under way. */
  lemma CallBonus(c: Config, s: State, op: Op, D: Account, k: nat)
    requires c.Valid() && Step(c, s, op).Ok? && !op.NextBlock?
    ensures var s' := Step(c, s, op).value;
            && s'.BonusOf(D, k).staked == s.BonusOf(D, k).staked
            && (k != SeasonOf(c, s, D) ==> s'.BonusOf(D, k) == s.BonusOf(D, k))
  {
    if IsStaking(op) {
      hide Step;
      StakingStakings(c, s, op);
    } else {
      hide DoRevoke, Reserve, VerifyAll;
      if op.RevokeFrom? {
        RevokeStakes(c, s, op.u, op.d, op.t, op.x, op.callback);
      } else if op.Verify? {
        VerifyAllBonus(c, s, op.d, op.proofs, op.stable, D, k);
      }
    }
  }

  lemma SnapshotAt(c: Config, s: State, D: Account, k: nat)
    requires c.Valid()
    ensures Snapshots(c, s).BonusOf(D, k)
            == if D in s.dominators && SeasonEnds(c, s.dominators[D], s.now) && k + 1 == SeasonOf(c, s, D)
               then s.BonusOf(D, k).(staked := s.dominators[D].staked)
               else s.BonusOf(D, k)
  {
    if D in s.dominators && SeasonEnds(c, s.dominators[D], s.now) {
      EndingSeason(c, s.now, s.dominators[D].startFrom);
      assert (D, CurrentSeason(c, s.now, s.dominators[D].startFrom) - 1) in Ending(c, s);
    }
  }

  lemma EndingSeason(c: Config, now: nat, start: nat)
    requires c.Valid() && start < now && (now - start) % c.seasonDuration == 0
    ensures CurrentSeason(c, now, start) >= 1
  {
    var x, d := now - start, c.seasonDuration;
    assert x == d * (x / d);
  }

  /** A block writes the snapshot of the season it closes and touches no other record. */
  lemma BlockBonus(c: Config, s: State, order: seq<Account>, D: Account, k: nat)
    requires c.Valid() && ClockOk(c, s, D)
    ensures DoNextBlock(c, s, order).BonusOf(D, k)
            == if D in s.dominators && SeasonEnds(c, s.dominators[D], s.now + 1) && k == SeasonOf(c, s, D)
               then s.BonusOf(D, k).(staked := s.dominators[D].staked)
               else s.BonusOf(D, k)
  {
    hide ReleaseAll, State.BonusOf, SeasonEnds, Snapshots;
    var s1 := s.(now := s.now + 1);
    BlockClock(c, s, order, D);
    SnapshotAt(c, s1, D, k);
    ReleaseAllStakes(c, Snapshots(c, s1), order);
    BonusFrame(ReleaseAll(c, Snapshots(c, s1), order), Snapshots(c, s1), D, k);
    BonusFrame(s1, s, D, k);
    SnapshotFrame(c, s1);
  }

  lemma BonusFrame(s: State, s': State, D: Account, k: nat)
    requires s.bonuses == s'.bonuses
    ensures s.BonusOf(D, k) == s'.BonusOf(D, k)
  {
  }

  lemma SnapshotFrame(c: Config, s: State)
    requires c.seasonDuration > 0
    ensures Snapshots(c, s) == s.(bonuses := Snapshots(c, s).bonuses)
  {
  }

  /** A season never goes back, and the record of a finished season never changes. */
  lemma FinishedIsFinal(c: Config, s: State, op: Op, D: Account, k: nat)
    requires c.Valid() && Step(c, s, op).Ok? && ClockOk(c, s, D) && k < SeasonOf(c, s, D)
    ensures k < SeasonOf(c, Step(c, s, op).value, D)
    ensures Step(c, s, op).value.BonusOf(D, k) == s.BonusOf(D, k)
  {
    if op.NextBlock? {
      hide DoNextBlock, State.BonusOf;
      BlockClock(c, s, op.order, D);
      BlockBonus(c, s, op.order, D, k);
    } else {
      hide Step, State.BonusOf;
      SeasonStill(c, s, op, D);
      CallBonus(c, s, op, D, k);
    }
  }

  /** Once a season is finished, its record is the same after every later operation of every run. */
  lemma {:induction false} FinishedSeasonsNeverChange(c: Config, ops: seq<Op>, i: nat, D: Account, k: nat)
    requires c.Valid() && i <= |ops| && k < SeasonOf(c, Run(c, ops[..i]), D)
    ensures k < SeasonOf(c, Run(c, ops), D)
    ensures Run(c, ops).BonusOf(D, k) == Run(c, ops[..i]).BonusOf(D, k)
    decreases |ops|
  {
    hide Step, State.BonusOf, SeasonOf, ClockOk;
    if i < |ops| {
      var n := |ops| - 1;
      assert ops[..n][..i] == ops[..i];
      FinishedSeasonsNeverChange(c, ops[..n], i, D, k);
      SeasonClocks(c, ops[..n], D, 0);
      if Step(c, Run(c, ops[..n]), ops[n]).Ok? {
        FinishedIsFinal(c, Run(c, ops[..n]), ops[n], D, k);
      }
    } else {
      assert ops[..i] == ops;
    }
  }

  // ---- snapshots and payments ----

  function EligibleWeight(D: Account, k: nat, key: (Account, Account), v: Staking): nat {
    if key.0 == D && v.fromSeason <= k then v.amount else 0
  }

  function EligibleAt(D: Account, k: nat): ((Account, Account), Staking) -> nat {
    (key, v) => EligibleWeight(D, k, key, v)
  }

  /** Stakes at `D` that can still claim season `k`. */
  ghost function Eligible(stakings: map<(Account, Account), Staking>, D: Account, k: nat): nat {
    Weigh(stakings, EligibleAt(D, k))
  }

  /** The snapshot of a finished season is what was paid from it plus what can still claim it;
      nothing is recorded or paid for a season that is not finished. */
  ghost predicate SnapshotOk(c: Config, s: State, D: Account, k: nat)
    requires c.seasonDuration > 0
  {
    var ps := Payments(s.history, D, k);
    if k < SeasonOf(c, s, D) then s.BonusOf(D, k).staked == Eligible(s.stakings, D, k) + SumOf(StakesPaid(ps))
    else s.BonusOf(D, k).staked == 0 && ps == []
  }

  /** Nobody was paid twice, and nobody who can still claim was paid at all. */
  predicate PaidOnce(s: State, D: Account, k: nat, U: Account) {
    var n := TimesPaid(Payments(s.history, D, k), U);
    n <= 1 && ((D, U) in s.stakings && s.stakings[(D, U)].fromSeason <= k ==> n == 0)
  }

  predicate PaidAtRecord(s: State, D: Account, k: nat) {
    AllFrom(Payments(s.history, D, k), s.BonusOf(D, k))
  }

  ghost predicate SeasonOk(c: Config, s: State, D: Account, k: nat, U: Account)
    requires c.seasonDuration > 0
  {
    SnapshotOk(c, s, D, k) && PaidOnce(s, D, k, U) && PaidAtRecord(s, D, k)
  }

  lemma PutEligible(m: map<(Account, Account), Staking>, d: Account, u: Account, v: Staking, D: Account, k: nat)
    requires d == D ==> k < v.fromSeason
    ensures Eligible(m[(d, u) := v], D, k)
            == Eligible(m, D, k) - if d == D && (d, u) in m && m[(d, u)].fromSeason <= k then m[(d, u)].amount else 0
  {
    WeighPut(m, EligibleAt(D, k), (d, u), v);
  }

  lemma DropEligible(m: map<(Account, Account), Staking>, d: Account, u: Account, D: Account, k: nat)
    ensures Eligible(m - {(d, u)}, D, k)
            == Eligible(m, D, k) - if d == D && (d, u) in m && m[(d, u)].fromSeason <= k then m[(d, u)].amount else 0
  {
    if (d, u) in m {
      WeighDrop(m, EligibleAt(D, k), (d, u));
    } else {
      assert m - {(d, u)} == m;
    }
  }

  lemma AllEligible(m: map<(Account, Account), Staking>, D: Account, k: nat)
    requires forall U :: (D, U) in m ==> m[(D, U)].fromSeason <= k
    ensures Eligible(m, D, k) == StakeSum(m, D)
  {
    forall key | key in m ensures EligibleWeight(D, k, key, m[key]) == StakeWeight(D, key, m[key]) {
      if key.0 == D {
        var U := key.1;
        assert key == (D, U);
        assert m[(D, U)].fromSeason <= k;
      }
    }
    WeighSame(m, m, EligibleAt(D, k), StakedAt(D));
  }

  /** A staking call moves its staker's stake from "can still claim" to "paid". */
  lemma StakingEligible(c: Config, s: State, op: Op, D: Account, k: nat)
    requires c.Valid() && IsStaking(op) && Step(c, s, op).Ok? && k < SeasonOf(c, s, D)
    ensures Eligible(Step(c, s, op).value.stakings, D, k)
            == Eligible(s.stakings, D, k) - if Pays(c, s, op, D, k) then s.StakingOf(D, op.u).amount else 0
  {
    hide Step, Eligible;
    StakingStakings(c, s, op);
    var s' := Step(c, s, op).value;
    DropEligible(s.stakings, op.d, op.u, D, k);
    if s'.stakings != s.stakings - {(op.d, op.u)} {
      PutEligible(s.stakings, op.d, op.u, s'.stakings[(op.d, op.u)], D, k);
    }
  }

  lemma StakingSnapshot(c: Config, s: State, op: Op, D: Account, k: nat)
    requires c.Valid() && IsStaking(op) && Step(c, s, op).Ok? && StakerOk(c, s, op.d, op.u)
    requires ClockOk(c, s, D) && SnapshotOk(c, s, D, k)
    ensures SnapshotOk(c, Step(c, s, op).value, D, k)
  {
    hide Step, Eligible, StakesPaid, SumOf, Payments, SeasonOf, StakerOk;
    SeasonStill(c, s, op, D);
    StakingStakings(c, s, op);
    StakingPayments(c, s, op, D, k);
    assert Payments(s.history, D, k) + [] == Payments(s.history, D, k);
    if k < SeasonOf(c, s, D) {
      StakingEligible(c, s, op, D, k);
      SumAppend(Payments(s.history, D, k), Payment(op.u, s.StakingOf(D, op.u).amount, s.BonusOf(D, k)));
    }
  }

  lemma StakingOnce(c: Config, s: State, op: Op, D: Account, k: nat, U: Account)
    requires c.Valid() && IsStaking(op) && Step(c, s, op).Ok? && StakerOk(c, s, op.d, op.u)
    requires SnapshotOk(c, s, D, k) && PaidOnce(s, D, k, U) && PaidAtRecord(s, D, k)
    ensures PaidOnce(Step(c, s, op).value, D, k, U)
    ensures PaidAtRecord(Step(c, s, op).value, D, k)
  {
    hide Step, Eligible, StakesPaid, SumOf, Payments, StakerOk;
    StakingStakings(c, s, op);
    StakingPayments(c, s, op, D, k);
    assert Payments(s.history, D, k) + [] == Payments(s.history, D, k);
    SumAppend(Payments(s.history, D, k), Payment(op.u, s.StakingOf(D, op.u).amount, s.BonusOf(D, k)));
  }

  lemma QuietSeason(c: Config, s: State, op: Op, D: Account, k: nat, U: Account)
    requires c.Valid() && !IsStaking(op) && !op.NextBlock? && Step(c, s, op).Ok?
    requires ClockOk(c, s, D) && SeasonOk(c, s, D, k, U)
    ensures SeasonOk(c, Step(c, s, op).value, D, k, U)
  {
    hide Step, Eligible, Payments, SeasonOf, State.BonusOf, SumOf, StakesPaid, TimesPaid;
    SeasonStill(c, s, op, D);
    OtherPayments(c, s, op, D, k);
    CallBonus(c, s, op, D, k);
    OtherStepStakes(c, s, op, D);
  }

  lemma BlockSeason(c: Config, s: State, op: Op, D: Account, k: nat, U: Account)
    requires c.Valid() && op.NextBlock? && ClockOk(c, s, D) && SeasonOk(c, s, D, k, U)
    requires TotalOk(c, s, D) && forall V :: FromOk(c, s, D, V)
    ensures SeasonOk(c, DoNextBlock(c, s, op.order), D, k, U)
  {
    hide DoNextBlock, Eligible, Payments, State.BonusOf, SumOf, StakesPaid, TimesPaid, StakeSum, SeasonEnds;
    BlockClock(c, s, op.order, D);
    BlockBonus(c, s, op.order, D, k);
    BlockPayments(c, s, op.order, D, k);
    if k == SeasonOf(c, s, D) {
      forall V | (D, V) in s.stakings ensures s.stakings[(D, V)].fromSeason <= k {
        assert FromOk(c, s, D, V);
      }
      AllEligible(s.stakings, D, k);
      assert SumOf(StakesPaid([])) == 0 by { NothingPaid(); }
    }
  }

  lemma NothingPaid()
    ensures SumOf(StakesPaid([])) == 0
  {
  }

  lemma BlockPayments(c: Config, s: State, order: seq<Account>, D: Account, k: nat)
    requires c.Valid()
    ensures Payments(DoNextBlock(c, s, order).history, D, k) == Payments(s.history, D, k)
  {
    hide Payments, DoNextBlock;
    OtherPayments(c, s, NextBlock(order), D, k);
  }

  lemma StepSeason(c: Config, s: State, op: Op, D: Account, k: nat, U: Account)
    requires c.Valid() && Step(c, s, op).Ok?
    requires ClockOk(c, s, D) && TotalOk(c, s, D) && (forall V :: FromOk(c, s, D, V)) && forall E, V :: StakerOk(c, s, E, V)
    requires SeasonOk(c, s, D, k, U)
    ensures SeasonOk(c, Step(c, s, op).value, D, k, U)
  {
    hide SnapshotOk, PaidOnce, PaidAtRecord, ClockOk, FromOk, TotalOk, StakerOk;
    if op.NextBlock? {
      hide DoNextBlock;
      BlockSeason(c, s, op, D, k, U);
    } else if IsStaking(op) {
      hide Step;
      StakingSnapshot(c, s, op, D, k);
      StakingOnce(c, s, op, D, k, U);
    } else {
      hide Step;
      QuietSeason(c, s, op, D, k, U);
    }
  }

  /** Season payouts: in every reachable state the snapshot of a finished season is the sum of the
      stakes already paid from it and those that can still claim it, every payment used that very
      record, and no staker was paid for a season more than once. */
  lemma {:induction false} SeasonsArePaidOnce(c: Config, ops: seq<Op>, D: Account, k: nat, U: Account)
    requires c.Valid()
    ensures SeasonOk(c, Run(c, ops), D, k, U)
  {
    hide Step, SeasonOk, ClockOk, FromOk, TotalOk, StakerOk;
    if ops == [] {
      GenesisSeason(c, D, k, U);
    } else {
      var n := |ops| - 1;
      var s := Run(c, ops[..n]);
      SeasonsArePaidOnce(c, ops[..n], D, k, U);
      StakeTotalsAgree(c, ops[..n], D);
      SeasonClocks(c, ops[..n], D, U);
      forall V ensures FromOk(c, s, D, V) { SeasonClocks(c, ops[..n], D, V); }
      forall E, V ensures StakerOk(c, s, E, V) { StakersAreReserved(c, ops[..n], E, V); }
      if Step(c, s, ops[n]).Ok? {
        StepSeason(c, s, ops[n], D, k, U);
      }
    }
  }

  lemma GenesisSeason(c: Config, D: Account, k: nat, U: Account)
    requires c.seasonDuration > 0
    ensures SeasonOk(c, INITIAL, D, k, U)
  {
    assert Weigh(INITIAL.stakings, EligibleAt(D, k)) == 0;
  }

  // ---- what the payments draw ----

  /** What the payments for a season draw of token `t`. */
  function Drawn(ps: seq<Payment>, t: Token): nat {
    if ps == [] then 0
    else
      var p := ps[|ps| - 1];
      Drawn(ps[..|ps| - 1], t) + Get(SeasonShares(p.bonus, p.stake), t)
  }

  lemma {:induction false} DrawnIsShared(ps: seq<Payment>, b: Bonus, t: Token)
    requires AllFrom(ps, b) && b.staked > 0
    ensures Drawn(ps, t) == if t in b.profit then SharesDrawn(StakesPaid(ps), b.staked, b.profit[t]) else 0
  {
    if ps != [] {
      var n := |ps| - 1;
      DrawnIsShared(ps[..n], b, t);
      assert StakesPaid(ps)[..n] == StakesPaid(ps[..n]);
    }
  }

  lemma {:induction false} NothingToDraw(ps: seq<Payment>, b: Bonus, t: Token)
    requires AllFrom(ps, b) && b.staked == 0
    ensures Drawn(ps, t) == 0
  {
    if ps != [] {
      NothingToDraw(ps[..|ps| - 1], b, t);
    }
  }

  /** The n payments made from a season, each to a different staker, together draw at most its
      profit and half a unit each, in every token and every reachable state. */
  lemma SeasonNeverOverdrawn(c: Config, ops: seq<Op>, D: Account, k: nat, t: Token)
    requires c.Valid()
    ensures var s := Run(c, ops);
            var ps := Payments(s.history, D, k);
            && 2 * Drawn(ps, t) <= 2 * Get(s.BonusOf(D, k).profit, t) + |ps|
            && forall U :: TimesPaid(ps, U) <= 1
  {
    var s := Run(c, ops);
    var ps, b := Payments(s.history, D, k), s.BonusOf(D, k);
    forall U ensures TimesPaid(ps, U) <= 1 { SeasonsArePaidOnce(c, ops, D, k, U); }
    SeasonsArePaidOnce(c, ops, D, k, 0);
    hide Run, Payments, State.BonusOf;
    if b.staked == 0 {
      NothingToDraw(ps, b, t);
    } else {
      DrawnIsShared(ps, b, t);
      SharesNeverOverdraw(StakesPaid(ps), b.staked, Get(b.profit, t));
    }
  }

  /** The payments have drawn at least their part of the profit, less half a unit and profit / 10^18 each
      (both sides times 2 * 10^18 * snapshot). */
  predicate DrawTheirPart(ps: seq<Payment>, b: Bonus, t: Token) {
    var profit := Get(b.profit, t);
    2 * (QUINTILL * (SumOf(StakesPaid(ps)) * profit))
    <= 2 * (QUINTILL * (b.staked * Drawn(ps, t))) + |ps| * (b.staked * (QUINTILL + 2 * profit))
  }

  lemma DrawnAtLeast(ps: seq<Payment>, b: Bonus, t: Token)
    requires AllFrom(ps, b) && b.staked > 0 && SumOf(StakesPaid(ps)) <= b.staked
    ensures DrawTheirPart(ps, b, t)
  {
    DrawnIsShared(ps, b, t);
    if t in b.profit {
      SharesDrawnAtLeast(StakesPaid(ps), b.staked, b.profit[t]);
    } else {
      NothingDue(SumOf(StakesPaid(ps)), b.staked, |ps|);
    }
  }

  lemma NothingDue(paid: nat, whole: nat, n: nat)
    ensures 2 * (QUINTILL * (paid * 0)) <= 2 * (QUINTILL * (whole * 0)) + n * (whole * (QUINTILL + 2 * 0))
  {
  }

  /** And not much less than their part: in every reachable state, stakes that were paid from a season have
      drawn at least their part of its profit, up to the stated rounding. */
  lemma PaidStakesDrawTheirPart(c: Config, ops: seq<Op>, D: Account, k: nat, t: Token)
    requires c.Valid() && Run(c, ops).BonusOf(D, k).staked > 0
    ensures DrawTheirPart(Payments(Run(c, ops).history, D, k), Run(c, ops).BonusOf(D, k), t)
  {
    hide Run, Payments, State.BonusOf, Eligible, DrawTheirPart, SumOf, StakesPaid, AllFrom, TimesPaid;
    var s := Run(c, ops);
    SeasonsArePaidOnce(c, ops, D, k, 0);
    DrawnAtLeast(Payments(s.history, D, k), s.BonusOf(D, k), t);
  }

  /** Once nobody can claim a finished season any more, its n payments have drawn the whole profit, less half
      a unit and profit / 10^18 each. */
  lemma FinishedSeasonIsPaidOut(c: Config, ops: seq<Op>, D: Account, k: nat, t: Token)
    requires c.Valid() && k < SeasonOf(c, Run(c, ops), D)
    requires Run(c, ops).BonusOf(D, k).staked > 0 && Eligible(Run(c, ops).stakings, D, k) == 0
    ensures var s := Run(c, ops);
            var ps, profit := Payments(s.history, D, k), Get(s.BonusOf(D, k).profit, t);
            2 * (QUINTILL * profit) <= 2 * (QUINTILL * Drawn(ps, t)) + |ps| * (QUINTILL + 2 * profit)
  {
    var s := Run(c, ops);
    var ps, b := Payments(s.history, D, k), s.BonusOf(D, k);
    SeasonsArePaidOnce(c, ops, D, k, 0);
    hide Run, Payments, State.BonusOf, Eligible, Drawn, SeasonOf, StakesPaid, SumOf, AllFrom;
    AllPaidOut(ps, b, t);
  }

  lemma AllPaidOut(ps: seq<Payment>, b: Bonus, t: Token)
    requires AllFrom(ps, b) && b.staked > 0 && SumOf(StakesPaid(ps)) == b.staked
    ensures var profit := Get(b.profit, t);
            2 * (QUINTILL * profit) <= 2 * (QUINTILL * Drawn(ps, t)) + |ps| * (QUINTILL + 2 * profit)
  {
    DrawnIsShared(ps, b, t);
    if t in b.profit {
      SharesUseThePot(StakesPaid(ps), b.staked, b.profit[t]);
    }
  }
}
