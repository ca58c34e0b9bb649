/** Delayed unstaking: what is queued is reserved, and is released at its unlock block, exactly once. */
module Unstaking {
  import opened FixedPoint
  import opened MapSums
  import opened VerifierTypes
  import opened VerifierState
  import opened VerifierSteps
  import opened Entries
  import opened Solvency
  import opened Receipts
  import opened StakeLedgers
  import opened FundEvents

  function DueWeight(u: Account, k: (nat, Account), v: nat): nat {
    if k.1 == u then v else 0
  }

  function DueTo(u: Account): ((nat, Account), nat) -> nat {
    (k, v) => DueWeight(u, k, v)
  }

  /** Everything still queued for staker `u`. */
  ghost function Queued(pending: map<(nat, Account), nat>, u: Account): nat {
    Weigh(pending, DueTo(u))
  }

  function PendingKey(c: Config, u: Account): ReserveKey {
    ReserveKey(PendingUnstake, u, c.native, c.system)
  }

  // ---- what history says ----

  /** Total unstaked by `u` with unlock block `b`. */
  function UnstakedFor(h: History, u: Account, b: nat): nat {
    if h.Genesis? then 0
    else UnstakedFor(h.before, u, b)
         + if h.last.TaoUnstaked? && h.last.staker == u && h.last.unlockAt == b then h.last.amount else 0
  }

  /** Total unlocked for `u` at block `b`. */
  function UnlockedAt(h: History, u: Account, b: nat): nat {
    if h.Genesis? then 0
    else UnlockedAt(h.before, u, b)
         + if h.last.TaoUnlocked? && h.last.staker == u && h.last.at == b then h.last.amount else 0
  }

  /** The queue of `U` for block `b`: queued until `b`, all released at `b`, nothing before. */
  predicate OnTime(c: Config, s: State, U: Account, b: nat)
    requires c.grace > 0
  {
    && ((b, U) in s.pending ==> s.now < b && b % c.grace == 0)
    && (s.now < b ==> Get(s.pending, (b, U)) == UnstakedFor(s.history, U, b) && UnlockedAt(s.history, U, b) == 0)
    && (b <= s.now ==> UnlockedAt(s.history, U, b) == UnstakedFor(s.history, U, b))
  }

  ghost predicate QueueReserved(c: Config, s: State, U: Account) {
    Queued(s.pending, U) == Entry(s, PendingKey(c, U))
  }

  // ---- arithmetic ----

  lemma UnlockIsAhead(c: Config, now: nat)
    requires c.Valid()
    ensures now < UnlockBlock(c, now) && UnlockBlock(c, now) % c.grace == 0
  {
    var g := c.grace;
    assert UNSTAKE_DELAY == g * (UNSTAKE_DELAY / g);
    assert now - now % g == g * (now / g);
    MultipleSum(g, now / g, UNSTAKE_DELAY / g);
    assert g * (UNSTAKE_DELAY / g) >= g by { MulMono(1, UNSTAKE_DELAY / g, g); }
  }

  lemma MultipleSum(g: nat, a: nat, b: nat)
    requires g > 0
    ensures (g * a + g * b) % g == 0
  {
    assert g * a + g * b == g * (a + b);
    DivUnique(g * (a + b), g, a + b, 0);
  }

  // ---- queueing ----

  lemma {:induction false} PaymentsKeepQueue(s: State, d: Account, u: Account, from: nat, to: nat, stake: nat, U: Account, b: nat)
    ensures UnstakedFor(PaidHistory(s, d, u, from, to, stake), U, b) == UnstakedFor(s.history, U, b)
    ensures UnlockedAt(PaidHistory(s, d, u, from, to, stake), U, b) == UnlockedAt(s.history, U, b)
    decreases (to)
  {
    if from < to {
      PaymentsKeepQueue(s, d, u, from, to - 1, stake, U, b);
    }
  }

  lemma TakeSharesQueue(s: State, d: Account, u: Account, from: nat, to: nat, stake: nat, U: Account, b: nat)
    requires TakeShares(s, d, u, from, to, stake).Ok?
    ensures UnstakedFor(TakeShares(s, d, u, from, to, stake).value.history, U, b) == UnstakedFor(s.history, U, b)
    ensures UnlockedAt(TakeShares(s, d, u, from, to, stake).value.history, U, b) == UnlockedAt(s.history, U, b)
  {
    hide PaidHistory, Credited, Shares, CreditFits;
    PaymentsKeepQueue(s, d, u, from, to, stake, U, b);
  }

  lemma UnstakeHistory(c: Config, s: State, u: Account, d: Account, x: nat, U: Account, b: nat)
    requires c.Valid() && DoUnstake(c, s, u, d, x).Ok?
    ensures UnstakedFor(DoUnstake(c, s, u, d, x).value.history, U, b)
            == UnstakedFor(s.history, U, b) + if U == u && b == UnlockBlock(c, s.now) then x else 0
    ensures UnlockedAt(DoUnstake(c, s, u, d, x).value.history, U, b) == UnlockedAt(s.history, U, b)
  {
    hide Reserve, Unreserve, TakeShares, UnlockBlock;
    var s1, was := MoveToPending(c, s, u, d, x).value, s.stakings[(d, u)];
    TakeSharesQueue(s1, d, u, was.fromSeason, CurrentSeason(c, s.now, s.dominators[d].startFrom), was.amount, U, b);
  }

  lemma UnstakeOnTime(c: Config, s: State, u: Account, d: Account, x: nat, U: Account, b: nat)
    requires c.Valid() && DoUnstake(c, s, u, d, x).Ok? && OnTime(c, s, U, b)
    ensures OnTime(c, DoUnstake(c, s, u, d, x).value, U, b)
  {
    hide DoUnstake, UnlockBlock, UnstakedFor, UnlockedAt;
    UnstakeEffect(c, s, u, d, x);
    UnstakeHistory(c, s, u, d, x, U, b);
    UnlockIsAhead(c, s.now);
  }

  lemma PutQueued(m: map<(nat, Account), nat>, b: nat, u: Account, v: nat, U: Account)
    ensures Queued(m[(b, u) := v], U) == Queued(m, U) + if U == u then v - Get(m, (b, u)) else 0
    ensures U == u ==> Get(m, (b, u)) <= Queued(m, U)
  {
    WeighPut(m, DueTo(U), (b, u), v);
  }

  lemma DropQueued(m: map<(nat, Account), nat>, b: nat, u: Account, U: Account)
    ensures Queued(m - {(b, u)}, U) == Queued(m, U) - if U == u then Get(m, (b, u)) else 0
  {
    if (b, u) in m {
      WeighDrop(m, DueTo(U), (b, u));
    } else {
      assert m - {(b, u)} == m;
    }
  }

  lemma UnstakeReserved(c: Config, s: State, u: Account, d: Account, x: nat, U: Account)
    requires c.Valid() && DoUnstake(c, s, u, d, x).Ok? && QueueReserved(c, s, U)
    ensures QueueReserved(c, DoUnstake(c, s, u, d, x).value, U)
  {
    hide DoUnstake, Queued, UnlockBlock;
    UnstakeEffect(c, s, u, d, x);
    UnstakeEntry(c, s, u, d, x, PendingKey(c, U));
    var b := UnlockBlock(c, s.now);
    PutQueued(s.pending, b, u, Get(s.pending, (b, u)) + x, U);
  }

  // ---- releasing ----

  /** With the queue reserved and the ledger solvent, releasing never takes the error branch. */
  lemma ReleaseSucceeds(c: Config, s: State, u: Account)
    requires QueueReserved(c, s, u) && Slack(s, u, c.native) >= 0
    ensures Unreserve(c, s, PendingUnstake, u, c.native, Get(s.pending, (s.now, u)), c.system).Ok?
  {
    hide Queued, Promised;
    PutQueued(s.pending, s.now, u, 0, u);
    PromisedPut(s.reserves, PendingKey(c, u), 0, u, c.native);
  }

  /** Releasing `u`: its own queue for this block is paid out and removed; others are untouched. */
  lemma ReleaseEffect(c: Config, s: State, u: Account)
    requires QueueReserved(c, s, u) && Slack(s, u, c.native) >= 0
    ensures var s', x := Release(c, s, u), Get(s.pending, (s.now, u));
            && s'.pending == s.pending - {(s.now, u)} && s'.now == s.now
            && s'.history == Then(s.history, TaoUnlocked(u, x, s.now))
            && Entry(s', PendingKey(c, u)) == Entry(s, PendingKey(c, u)) - x
            && s'.BalanceOf(c.native, u).free == s.BalanceOf(c.native, u).free + x
  {
    ReleaseSucceeds(c, s, u);
    UnreserveEntry(c, s, PendingUnstake, u, c.native, Get(s.pending, (s.now, u)), c.system, PendingKey(c, u));
  }

  lemma ReleaseOther(c: Config, s: State, u: Account, U: Account, b: nat)
    requires u != U
    ensures var s' := Release(c, s, u);
            && s'.now == s.now
            && Get(s'.pending, (b, U)) == Get(s.pending, (b, U)) && ((b, U) in s'.pending <==> (b, U) in s.pending)
            && UnstakedFor(s'.history, U, b) == UnstakedFor(s.history, U, b)
            && UnlockedAt(s'.history, U, b) == UnlockedAt(s.history, U, b)
  {
    hide Unreserve;
  }

  lemma ReleaseQueue(c: Config, s: State, u: Account, U: Account)
    requires QueueReserved(c, s, U) && Slack(s, U, c.native) >= 0
    ensures QueueReserved(c, Release(c, s, u), U)
    ensures Slack(Release(c, s, u), U, c.native) >= 0
  {
    hide Release, Queued, Slack;
    ReleaseSlack(c, s, u, U, c.native);
    if u == U {
      ReleaseEffect(c, s, u);
      DropQueued(s.pending, s.now, u, U);
    } else {
      ReleaseEntry(c, s, u, PendingKey(c, U));
      ReleasePending(c, s, u);
      DropQueued(s.pending, s.now, u, U);
    }
  }

  lemma ReleasePending(c: Config, s: State, u: Account)
    ensures Release(c, s, u).pending == s.pending - {(s.now, u)} && Release(c, s, u).now == s.now
  {
    hide Unreserve;
  }

  /** Draining the listed stakers: a listed one is paid its queue for this block once, any other keeps it. */
  lemma {:induction false} ReleaseAllEffect(c: Config, s: State, order: seq<Account>, U: Account, b: nat)
    requires forall i, j :: 0 <= i < j < |order| ==> order[i] != order[j]
    requires QueueReserved(c, s, U) && Slack(s, U, c.native) >= 0
    ensures QueueReserved(c, ReleaseAll(c, s, order), U)
    ensures Slack(ReleaseAll(c, s, order), U, c.native) >= 0
    ensures ReleaseAll(c, s, order).now == s.now
    ensures UnstakedFor(ReleaseAll(c, s, order).history, U, b) == UnstakedFor(s.history, U, b)
    ensures UnlockedAt(ReleaseAll(c, s, order).history, U, b)
            == UnlockedAt(s.history, U, b) + if U in order && b == s.now then Get(s.pending, (b, U)) else 0
    ensures (b, U) in ReleaseAll(c, s, order).pending <==> (b, U) in s.pending && !(U in order && b == s.now)
    ensures (b, U) in ReleaseAll(c, s, order).pending ==> ReleaseAll(c, s, order).pending[(b, U)] == s.pending[(b, U)]
  {
    hide Release, Slack, QueueReserved;
    if order != [] {
      var n := |order| - 1;
      var s1, u := ReleaseAll(c, s, order[..n]), order[n];
      ReleaseAllEffect(c, s, order[..n], U, b);
      ReleaseQueue(c, s1, u, U);
      assert order == order[..n] + [u];
      if u == U {
        assert U !in order[..n];
        ReleaseEffect(c, s1, u);
      } else {
        ReleaseOther(c, s1, u, U, b);
        assert U in order <==> U in order[..n];
        ReleasePending(c, s1, u);
      }
    }
  }

  // ---- blocks ----

  lemma BlockOnTime(c: Config, s: State, order: seq<Account>, U: Account, b: nat)
    requires c.Valid() && Enabled(c, s, NextBlock(order))
    requires OnTime(c, s, U, b) && QueueReserved(c, s, U) && Slack(s, U, c.native) >= 0
    ensures OnTime(c, DoNextBlock(c, s, order), U, b)
    ensures QueueReserved(c, DoNextBlock(c, s, order), U)
  {
    hide ReleaseAll, Queued, UnstakedFor, UnlockedAt, Promised;
    var s1 := s.(now := s.now + 1);
    var s2 := Snapshots(c, s1);
    if s1.now % c.grace == 0 {
      assert Slack(s2, U, c.native) >= 0;
      ReleaseAllEffect(c, s2, order, U, b);
    }
  }

  // ---- all steps ----

  lemma StakeQueue(c: Config, s: State, op: Op, U: Account, b: nat)
    requires c.Valid() && (op.Stake? || op.ClaimShares?) && Step(c, s, op).Ok?
    ensures UnstakedFor(Step(c, s, op).value.history, U, b) == UnstakedFor(s.history, U, b)
    ensures UnlockedAt(Step(c, s, op).value.history, U, b) == UnlockedAt(s.history, U, b)
  {
    hide Reserve, TakeShares;
    var was, season := s.StakingOf(op.d, op.u), CurrentSeason(c, s.now, s.dominators[op.d].startFrom);
    if op.Stake? {
      var s1 := Reserve(s, Staked, op.u, c.native, op.x, op.d).value;
      if was.amount != 0 {
        TakeSharesQueue(s1, op.d, op.u, was.fromSeason, season, was.amount, U, b);
      }
    } else {
      TakeSharesQueue(s, op.d, op.u, was.fromSeason, season, was.amount, U, b);
    }
  }

  lemma {:induction false} FundsKeepQueue(h: History, U: Account, b: nat)
    ensures UnstakedFor(Funds(h), U, b) == UnstakedFor(h, U, b)
    ensures UnlockedAt(Funds(h), U, b) == UnlockedAt(h, U, b)
  {
    if h.Then? {
      FundsKeepQueue(h.before, U, b);
    }
  }

  /** Calls other than unstaking and the hook leave the queue and its history alone. */
  lemma QuietQueue(c: Config, s: State, op: Op, U: Account, b: nat)
    requires c.Valid() && Step(c, s, op).Ok? && !op.Unstake? && !op.NextBlock?
    ensures var s' := Step(c, s, op).value;
            && s'.now == s.now && s'.pending == s.pending
            && UnstakedFor(s'.history, U, b) == UnstakedFor(s.history, U, b)
            && UnlockedAt(s'.history, U, b) == UnlockedAt(s.history, U, b)
  {
    if op.Stake? || op.ClaimShares? {
      StakingClock(c, s, op);
      StakeQueue(c, s, op, U, b);
    } else {
      hide Step, UnstakedFor, UnlockedAt, Funds;
      QuietFunds(c, s, op);
      FundsKeepQueue(s.history, U, b);
      FundsKeepQueue(Step(c, s, op).value.history, U, b);
    }
  }

  lemma QuietReserve(c: Config, s: State, op: Op, U: Account)
    requires c.Valid() && Step(c, s, op).Ok? && !op.Unstake? && !op.NextBlock?
    ensures Entry(Step(c, s, op).value, PendingKey(c, U)) == Entry(s, PendingKey(c, U))
  {
    hide DoStake, DoClaim, DoRevoke, DoAuthorize, VerifyAll;
    var j := PendingKey(c, U);
    if op.Stake? {
      StakeEntry(c, s, op.u, op.d, op.x, j);
    } else if op.ClaimShares? {
      ClaimEntry(c, s, op.u, op.d, j);
    } else if op.AuthorizeTo? {
      AuthorizeEntry(s, op.u, op.d, op.t, op.x, j);
    } else if op.RevokeFrom? {
      RevokeReceipts(c, s, op.u, op.d, op.t, op.x, op.callback);
      if s.dominators[op.d].status == Evicted {
        EvictedRevokeEntry(c, s, op.u, op.d, op.t, op.x, op.callback, j);
      } else {
        PlainRevokeEntry(c, s, op.u, op.d, op.t, op.x, op.callback, j);
      }
    } else if op.Verify? {
      VerifyAllOtherEntry(c, s, op.d, op.proofs, op.stable, j);
    }
  }

  lemma StepOnTime(c: Config, s: State, op: Op, U: Account, b: nat)
    requires c.Valid() && Enabled(c, s, op) && Step(c, s, op).Ok?
    requires OnTime(c, s, U, b) && QueueReserved(c, s, U) && Slack(s, U, c.native) >= 0
    ensures OnTime(c, Step(c, s, op).value, U, b)
    ensures QueueReserved(c, Step(c, s, op).value, U)
  {
    hide DoStake, DoUnstake, DoClaim, DoRevoke, DoAuthorize, DoVerify, DoNextBlock, Queued, UnstakedFor, UnlockedAt, Entry, Slack, Enumerates;
    if op.Unstake? {
      UnstakeOnTime(c, s, op.u, op.d, op.x, U, b);
      UnstakeReserved(c, s, op.u, op.d, op.x, U);
    } else if op.NextBlock? {
      BlockOnTime(c, s, op.order, U, b);
    } else {
      QuietQueue(c, s, op, U, b);
      QuietReserve(c, s, op, U);
      hide Step;
    }
  }

  /** Unstake release: in every reachable state what is queued for a staker is reserved, and for every
      block `b` all amounts unstaked with unlock block `b` are still queued before `b` and have been
      released, once, at `b` and at no other time. */
  lemma {:induction false} UnstakesAreReleasedOnTime(c: Config, ops: seq<Op>, u: Account, b: nat)
    requires c.Valid() && Possible(c, ops)
    ensures OnTime(c, Run(c, ops), u, b)
    ensures QueueReserved(c, Run(c, ops), u)
  {
    hide Step, Slack, OnTime, QueueReserved, Enabled;
    if ops == [] {
      GenesisOnTime(c, u, b);
    } else {
      var n := |ops| - 1;
      var s := Run(c, ops[..n]);
      UnstakesAreReleasedOnTime(c, ops[..n], u, b);
      RunsAreBacked(c, ops[..n]);
      if Step(c, s, ops[n]).Ok? {
        StepOnTime(c, s, ops[n], u, b);
      }
    }
  }

  lemma GenesisOnTime(c: Config, u: Account, b: nat)
    requires c.grace > 0
    ensures OnTime(c, INITIAL, u, b) && QueueReserved(c, INITIAL, u)
  {
    assert Weigh(INITIAL.pending, DueTo(u)) == 0;
  }

  /** The error branch of the block hook is unreachable: when its turn comes, every listed staker is
      due the whole amount unstaked for this block, and releasing it succeeds. */
  lemma HookNeverFails(c: Config, ops: seq<Op>, order: seq<Account>, i: nat)
    requires c.Valid() && Possible(c, ops) && Enabled(c, Run(c, ops), NextBlock(order)) && i < |order|
    requires (Run(c, ops).now + 1) % c.grace == 0
    ensures var s, u := Run(c, ops), order[i];
            var s' := ReleaseAll(c, Snapshots(c, s.(now := s.now + 1)), order[..i]);
            && Get(s'.pending, (s'.now, u)) == UnstakedFor(s.history, u, s.now + 1)
            && Unreserve(c, s', PendingUnstake, u, c.native, Get(s'.pending, (s'.now, u)), c.system).Ok?
  {
    hide Unreserve, Run, ReleaseAll, Snapshots, OnTime, QueueReserved, Slack, UnstakedFor, Enumerates;
    var s, u := Run(c, ops), order[i];
    UnstakesAreReleasedOnTime(c, ops, u, s.now + 1);
    RunsAreBacked(c, ops);
    ReleaseAtTurn(c, s, order, i);
  }

  lemma ReleaseAtTurn(c: Config, s: State, order: seq<Account>, i: nat)
    requires c.Valid() && i < |order| && Enumerates(s.(now := s.now + 1), order)
    requires OnTime(c, s, order[i], s.now + 1) && QueueReserved(c, s, order[i]) && Slack(s, order[i], c.native) >= 0
    ensures var u, s' := order[i], ReleaseAll(c, Snapshots(c, s.(now := s.now + 1)), order[..i]);
            && Get(s'.pending, (s'.now, u)) == UnstakedFor(s.history, u, s.now + 1)
            && Unreserve(c, s', PendingUnstake, u, c.native, Get(s'.pending, (s'.now, u)), c.system).Ok?
  {
    hide Unreserve, ReleaseAll, Queued, Promised, UnstakedFor, UnlockedAt;
    var u, s2 := order[i], Snapshots(c, s.(now := s.now + 1));
    assert Slack(s2, u, c.native) >= 0;
    assert u !in order[..i];
    ReleaseAllEffect(c, s2, order[..i], u, s2.now);
    ReleaseSucceeds(c, ReleaseAll(c, s2, order[..i]), u);
  }

  // ---- how long it takes ----

  /** Unstaked funds are locked for 57600 blocks, less what is left of the grace period under way. */
  lemma UnlockAfterTheDelay(c: Config, now: nat)
    requires c.Valid()
    ensures now + 57600 - c.grace < UnlockBlock(c, now) <= now + 57600
  {
  }

  predicate DelayKept(c: Config, e: Event) {
    e.TaoUnstaked? ==> e.at + 57600 - c.grace < e.unlockAt <= e.at + 57600
  }

  /** Every unstaking on record was given an unlock block 57600 blocks ahead, within a grace period. */
  predicate DelaysKept(c: Config, h: History) {
    h.Genesis? || (DelaysKept(c, h.before) && DelayKept(c, h.last))
  }

  lemma {:induction false} FundsKeepDelays(c: Config, h: History)
    ensures DelaysKept(c, Funds(h)) <==> DelaysKept(c, h)
  {
    if h.Then? {
      FundsKeepDelays(c, h.before);
    }
  }

  lemma {:induction false} PaymentsKeepDelays(c: Config, s: State, d: Account, u: Account, from: nat, to: nat, stake: nat)
    ensures DelaysKept(c, PaidHistory(s, d, u, from, to, stake)) <==> DelaysKept(c, s.history)
    decreases (to)
  {
    if from < to {
      PaymentsKeepDelays(c, s, d, u, from, to - 1, stake);
    }
  }

  lemma TakeSharesDelays(c: Config, s: State, d: Account, u: Account, from: nat, to: nat, stake: nat)
    requires TakeShares(s, d, u, from, to, stake).Ok?
    ensures DelaysKept(c, TakeShares(s, d, u, from, to, stake).value.history) <==> DelaysKept(c, s.history)
  {
    hide PaidHistory, Credited, Shares, CreditFits;
    PaymentsKeepDelays(c, s, d, u, from, to, stake);
  }

  lemma UnstakeDelays(c: Config, s: State, u: Account, d: Account, x: nat)
    requires c.Valid() && DoUnstake(c, s, u, d, x).Ok? && DelaysKept(c, s.history)
    ensures DelaysKept(c, DoUnstake(c, s, u, d, x).value.history)
  {
    hide Reserve, Unreserve, TakeShares, UnlockBlock;
    UnlockAfterTheDelay(c, s.now);
    var s1, was := MoveToPending(c, s, u, d, x).value, s.stakings[(d, u)];
    TakeSharesDelays(c, s1, d, u, was.fromSeason, CurrentSeason(c, s.now, s.dominators[d].startFrom), was.amount);
  }

  lemma StakeDelays(c: Config, s: State, op: Op)
    requires c.Valid() && (op.Stake? || op.ClaimShares?) && Step(c, s, op).Ok? && DelaysKept(c, s.history)
    ensures DelaysKept(c, Step(c, s, op).value.history)
  {
    hide Reserve, TakeShares, DelaysKept;
    var was, season := s.StakingOf(op.d, op.u), CurrentSeason(c, s.now, s.dominators[op.d].startFrom);
    if op.Stake? {
      var s1 := Reserve(s, Staked, op.u, c.native, op.x, op.d).value;
      if was.amount != 0 {
        TakeSharesDelays(c, s1, op.d, op.u, was.fromSeason, season, was.amount);
      }
    } else {
      TakeSharesDelays(c, s, op.d, op.u, was.fromSeason, season, was.amount);
    }
  }

  lemma {:induction false} ReleaseAllDelays(c: Config, s: State, order: seq<Account>)
    ensures DelaysKept(c, ReleaseAll(c, s, order).history) <==> DelaysKept(c, s.history)
  {
    hide Unreserve;
    if order != [] {
      ReleaseAllDelays(c, s, order[..|order| - 1]);
    }
  }

  lemma StepDelays(c: Config, s: State, op: Op)
    requires c.Valid() && Step(c, s, op).Ok? && DelaysKept(c, s.history)
    ensures DelaysKept(c, Step(c, s, op).value.history)
  {
    if op.Unstake? {
      hide DoUnstake, DelaysKept;
      UnstakeDelays(c, s, op.u, op.d, op.x);
    } else if op.NextBlock? {
      hide ReleaseAll, DelaysKept;
      ReleaseAllDelays(c, Snapshots(c, s.(now := s.now + 1)), op.order);
    } else if op.Stake? || op.ClaimShares? {
      hide Step, DelaysKept;
      StakeDelays(c, s, op);
    } else {
      hide Step, Funds, DelaysKept;
      QuietFunds(c, s, op);
      FundsKeepDelays(c, s.history);
      FundsKeepDelays(c, Step(c, s, op).value.history);
    }
  }

  lemma {:induction false} RunsKeepDelays(c: Config, ops: seq<Op>)
    requires c.Valid()
    ensures DelaysKept(c, Run(c, ops).history)
  {
    hide Step, DelaysKept;
    if ops == [] {
      assert DelaysKept(c, Genesis) by { NoDelays(c); }
    } else {
      var n := |ops| - 1;
      RunsKeepDelays(c, ops[..n]);
      if Step(c, Run(c, ops[..n]), ops[n]).Ok? {
        StepDelays(c, Run(c, ops[..n]), ops[n]);
      }
    }
  }

  lemma NoDelays(c: Config)
    ensures DelaysKept(c, Genesis)
  {
  }

  /** What `u` unstaked in the blocks [from, to] with unlock block `b`. */
  function UnstakedDuring(h: History, u: Account, b: nat, from: int, to: int): nat {
    if h.Genesis? then 0
    else UnstakedDuring(h.before, u, b, from, to)
         + if h.last.TaoUnstaked? && h.last.staker == u && h.last.unlockAt == b && from <= h.last.at <= to then h.last.amount else 0
  }

  lemma {:induction false} AllDuring(c: Config, h: History, u: Account, b: nat)
    requires DelaysKept(c, h)
    ensures UnstakedFor(h, u, b) == UnstakedDuring(h, u, b, b - 57600, b - 57600 + c.grace - 1)
  {
    if h.Then? {
      AllDuring(c, h.before, u, b);
    }
  }

  /** Over every run, every unit released in block b was unstaked in one of the blocks b - 57600, ...,
      b - 57600 + grace - 1, and everything unstaked in them for b is released by then. */
  lemma ReleasedUnitsWaited(c: Config, ops: seq<Op>, u: Account, b: nat)
    requires c.Valid() && Possible(c, ops) && b <= Run(c, ops).now
    ensures var h := Run(c, ops).history;
            UnlockedAt(h, u, b) == UnstakedDuring(h, u, b, b - 57600, b - 57600 + c.grace - 1)
  {
    UnstakesAreReleasedOnTime(c, ops, u, b);
    RunsKeepDelays(c, ops);
    hide Run, QueueReserved, UnstakedFor, UnlockedAt, DelaysKept;
    AllDuring(c, Run(c, ops).history, u, b);
  }
}
