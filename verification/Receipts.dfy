/** Receipts and the stash behind them: coverage, and solvency over whole runs. */
module Receipts {
  import opened Results
  import opened MapSums
  import opened VerifierTypes
  import opened VerifierState
  import opened VerifierSteps
  import opened Entries
  import opened Solvency

  /** An open Authorize receipt can be paid out of the stash it created. */
  predicate CoveredAt(s: State, d: Account, u: Account) {
    (d, u) in s.receipts && s.receipts[(d, u)].Authorize? ==>
      s.receipts[(d, u)].amount <= Stash(s, u, s.receipts[(d, u)].token, d)
  }

  /** Backing of one user in one token, and coverage of all receipts. */
  ghost predicate Backed(s: State) {
    && (forall u, t :: Slack(s, u, t) >= 0)
    && (forall d, u :: CoveredAt(s, d, u))
  }

  // ---- what each call does to the receipt and the stashes of user U at dominator D ----

  lemma StakingReceipts(c: Config, s: State, op: Op, U: Account, T: Token, D: Account)
    requires c.Valid() && (op.Stake? || op.Unstake? || op.ClaimShares?)
    requires Step(c, s, op).Ok?
    ensures Stash(Step(c, s, op).value, U, T, D) == Stash(s, U, T, D)
    ensures Step(c, s, op).value.receipts == s.receipts
  {
    hide Reserve, Unreserve, TakeShares;
    var j := ReserveKey(Stashed, U, T, D);
    match op
    case Stake(u, d, x) => StakeEntry(c, s, u, d, x, j);
    case Unstake(u, d, x) => UnstakeEntry(c, s, u, d, x, j);
    case ClaimShares(u, d) =>
  }

  lemma {:induction false} ReleaseAllReceipts(c: Config, s: State, order: seq<Account>)
    ensures ReleaseAll(c, s, order).receipts == s.receipts
  {
    hide Unreserve;
    if order != [] {
      ReleaseAllReceipts(c, s, order[..|order| - 1]);
    }
  }

  lemma BlockReceipts(c: Config, s: State, order: seq<Account>, U: Account, T: Token, D: Account)
    requires c.Valid()
    ensures Stash(DoNextBlock(c, s, order), U, T, D) == Stash(s, U, T, D)
    ensures DoNextBlock(c, s, order).receipts == s.receipts
  {
    hide ReleaseAll;
    var s1 := Snapshots(c, s.(now := s.now + 1));
    ReleaseAllReceipts(c, s1, order);
    ReleaseAllEntry(c, s1, order, ReserveKey(Stashed, U, T, D));
  }

  /** Staking, hooks and administration touch neither receipts nor stashes. */
  lemma QuietStep(c: Config, s: State, op: Op, U: Account, T: Token, D: Account)
    requires c.Valid() && Step(c, s, op).Ok?
    requires !op.Verify? && !op.AuthorizeTo? && !op.RevokeFrom?
    ensures Stash(Step(c, s, op).value, U, T, D) == Stash(s, U, T, D)
    ensures Step(c, s, op).value.receipts == s.receipts
  {
    hide DoStake, DoUnstake, DoClaim, DoNextBlock;
    match op
    case NextBlock(order) => BlockReceipts(c, s, order, U, T, D);
    case Stake(_, _, _) => StakingReceipts(c, s, op, U, T, D);
    case Unstake(_, _, _) => StakingReceipts(c, s, op, U, T, D);
    case ClaimShares(_, _) => StakingReceipts(c, s, op, U, T, D);
    case _ =>
  }

  lemma RevokeReceipts(c: Config, s: State, u: Account, d: Account, t: Token, x: nat, callback: Option<nat>)
    requires DoRevoke(c, s, u, d, t, x, callback).Ok?
    ensures d in s.dominators
    ensures s.dominators[d].status == Evicted ==>
              DoRevoke(c, s, u, d, t, x, callback).value.receipts == s.receipts - {(d, u)}
    ensures s.dominators[d].status != Evicted ==>
              && (d, u) !in s.receipts
              && DoRevoke(c, s, u, d, t, x, callback).value.receipts == s.receipts[(d, u) := Revoke(t, x, s.now, callback)]
  {
    hide Unreserve, FoldStash;
  }

  lemma CommandReceipts(c: Config, s: State, d: Account, p: Proof)
    requires !p.cmd.AskLimit? && !p.cmd.BidLimit?
    requires ApplyCommand(c, s, d, p).Ok?
    ensures ApplyCommand(c, s, d, p).value.receipts == if p.cmd.Cancel? then s.receipts else s.receipts - {(d, p.user)}
    ensures p.cmd.TransferIn? || p.cmd.TransferOut? || p.cmd.RejectTransferOut? ==> (d, p.user) in s.receipts
    ensures p.cmd.TransferIn? ==>
              && s.receipts[(d, p.user)].Authorize?
              && s.receipts[(d, p.user)].token == p.cmd.token
              && s.receipts[(d, p.user)].amount == p.cmd.amount
    ensures p.cmd.TransferOut? || p.cmd.RejectTransferOut? ==> s.receipts[(d, p.user)].Revoke?
  {
    hide Unreserve, CancelAccepted, TransferInAccepted, TransferOutAccepted, RejectOutAccepted;
  }

  // ---- coverage ----

  lemma ApplyCovered(c: Config, s: State, d: Account, p: Proof, stable: set<Token>, D: Account, U: Account)
    requires c.Valid() && d in s.dominators && CoveredAt(s, D, U)
    requires Apply(c, s, d, p, stable).Ok?
    ensures CoveredAt(Apply(c, s, d, p, stable).value, D, U)
  {
    hide ApplyOrder, ApplyCommand;
    if (D, U) in s.receipts {
      var j := ReserveKey(Stashed, U, s.receipts[(D, U)].token, D);
      if p.cmd.AskLimit? || p.cmd.BidLimit? {
        OrderEntry(c, s, d, p, stable, j);
      } else {
        CommandReceipts(c, s, d, p);
        CommandEntry(c, s, d, p, j);
      }
    } else if !p.cmd.AskLimit? && !p.cmd.BidLimit? {
      CommandReceipts(c, s, d, p);
    }
  }

  lemma StepCovered(c: Config, s: State, op: Op, D: Account, U: Account)
    requires c.Valid() && Step(c, s, op).Ok? && !op.Verify? && CoveredAt(s, D, U)
    ensures CoveredAt(Step(c, s, op).value, D, U)
  {
    hide DoStake, DoUnstake, DoClaim, DoNextBlock, DoRevoke, Reserve;
    if op.AuthorizeTo? {
      AuthorizeEntry(s, op.u, op.d, op.t, op.x, ReserveKey(Stashed, U, op.t, D));
      if (D, U) in s.receipts {
        AuthorizeEntry(s, op.u, op.d, op.t, op.x, ReserveKey(Stashed, U, s.receipts[(D, U)].token, D));
      }
    } else if op.RevokeFrom? {
      RevokeReceipts(c, s, op.u, op.d, op.t, op.x, op.callback);
      if (D, U) in s.receipts {
        var j := ReserveKey(Stashed, U, s.receipts[(D, U)].token, D);
        if s.dominators[op.d].status == Evicted {
          EvictedRevokeEntry(c, s, op.u, op.d, op.t, op.x, op.callback, j);
        } else {
          PlainRevokeEntry(c, s, op.u, op.d, op.t, op.x, op.callback, j);
        }
      }
    } else if (D, U) in s.receipts {
      QuietStep(c, s, op, U, s.receipts[(D, U)].token, D);
    } else {
      QuietStep(c, s, op, U, 0, D);
    }
  }

  // ---- runs ----

  /** An accepted proof keeps coverage and backing, and frees exactly `Freed`. */
  lemma VerifyOneBacked(c: Config, s: State, d: Account, p: Proof, stable: set<Token>, U: Account, T: Token, D: Account)
    requires c.Valid() && d in s.dominators
    requires Slack(s, U, T) >= 0 && CoveredAt(s, D, U) && CoveredAt(s, d, p.user)
    requires VerifyOne(c, s, d, p, stable).Ok?
    ensures Slack(VerifyOne(c, s, d, p, stable).value, U, T) == Slack(s, U, T) + Freed(s, d, p, U, T)
    ensures Freed(s, d, p, U, T) >= 0
    ensures CoveredAt(VerifyOne(c, s, d, p, stable).value, D, U)
  {
    hide Apply, ApplyCommand, ApplyOrder, Proves, Updated;
    ApplySlack(c, s, d, p, stable, U, T);
    ApplyCovered(c, s, d, p, stable, D, U);
    if p.cmd.TransferIn? {
      assert ApplyCommand(c, s, d, p).Ok? by { ApplyIsCommand(c, s, d, p, stable); }
      CommandReceipts(c, s, d, p);
    }
  }

  lemma ApplyIsCommand(c: Config, s: State, d: Account, p: Proof, stable: set<Token>)
    requires c.Valid() && d in s.dominators && !p.cmd.AskLimit? && !p.cmd.BidLimit?
    ensures Apply(c, s, d, p, stable) == ApplyCommand(c, s, d, p)
  {
  }

  lemma {:induction false} VerifyAllBacked(c: Config, s: State, d: Account, proofs: seq<Proof>, stable: set<Token>)
    requires c.Valid() && d in s.dominators && Backed(s)
    requires VerifyAll(c, s, d, proofs, stable).Ok?
    ensures Backed(VerifyAll(c, s, d, proofs, stable).value)
    ensures forall u, t :: Slack(VerifyAll(c, s, d, proofs, stable).value, u, t) >= Slack(s, u, t)
  {
    hide VerifyOne, Slack, CoveredAt, Freed;
    if proofs != [] {
      var n := |proofs| - 1;
      VerifyAllBacked(c, s, d, proofs[..n], stable);
      var s1, s' := VerifyAll(c, s, d, proofs[..n], stable).value, VerifyAll(c, s, d, proofs, stable).value;
      forall u, t ensures Slack(s', u, t) >= Slack(s1, u, t) {
        VerifyOneBacked(c, s1, d, proofs[n], stable, u, t, d);
      }
      forall d', u ensures CoveredAt(s', d', u) {
        assert Slack(s1, u, 0) >= 0;
        VerifyOneBacked(c, s1, d, proofs[n], stable, u, 0, d');
      }
    }
  }

  lemma StepBacked(c: Config, s: State, op: Op)
    requires c.Valid() && Backed(s)
    ensures Backed(After(c, s, op))
  {
    hide Step, Slack, CoveredAt, VerifyAll;
    var s' := After(c, s, op);
    if Step(c, s, op).Ok? {
      if op.Verify? {
        VerifySteps(c, s, op);
        VerifyAllBacked(c, s, op.d, op.proofs, op.stable);
      } else {
        forall u, t ensures Slack(s', u, t) >= 0 {
          StepSlack(c, s, op, u, t);
        }
        forall d, u ensures CoveredAt(s', d, u) {
          StepCovered(c, s, op, d, u);
        }
      }
    }
  }

  lemma VerifySteps(c: Config, s: State, op: Op)
    requires c.Valid() && op.Verify? && Step(c, s, op).Ok?
    ensures op.d in s.dominators && s.dominators[op.d].status == Active
    ensures Step(c, s, op) == VerifyAll(c, s, op.d, op.proofs, op.stable)
  {
  }

  /** Solvency: after any run, a user's reserved balance of a token covers all that user's entries
      under every id and holder, and every open Authorize receipt is covered by its stash. */
  lemma {:induction false} RunsAreBacked(c: Config, ops: seq<Op>)
    requires c.Valid()
    ensures Backed(Run(c, ops))
  {
    hide Slack, After;
    if ops == [] {
      GenesisBacked();
    } else {
      RunsAreBacked(c, ops[..|ops| - 1]);
      StepBacked(c, Run(c, ops[..|ops| - 1]), ops[|ops| - 1]);
    }
  }

  lemma GenesisBacked()
    ensures Backed(INITIAL)
    ensures forall u, t :: Slack(INITIAL, u, t) == 0
  {
    forall u, t ensures Slack(INITIAL, u, t) == 0 {
      assert Weigh(INITIAL.reserves, OwnedBy(u, t)) == 0;
    }
  }

  /** The `unwrap_or_default` fallback of `clear` is never taken in a reachable state. */
  lemma ClearNeverFallsBack(c: Config, ops: seq<Op>, u: Account, d: Account, t: Token)
    requires c.Valid()
    ensures Get(Run(c, ops).reserves, AuthorizedKey(u, t, d)) <= Run(c, ops).BalanceOf(t, u).reserved
  {
    RunsAreBacked(c, ops);
    ClearExact(Run(c, ops), u, d, t);
  }
}
