/** Eviction is final, and an evicted dominator cannot keep anybody's funds. */
module Eviction {
  import opened Results
  import opened FixedPoint
  import opened VerifierTypes
  import opened VerifierState
  import opened VerifierSteps
  import opened Entries
  import opened Solvency
  import opened Receipts

  predicate IsEvicted(s: State, d: Account) {
    d in s.dominators && s.dominators[d].status == Evicted
  }

  /** What no call ever changes about dominator `D`. */
  predicate DominatorKept(s: State, s': State, D: Account) {
    && (D in s.dominators ==> D in s'.dominators && s'.dominators[D].startFrom == s.dominators[D].startFrom)
    && (IsEvicted(s, D) ==> IsEvicted(s', D))
  }

  lemma VerifyOneDominator(c: Config, s: State, d: Account, p: Proof, stable: set<Token>, D: Account)
    requires c.Valid() && d in s.dominators && VerifyOne(c, s, d, p, stable).Ok?
    ensures DominatorKept(s, VerifyOne(c, s, d, p, stable).value, D)
    ensures D != d ==> VerifyOne(c, s, d, p, stable).value.TreeOf(D) == s.TreeOf(D)
    ensures IsEvicted(VerifyOne(c, s, d, p, stable).value, D) ==> IsEvicted(s, D)
  {
    hide Apply;
  }

  lemma {:induction false} VerifyAllDominator(c: Config, s: State, d: Account, proofs: seq<Proof>, stable: set<Token>, D: Account)
    requires c.Valid() && d in s.dominators && VerifyAll(c, s, d, proofs, stable).Ok?
    ensures DominatorKept(s, VerifyAll(c, s, d, proofs, stable).value, D)
    ensures D != d ==> VerifyAll(c, s, d, proofs, stable).value.TreeOf(D) == s.TreeOf(D)
    ensures IsEvicted(VerifyAll(c, s, d, proofs, stable).value, D) ==> IsEvicted(s, D)
  {
    hide VerifyOne;
    if proofs != [] {
      var n := |proofs| - 1;
      VerifyAllDominator(c, s, d, proofs[..n], stable, D);
      VerifyOneDominator(c, VerifyAll(c, s, d, proofs[..n], stable).value, d, proofs[n], stable, D);
    }
  }

  lemma {:induction false} ReleaseAllDominators(c: Config, s: State, order: seq<Account>)
    ensures ReleaseAll(c, s, order).dominators == s.dominators
  {
    hide Unreserve;
    if order != [] {
      ReleaseAllDominators(c, s, order[..|order| - 1]);
    }
  }

  lemma StakingDominator(c: Config, s: State, op: Op, D: Account)
    requires c.Valid() && (op.Stake? || op.Unstake? || op.ClaimShares?) && Step(c, s, op).Ok?
    ensures DominatorKept(s, Step(c, s, op).value, D)
    ensures Step(c, s, op).value.TreeOf(D) == s.TreeOf(D)
  {
    hide DoStake, DoUnstake, DoClaim;
    if op.Stake? {
      StakeEffect(c, s, op.u, op.d, op.x);
    } else if op.Unstake? {
      UnstakeEffect(c, s, op.u, op.d, op.x);
    } else {
      ClaimEffect(c, s, op.u, op.d);
    }
  }

  lemma RevokeDominators(c: Config, s: State, u: Account, d: Account, t: Token, x: nat, callback: Option<nat>)
    requires DoRevoke(c, s, u, d, t, x, callback).Ok?
    ensures DoRevoke(c, s, u, d, t, x, callback).value.dominators == s.dominators
  {
    hide DoRevoke;
  }

  /** No call removes a dominator, moves its start or lifts an eviction; only `verify` moves its tree. */
  lemma StepDominator(c: Config, s: State, op: Op, D: Account)
    requires c.Valid() && Step(c, s, op).Ok?
    ensures DominatorKept(s, Step(c, s, op).value, D)
    ensures !op.Verify? ==> Step(c, s, op).value.TreeOf(D) == s.TreeOf(D)
  {
    hide DoStake, DoUnstake, DoClaim, DoRevoke, Reserve, VerifyAll, ReleaseAll;
    match op
    case Stake(_, _, _) => StakingDominator(c, s, op, D);
    case Unstake(_, _, _) => StakingDominator(c, s, op, D);
    case ClaimShares(_, _) => StakingDominator(c, s, op, D);
    case RevokeFrom(u, d, t, x, callback) => RevokeDominators(c, s, u, d, t, x, callback);
    case Verify(d, proofs, stable) => VerifyAllDominator(c, s, d, proofs, stable, D);
    case NextBlock(order) => ReleaseAllDominators(c, Snapshots(c, s.(now := s.now + 1)), order);
    case _ =>
  }

  /** Once evicted, evicted after every continuation of the run. */
  lemma {:induction false} EvictionIsAbsorbing(c: Config, ops: seq<Op>, more: seq<Op>, D: Account)
    requires c.Valid() && IsEvicted(Run(c, ops), D)
    ensures IsEvicted(Run(c, ops + more), D)
  {
    hide Step;
    if more == [] {
      assert ops + more == ops;
    } else {
      var n := |more| - 1;
      EvictionIsAbsorbing(c, ops, more[..n], D);
      assert (ops + more)[..|ops + more| - 1] == ops + more[..n];
      var s := Run(c, ops + more[..n]);
      if Step(c, s, more[n]).Ok? {
        StepDominator(c, s, more[n], D);
      }
    }
  }

  // ---- the way out ----

  /** Everything dominator `d` still holds of `u`'s token. */
  function Hosted(s: State, u: Account, t: Token, d: Account): nat {
    Entry(s, AuthorizedKey(u, t, d)) + Stash(s, u, t, d)
  }

  lemma HostedIsPromised(s: State, u: Account, t: Token, d: Account)
    ensures Hosted(s, u, t, d) <= Promised(s.reserves, u, t)
  {
    var a, b := AuthorizedKey(u, t, d), ReserveKey(Stashed, u, t, d);
    PromisedDrop(s.reserves, a, u, t);
    PromisedPut(s.reserves - {a}, b, 0, u, t);
  }

  /** A first revoke of zero folds the stash in and touches no balance. */
  lemma FirstRevoke(c: Config, s: State, u: Account, d: Account, t: Token, callback: Option<nat>)
    requires IsEvicted(s, d) && Fits(Hosted(s, u, t, d))
    ensures DoRevoke(c, s, u, d, t, 0, callback).Ok?
    ensures var s1 := DoRevoke(c, s, u, d, t, 0, callback).value;
            && s1.balances == s.balances
            && s1.dominators == s.dominators
            && Entry(s1, AuthorizedKey(u, t, d)) == Hosted(s, u, t, d)
            && Stash(s1, u, t, d) == 0
            && (d, u) !in s1.receipts
  {
    FoldSucceeds(s, u, d, t);
    FoldStashEntry(s, u, d, t, AuthorizedKey(u, t, d));
    FoldStashEntry(s, u, d, t, ReserveKey(Stashed, u, t, d));
    hide FoldStash, Unreserve, DropReceipt;
    var s1 := FoldStash(s, u, d, t).value;
    FreesNothing(c, s1, Authorized, u, t, d);
    DropFrame(s1, d, u);
  }

  lemma FoldSucceeds(s: State, u: Account, d: Account, t: Token)
    requires Fits(Hosted(s, u, t, d))
    ensures FoldStash(s, u, d, t).Ok?
  {
  }

  lemma FreesNothing(c: Config, s: State, id: ReserveId, u: Account, t: Token, h: Account)
    ensures Unreserve(c, s, id, u, t, 0, h) == Ok(s)
  {
  }

  lemma DropFrame(s: State, d: Account, u: Account)
    ensures DropReceipt(s, d, u) == s.(receipts := DropReceipt(s, d, u).receipts, history := DropReceipt(s, d, u).history)
    ensures (d, u) !in DropReceipt(s, d, u).receipts
  {
  }

  lemma UnreserveSucceeds(c: Config, s: State, id: ReserveId, u: Account, t: Token, x: nat, h: Account)
    requires x <= Entry(s, ReserveKey(id, u, t, h)) && x <= s.BalanceOf(t, u).reserved
    requires t == c.native || Fits(s.BalanceOf(t, u).free + x)
    ensures var r := Unreserve(c, s, id, u, t, x, h);
            && r.Ok?
            && r.value.BalanceOf(t, u).free == s.BalanceOf(t, u).free + x
            && r.value.BalanceOf(t, u).reserved == s.BalanceOf(t, u).reserved - x
  {
  }

  /** A second revoke of the full amount frees it, provided the balance can hold it. */
  lemma SecondRevoke(c: Config, s: State, u: Account, d: Account, t: Token, callback: Option<nat>)
    requires IsEvicted(s, d) && Stash(s, u, t, d) == 0
    requires Entry(s, AuthorizedKey(u, t, d)) <= s.BalanceOf(t, u).reserved
    requires t == c.native || Fits(s.BalanceOf(t, u).free + Entry(s, AuthorizedKey(u, t, d)))
    ensures DoRevoke(c, s, u, d, t, Entry(s, AuthorizedKey(u, t, d)), callback).Ok?
    ensures var s1 := DoRevoke(c, s, u, d, t, Entry(s, AuthorizedKey(u, t, d)), callback).value;
            && s1.BalanceOf(t, u).free == s.BalanceOf(t, u).free + Entry(s, AuthorizedKey(u, t, d))
            && s1.BalanceOf(t, u).reserved == s.BalanceOf(t, u).reserved - Entry(s, AuthorizedKey(u, t, d))
            && Hosted(s1, u, t, d) == 0
  {
    assert FoldStash(s, u, d, t).Ok?;
    var x := Entry(s, AuthorizedKey(u, t, d));
    var s1 := FoldStash(s, u, d, t).value;
    FoldStashEntry(s, u, d, t, AuthorizedKey(u, t, d));
    hide FoldStash, Unreserve, DropReceipt;
    UnreserveSucceeds(c, s1, Authorized, u, t, x, d);
    DropFrame(Unreserve(c, s1, Authorized, u, t, x, d).value, d, u);
    EvictedRevokeEntry(c, s, u, d, t, x, callback, AuthorizedKey(u, t, d));
    EvictedRevokeEntry(c, s, u, d, t, x, callback, ReserveKey(Stashed, u, t, d));
  }

  /** And fails when the free balance of a non-native token cannot take it. */
  lemma SecondRevokeFails(c: Config, s: State, u: Account, d: Account, t: Token, x: nat, callback: Option<nat>)
    requires IsEvicted(s, d) && x > 0 && t != c.native && !Fits(s.BalanceOf(t, u).free + x)
    ensures DoRevoke(c, s, u, d, t, x, callback).Err?
  {
  }

  predicate Recovered(s: State, end: State, u: Account, d: Account, t: Token) {
    var all := Hosted(s, u, t, d);
    && end.BalanceOf(t, u).free == s.BalanceOf(t, u).free + all
    && end.BalanceOf(t, u).reserved == s.BalanceOf(t, u).reserved - all
    && Hosted(end, u, t, d) == 0
  }

  /** From any reachable state in which the dominator is evicted, revoking zero and then everything
      returns the whole authorised and stashed amount to the free balance, exactly when that balance
      can take it. Balances themselves are u128 values. */
  lemma EvictedFundsComeBack(c: Config, ops: seq<Op>, u: Account, d: Account, t: Token)
    requires c.Valid() && IsEvicted(Run(c, ops), d)
    requires Fits(Run(c, ops).BalanceOf(t, u).free) && Fits(Run(c, ops).BalanceOf(t, u).reserved)
    ensures var s := Run(c, ops);
            var all := Hosted(s, u, t, d);
            var end := Run(c, ops + [RevokeFrom(u, d, t, 0, None), RevokeFrom(u, d, t, all, None)]);
            Recovered(s, end, u, d, t) <==> t == c.native || Fits(s.BalanceOf(t, u).free + all)
  {
    hide Run, After, Recovered, Hosted;
    var s := Run(c, ops);
    HostedIsCovered(c, ops, u, d, t);
    TwoSteps(c, ops, RevokeFrom(u, d, t, 0, None), RevokeFrom(u, d, t, Hosted(s, u, t, d), None));
    TwoRevokes(c, s, u, d, t);
  }

  lemma TwoRevokes(c: Config, s: State, u: Account, d: Account, t: Token)
    requires c.Valid() && IsEvicted(s, d) && Fits(s.BalanceOf(t, u).free) && Fits(s.BalanceOf(t, u).reserved)
    requires Hosted(s, u, t, d) <= s.BalanceOf(t, u).reserved
    ensures var all := Hosted(s, u, t, d);
            var end := After(c, After(c, s, RevokeFrom(u, d, t, 0, None)), RevokeFrom(u, d, t, all, None));
            Recovered(s, end, u, d, t) <==> t == c.native || Fits(s.BalanceOf(t, u).free + all)
  {
    hide DoRevoke;
    var all := Hosted(s, u, t, d);
    FirstRevoke(c, s, u, d, t, None);
    var s1 := DoRevoke(c, s, u, d, t, 0, None).value;
    if t == c.native || Fits(s.BalanceOf(t, u).free + all) {
      SecondRevoke(c, s1, u, d, t, None);
    } else {
      SecondRevokeFails(c, s1, u, d, t, all, None);
    }
  }

  lemma HostedIsCovered(c: Config, ops: seq<Op>, u: Account, d: Account, t: Token)
    requires c.Valid()
    ensures Hosted(Run(c, ops), u, t, d) <= Run(c, ops).BalanceOf(t, u).reserved
  {
    RunsAreBacked(c, ops);
    HostedIsPromised(Run(c, ops), u, t, d);
    assert Slack(Run(c, ops), u, t) >= 0;
  }

  lemma TwoSteps(c: Config, ops: seq<Op>, one: Op, two: Op)
    requires c.Valid()
    ensures Run(c, ops + [one, two]) == After(c, After(c, Run(c, ops), one), two)
  {
    hide After;
    assert (ops + [one, two])[..|ops| + 1] == ops + [one];
    assert (ops + [one])[..|ops|] == ops;
  }
}
