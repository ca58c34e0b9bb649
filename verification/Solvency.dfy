/** Every promise in `Reserves` is backed by reserved balance: how each call moves the backing of
    one user `U` in one token `T`. */
module Solvency {
  import opened Results
  import opened MapSums
  import opened VerifierTypes
  import opened VerifierState
  import opened VerifierSteps
  import opened Orders

  function OwnedBy(u: Account, t: Token): (ReserveKey, nat) -> nat {
    (k: ReserveKey, v: nat) => if k.who == u && k.token == t then v else 0
  }

  /** All of `u`'s entries for one token, over every reserve id and every holder. */
  ghost function Promised(reserves: Reserves, u: Account, t: Token): nat {
    Weigh(reserves, OwnedBy(u, t))
  }

  /** Reserved balance beyond what is promised. */
  ghost function Slack(s: State, u: Account, t: Token): int {
    s.BalanceOf(t, u).reserved - Promised(s.reserves, u, t)
  }

  function Stash(s: State, u: Account, t: Token, d: Account): nat {
    Get(s.reserves, ReserveKey(Stashed, u, t, d))
  }

  // ---- single writes ----

  lemma PromisedPut(m: Reserves, k: ReserveKey, v: nat, u: Account, t: Token)
    ensures Promised(m[k := v], u, t)
            == Promised(m, u, t) + if k.who == u && k.token == t then v - Get(m, k) else 0
    ensures k.who == u && k.token == t ==> Get(m, k) <= Promised(m, u, t)
  {
    WeighPut(m, OwnedBy(u, t), k, v);
  }

  lemma PromisedDrop(m: Reserves, k: ReserveKey, u: Account, t: Token)
    ensures Promised(m - {k}, u, t)
            == Promised(m, u, t) - if k.who == u && k.token == t then Get(m, k) else 0
  {
    if k in m {
      WeighDrop(m, OwnedBy(u, t), k);
    } else {
      assert m - {k} == m;
    }
  }

  lemma ReserveSlack(s: State, id: ReserveId, u: Account, t: Token, x: nat, h: Account, U: Account, T: Token)
    requires Reserve(s, id, u, t, x, h).Ok?
    ensures Slack(Reserve(s, id, u, t, x, h).value, U, T) == Slack(s, U, T)
  {
    var k := ReserveKey(id, u, t, h);
    PromisedPut(s.reserves, k, Get(s.reserves, k) + x, U, T);
  }

  lemma UnreserveSlack(c: Config, s: State, id: ReserveId, u: Account, t: Token, x: nat, h: Account, U: Account, T: Token)
    requires Unreserve(c, s, id, u, t, x, h).Ok?
    ensures Slack(Unreserve(c, s, id, u, t, x, h).value, U, T) == Slack(s, U, T)
  {
    var k := ReserveKey(id, u, t, h);
    if x > 0 {
      PromisedPut(s.reserves, k, s.reserves[k] - x, U, T);
      PromisedDrop(s.reserves, k, U, T);
    }
  }

  /** With enough backing, the saturating subtraction in `clear` is an exact one. */
  lemma ClearExact(s: State, u: Account, d: Account, t: Token)
    requires Slack(s, u, t) >= 0
    ensures Get(s.reserves, AuthorizedKey(u, t, d)) <= s.BalanceOf(t, u).reserved
  {
    PromisedPut(s.reserves, AuthorizedKey(u, t, d), 0, u, t);
  }

  lemma ClearSlack(s: State, u: Account, d: Account, t: Token, balance: nat, U: Account, T: Token)
    requires Slack(s, U, T) >= 0
    requires Clear(s, u, d, t, balance).Ok?
    ensures Slack(Clear(s, u, d, t, balance).value, U, T) == Slack(s, U, T)
  {
    if u == U && t == T {
      ClearExact(s, u, d, t);
    }
    PromisedPut(s.reserves, AuthorizedKey(u, t, d), balance, U, T);
  }

  lemma {:induction false} ClearUsersSlack(s: State, d: Account, base: Token, quote: Token, users: seq<Mutation>, U: Account, T: Token)
    requires Slack(s, U, T) >= 0
    requires ClearUsers(s, d, base, quote, users).Ok?
    ensures Slack(ClearUsers(s, d, base, quote, users).value, U, T) == Slack(s, U, T)
  {
    if users != [] {
      var n := |users| - 1;
      ClearUsersSlack(s, d, base, quote, users[..n], U, T);
      var s1 := ClearUsers(s, d, base, quote, users[..n]).value;
      ClearSlack(s1, users[n].who, d, base, users[n].baseValue, U, T);
      var s2 := Clear(s1, users[n].who, d, base, users[n].baseValue).value;
      ClearSlack(s2, users[n].who, d, quote, users[n].quoteValue, U, T);
    }
  }

  lemma TakeSharesSlack(s: State, d: Account, u: Account, from: nat, to: nat, stake: nat, U: Account, T: Token)
    requires TakeShares(s, d, u, from, to, stake).Ok?
    ensures Slack(TakeShares(s, d, u, from, to, stake).value, U, T) == Slack(s, U, T)
  {
  }

  // ---- calls ----

  lemma SettleSlack(s: State, d: Account, season: nat, base: Token, quote: Token, cl: Clearing, U: Account, T: Token)
    requires Slack(s, U, T) >= 0 && Settle(s, d, season, base, quote, cl).Ok?
    ensures Slack(Settle(s, d, season, base, quote, cl).value, U, T) == Slack(s, U, T)
  {
    hide ClearUsers, PutProfit, CreditFee, Slack;
    var s1 := (if |cl.users| > 1 then ClearUsers(s, d, base, quote, cl.users) else Ok(s)).value;
    if |cl.users| > 1 {
      ClearUsersSlack(s, d, base, quote, cl.users, U, T);
    }
    ProfitSlack(s1, d, season, quote, cl.quoteFee, U, T);
    FeeSlack(PutProfit(s1, d, season, quote, cl.quoteFee).value, d, base, cl.baseFee, U, T);
  }

  lemma ProfitSlack(s: State, d: Account, season: nat, t: Token, x: nat, U: Account, T: Token)
    requires PutProfit(s, d, season, t, x).Ok?
    ensures Slack(PutProfit(s, d, season, t, x).value, U, T) == Slack(s, U, T)
  {
    hide PutProfit;
  }

  lemma FeeSlack(s: State, d: Account, t: Token, x: nat, U: Account, T: Token)
    requires CreditFee(s, d, t, x).Ok?
    ensures Slack(CreditFee(s, d, t, x).value, U, T) == Slack(s, U, T)
  {
  }

  lemma FoldStashSlack(s: State, u: Account, d: Account, t: Token, U: Account, T: Token)
    requires FoldStash(s, u, d, t).Ok?
    ensures Slack(FoldStash(s, u, d, t).value, U, T) == Slack(s, U, T)
  {
    var stash, auth := ReserveKey(Stashed, u, t, d), AuthorizedKey(u, t, d);
    hide Promised;
    PromisedDrop(s.reserves, stash, U, T);
    PromisedPut(s.reserves - {stash}, auth, Get(s.reserves, auth) + Get(s.reserves, stash), U, T);
  }

  /** How much slack an accepted command frees: only a TransferIn does, and exactly the part of the
      stash that its receipt does not ask for. */
  function Freed(s: State, d: Account, p: Proof, U: Account, T: Token): int {
    if p.cmd.TransferIn? && U == p.user && T == p.cmd.token then Stash(s, U, T, d) - p.cmd.amount else 0
  }

  lemma TransferInSlack(s: State, d: Account, u: Account, t: Token, x: nat, U: Account, T: Token)
    requires (d, u) in s.receipts && ApplyTransferIn(s, d, u, t, x).Ok?
    ensures Slack(ApplyTransferIn(s, d, u, t, x).value, U, T)
            == Slack(s, U, T) + if U == u && T == t then Stash(s, U, T, d) - x else 0
  {
    hide Promised;
    var stash, auth := ReserveKey(Stashed, u, t, d), AuthorizedKey(u, t, d);
    PromisedDrop(s.reserves, stash, U, T);
    PromisedPut(s.reserves - {stash}, auth, Get(s.reserves, auth) + x, U, T);
  }

  lemma TransferOutSlack(c: Config, s: State, d: Account, u: Account, t: Token, x: nat, U: Account, T: Token)
    requires (d, u) in s.receipts && ApplyTransferOut(c, s, d, u, t, x).Ok?
    ensures Slack(ApplyTransferOut(c, s, d, u, t, x).value, U, T) == Slack(s, U, T)
  {
    hide Unreserve, Promised;
    UnreserveSlack(c, s, Authorized, u, t, x, d, U, T);
  }

  lemma CommandSlack(c: Config, s: State, d: Account, p: Proof, U: Account, T: Token)
    requires !p.cmd.AskLimit? && !p.cmd.BidLimit?
    requires ApplyCommand(c, s, d, p).Ok?
    ensures Slack(ApplyCommand(c, s, d, p).value, U, T) == Slack(s, U, T) + Freed(s, d, p, U, T)
  {
    hide CancelAccepted, TransferInAccepted, TransferOutAccepted, RejectOutAccepted, ApplyTransferIn, ApplyTransferOut, Slack;
    if p.cmd.TransferIn? {
      TransferInSlack(s, d, p.user, p.cmd.token, p.cmd.amount, U, T);
    } else if p.cmd.TransferOut? {
      TransferOutSlack(c, s, d, p.user, p.cmd.token, p.cmd.amount, U, T);
    } else {
      SlackFrame(s, ApplyCommand(c, s, d, p).value, U, T);
    }
  }

  lemma ApplySlack(c: Config, s: State, d: Account, p: Proof, stable: set<Token>, U: Account, T: Token)
    requires c.Valid() && d in s.dominators && Slack(s, U, T) >= 0
    requires Apply(c, s, d, p, stable).Ok?
    ensures Slack(Apply(c, s, d, p, stable).value, U, T) == Slack(s, U, T) + Freed(s, d, p, U, T)
  {
    hide ApplyOrder, ApplyCommand, Slack;
    if p.cmd.AskLimit? || p.cmd.BidLimit? {
      OrderSlack(c, s, d, p, stable, U, T);
    } else {
      CommandSlack(c, s, d, p, U, T);
    }
  }

  lemma OrderSlack(c: Config, s: State, d: Account, p: Proof, stable: set<Token>, U: Account, T: Token)
    requires c.Valid() && d in s.dominators && Slack(s, U, T) >= 0
    requires p.cmd.AskLimit? || p.cmd.BidLimit?
    requires ApplyOrder(c, s, d, p, stable).Ok?
    ensures Slack(ApplyOrder(c, s, d, p, stable).value, U, T) == Slack(s, U, T)
  {
    hide Settle, PartiesOk, Balanced, AskMovesBook, AskMovesPages, BidMovesBook, BidMovesPages, AskClearing, BidClearing;
    SettleSlack(s, d, CurrentSeason(c, s.now, s.dominators[d].startFrom), p.cmd.base, p.cmd.quote, OrderClearing(p), U, T);
  }

  lemma StakeSlack(c: Config, s: State, u: Account, d: Account, x: nat, U: Account, T: Token)
    requires c.Valid() && DoStake(c, s, u, d, x).Ok?
    ensures Slack(DoStake(c, s, u, d, x).value, U, T) == Slack(s, U, T)
  {
    hide Reserve, TakeShares;
    ReserveSlack(s, Staked, u, c.native, x, d, U, T);
    var s1, was := Reserve(s, Staked, u, c.native, x, d).value, s.StakingOf(d, u);
    if was.amount != 0 {
      TakeSharesSlack(s1, d, u, was.fromSeason, CurrentSeason(c, s.now, s.dominators[d].startFrom), was.amount, U, T);
    }
  }

  lemma UnstakeSlack(c: Config, s: State, u: Account, d: Account, x: nat, U: Account, T: Token)
    requires c.Valid() && DoUnstake(c, s, u, d, x).Ok?
    ensures Slack(DoUnstake(c, s, u, d, x).value, U, T) == Slack(s, U, T)
  {
    hide Reserve, Unreserve, TakeShares;
    UnreserveSlack(c, s, Staked, u, c.native, x, d, U, T);
    var s1 := Unreserve(c, s, Staked, u, c.native, x, d).value;
    ReserveSlack(s1, PendingUnstake, u, c.native, x, c.system, U, T);
    var s2, was := MoveToPending(c, s, u, d, x).value, s.stakings[(d, u)];
    TakeSharesSlack(s2, d, u, was.fromSeason, CurrentSeason(c, s.now, s.dominators[d].startFrom), was.amount, U, T);
  }

  lemma RevokeSlack(c: Config, s: State, u: Account, d: Account, t: Token, x: nat, callback: Option<nat>, U: Account, T: Token)
    requires DoRevoke(c, s, u, d, t, x, callback).Ok?
    ensures Slack(DoRevoke(c, s, u, d, t, x, callback).value, U, T) == Slack(s, U, T)
  {
    hide FoldStash, Unreserve, Slack;
    var s' := DoRevoke(c, s, u, d, t, x, callback).value;
    if s.dominators[d].status == Evicted {
      var s1 := FoldStash(s, u, d, t).value;
      FoldStashSlack(s, u, d, t, U, T);
      UnreserveSlack(c, s1, Authorized, u, t, x, d, U, T);
      SlackFrame(Unreserve(c, s1, Authorized, u, t, x, d).value, s', U, T);
    } else {
      SlackFrame(s, s', U, T);
    }
  }

  lemma SlackFrame(s: State, s': State, U: Account, T: Token)
    requires s'.reserves == s.reserves && s'.balances == s.balances
    ensures Slack(s', U, T) == Slack(s, U, T)
  {
  }

  lemma ReleaseSlack(c: Config, s: State, u: Account, U: Account, T: Token)
    ensures Slack(Release(c, s, u), U, T) == Slack(s, U, T)
  {
    var x := Get(s.pending, (s.now, u));
    if Unreserve(c, s, PendingUnstake, u, c.native, x, c.system).Ok? {
      UnreserveSlack(c, s, PendingUnstake, u, c.native, x, c.system, U, T);
    }
  }

  lemma {:induction false} ReleaseAllSlack(c: Config, s: State, order: seq<Account>, U: Account, T: Token)
    ensures Slack(ReleaseAll(c, s, order), U, T) == Slack(s, U, T)
  {
    if order != [] {
      var n := |order| - 1;
      ReleaseAllSlack(c, s, order[..n], U, T);
      ReleaseSlack(c, ReleaseAll(c, s, order[..n]), order[n], U, T);
    }
  }

  /** Outside of `verify` no call changes any slack. */
  lemma StepSlack(c: Config, s: State, op: Op, U: Account, T: Token)
    requires c.Valid() && Step(c, s, op).Ok? && !op.Verify?
    ensures Slack(Step(c, s, op).value, U, T) == Slack(s, U, T)
  {
    hide DoStake, DoUnstake, DoClaim, DoAuthorize, DoRevoke, DoNextBlock, Promised;
    if op.Stake? {
      StakeSlack(c, s, op.u, op.d, op.x, U, T);
    } else if op.Unstake? {
      UnstakeSlack(c, s, op.u, op.d, op.x, U, T);
    } else if op.ClaimShares? {
      ClaimSlack(c, s, op.u, op.d, U, T);
    } else if op.AuthorizeTo? {
      AuthorizeSlack(s, op.u, op.d, op.t, op.x, U, T);
    } else if op.RevokeFrom? {
      RevokeSlack(c, s, op.u, op.d, op.t, op.x, op.callback, U, T);
    } else if op.NextBlock? {
      BlockSlack(c, s, op.order, U, T);
    }
  }

  lemma ClaimSlack(c: Config, s: State, u: Account, d: Account, U: Account, T: Token)
    requires c.Valid() && DoClaim(c, s, u, d).Ok?
    ensures Slack(DoClaim(c, s, u, d).value, U, T) == Slack(s, U, T)
  {
    hide TakeShares;
    var was := s.stakings[(d, u)];
    TakeSharesSlack(s, d, u, was.fromSeason, CurrentSeason(c, s.now, s.dominators[d].startFrom), was.amount, U, T);
  }

  lemma AuthorizeSlack(s: State, u: Account, d: Account, t: Token, x: nat, U: Account, T: Token)
    requires DoAuthorize(s, u, d, t, x).Ok?
    ensures Slack(DoAuthorize(s, u, d, t, x).value, U, T) == Slack(s, U, T)
  {
    hide Reserve;
    ReserveSlack(s, Stashed, u, t, x, d, U, T);
  }

  lemma BlockSlack(c: Config, s: State, order: seq<Account>, U: Account, T: Token)
    requires c.Valid()
    ensures Slack(DoNextBlock(c, s, order), U, T) == Slack(s, U, T)
  {
    hide ReleaseAll;
    ReleaseAllSlack(c, Snapshots(c, s.(now := s.now + 1)), order, U, T);
  }
}
