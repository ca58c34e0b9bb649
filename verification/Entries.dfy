/** What each call does to a single entry `j` of `Reserves`. */
module Entries {
  import opened Results
  import opened FixedPoint
  import opened MapSums
  import opened VerifierTypes
  import opened VerifierState
  import opened VerifierSteps
  import opened Orders

  function Entry(s: State, j: ReserveKey): nat { Get(s.reserves, j) }

  lemma ReserveEntry(s: State, id: ReserveId, u: Account, t: Token, x: nat, h: Account, j: ReserveKey)
    requires Reserve(s, id, u, t, x, h).Ok?
    ensures Entry(Reserve(s, id, u, t, x, h).value, j)
            == Entry(s, j) + if j == ReserveKey(id, u, t, h) then x else 0
  {
  }

  lemma ReserveBalance(s: State, id: ReserveId, u: Account, t: Token, x: nat, h: Account, U: Account, T: Token)
    requires Reserve(s, id, u, t, x, h).Ok?
    ensures Reserve(s, id, u, t, x, h).value.BalanceOf(T, U)
            == if U == u && T == t then Balance(s.BalanceOf(t, u).free - x, s.BalanceOf(t, u).reserved + x) else s.BalanceOf(T, U)
  {
  }

  lemma UnreserveEntry(c: Config, s: State, id: ReserveId, u: Account, t: Token, x: nat, h: Account, j: ReserveKey)
    requires Unreserve(c, s, id, u, t, x, h).Ok?
    ensures Entry(s, ReserveKey(id, u, t, h)) >= x
    ensures Entry(Unreserve(c, s, id, u, t, x, h).value, j)
            == Entry(s, j) - if j == ReserveKey(id, u, t, h) then x else 0
  {
  }

  /** Freeing what was just set aside succeeds and restores every entry and every balance. */
  lemma UnreserveUndoesReserve(c: Config, s: State, id: ReserveId, u: Account, t: Token, x: nat, h: Account, j: ReserveKey, v: Account, e: Token)
    requires Reserve(s, id, u, t, x, h).Ok? && Fits(s.BalanceOf(t, u).free)
    ensures var r := Unreserve(c, Reserve(s, id, u, t, x, h).value, id, u, t, x, h);
            r.Ok? && Entry(r.value, j) == Entry(s, j) && r.value.BalanceOf(e, v) == s.BalanceOf(e, v)
  {
    var s1 := Reserve(s, id, u, t, x, h).value;
    ReserveEntry(s, id, u, t, x, h, j);
    ReserveEntry(s, id, u, t, x, h, ReserveKey(id, u, t, h));
    if x != 0 {
      assert s1.BalanceOf(t, u) == Balance(s.BalanceOf(t, u).free - x, s.BalanceOf(t, u).reserved + x);
      assert ReserveKey(id, u, t, h) in s1.reserves;
    }
    assert Unreserve(c, s1, id, u, t, x, h).Ok?;
    UnreserveEntry(c, s1, id, u, t, x, h, j);
  }

  lemma StakeEntry(c: Config, s: State, u: Account, d: Account, x: nat, j: ReserveKey)
    requires c.Valid() && DoStake(c, s, u, d, x).Ok?
    ensures Entry(DoStake(c, s, u, d, x).value, j)
            == Entry(s, j) + if j == ReserveKey(Staked, u, c.native, d) then x else 0
  {
    hide Reserve, TakeShares;
    ReserveEntry(s, Staked, u, c.native, x, d, j);
  }

  lemma UnstakeEntry(c: Config, s: State, u: Account, d: Account, x: nat, j: ReserveKey)
    requires c.Valid() && DoUnstake(c, s, u, d, x).Ok?
    ensures Entry(s, ReserveKey(Staked, u, c.native, d)) >= x
    ensures Entry(DoUnstake(c, s, u, d, x).value, j)
            == Entry(s, j)
               - (if j == ReserveKey(Staked, u, c.native, d) then x else 0)
               + (if j == ReserveKey(PendingUnstake, u, c.native, c.system) then x else 0)
  {
    hide Reserve, Unreserve, TakeShares;
    UnreserveEntry(c, s, Staked, u, c.native, x, d, j);
    var s1 := Unreserve(c, s, Staked, u, c.native, x, d).value;
    ReserveEntry(s1, PendingUnstake, u, c.native, x, c.system, j);
  }

  lemma ClaimEntry(c: Config, s: State, u: Account, d: Account, j: ReserveKey)
    requires c.Valid() && DoClaim(c, s, u, d).Ok?
    ensures Entry(DoClaim(c, s, u, d).value, j) == Entry(s, j)
  {
    hide TakeShares;
  }

  lemma AuthorizeEntry(s: State, u: Account, d: Account, t: Token, x: nat, j: ReserveKey)
    requires DoAuthorize(s, u, d, t, x).Ok?
    ensures Entry(DoAuthorize(s, u, d, t, x).value, j)
            == Entry(s, j) + if j == ReserveKey(Stashed, u, t, d) then x else 0
  {
    hide Reserve;
    ReserveEntry(s, Stashed, u, t, x, d, j);
  }

  lemma FoldStashEntry(s: State, u: Account, d: Account, t: Token, j: ReserveKey)
    requires FoldStash(s, u, d, t).Ok?
    ensures Entry(FoldStash(s, u, d, t).value, j)
            == if j == ReserveKey(Stashed, u, t, d) then 0
               else Entry(s, j) + if j == AuthorizedKey(u, t, d) then Entry(s, ReserveKey(Stashed, u, t, d)) else 0
  {
  }

  /** Revoking at an evicted dominator frees `x` of everything it still holds of the token. */
  lemma EvictedRevokeEntry(c: Config, s: State, u: Account, d: Account, t: Token, x: nat, callback: Option<nat>, j: ReserveKey)
    requires d in s.dominators && s.dominators[d].status == Evicted
    requires DoRevoke(c, s, u, d, t, x, callback).Ok?
    ensures Entry(DoRevoke(c, s, u, d, t, x, callback).value, j)
            == if j == ReserveKey(Stashed, u, t, d) then 0
               else if j == AuthorizedKey(u, t, d) then Entry(s, j) + Entry(s, ReserveKey(Stashed, u, t, d)) - x
               else Entry(s, j)
  {
    hide FoldStash, Unreserve;
    FoldStashEntry(s, u, d, t, j);
    UnreserveEntry(c, FoldStash(s, u, d, t).value, Authorized, u, t, x, d, j);
  }

  lemma PlainRevokeEntry(c: Config, s: State, u: Account, d: Account, t: Token, x: nat, callback: Option<nat>, j: ReserveKey)
    requires d in s.dominators && s.dominators[d].status != Evicted
    requires DoRevoke(c, s, u, d, t, x, callback).Ok?
    ensures Entry(DoRevoke(c, s, u, d, t, x, callback).value, j) == Entry(s, j)
  {
    hide FoldStash, Unreserve;
  }

  lemma ReleaseEntry(c: Config, s: State, u: Account, j: ReserveKey)
    requires j != ReserveKey(PendingUnstake, u, c.native, c.system)
    ensures Entry(Release(c, s, u), j) == Entry(s, j)
  {
    hide Unreserve;
    var x := Get(s.pending, (s.now, u));
    if Unreserve(c, s, PendingUnstake, u, c.native, x, c.system).Ok? {
      UnreserveEntry(c, s, PendingUnstake, u, c.native, x, c.system, j);
    }
  }

  lemma {:induction false} ReleaseAllEntry(c: Config, s: State, order: seq<Account>, j: ReserveKey)
    requires j.id != PendingUnstake
    ensures Entry(ReleaseAll(c, s, order), j) == Entry(s, j)
  {
    hide Release;
    if order != [] {
      var n := |order| - 1;
      ReleaseAllEntry(c, s, order[..n], j);
      ReleaseEntry(c, ReleaseAll(c, s, order[..n]), order[n], j);
    }
  }

  lemma ClearEntry(s: State, u: Account, d: Account, t: Token, balance: nat, j: ReserveKey)
    requires Clear(s, u, d, t, balance).Ok?
    ensures Entry(Clear(s, u, d, t, balance).value, j) == if j == AuthorizedKey(u, t, d) then balance else Entry(s, j)
  {
  }

  /** Clearing touches only what the dominator holds for the cleared users in the two tokens. */
  lemma {:induction false} ClearUsersEntry(s: State, d: Account, base: Token, quote: Token, users: seq<Mutation>, j: ReserveKey)
    requires ClearUsers(s, d, base, quote, users).Ok?
    requires forall i :: 0 <= i < |users| ==> j != AuthorizedKey(users[i].who, base, d) && j != AuthorizedKey(users[i].who, quote, d)
    ensures Entry(ClearUsers(s, d, base, quote, users).value, j) == Entry(s, j)
  {
    hide Clear;
    if users != [] {
      var n := |users| - 1;
      var s1 := ClearUsers(s, d, base, quote, users[..n]).value;
      ClearUsersEntry(s, d, base, quote, users[..n], j);
      ClearEntry(s1, users[n].who, d, base, users[n].baseValue, j);
      var s2 := Clear(s1, users[n].who, d, base, users[n].baseValue).value;
      ClearEntry(s2, users[n].who, d, quote, users[n].quoteValue, j);
    }
  }

  lemma SettleEntry(s: State, d: Account, season: nat, base: Token, quote: Token, cl: Clearing, j: ReserveKey)
    requires Settle(s, d, season, base, quote, cl).Ok?
    ensures |cl.users| > 1 ==>
              && ClearUsers(s, d, base, quote, cl.users).Ok?
              && Entry(Settle(s, d, season, base, quote, cl).value, j) == Entry(ClearUsers(s, d, base, quote, cl.users).value, j)
    ensures |cl.users| <= 1 ==> Entry(Settle(s, d, season, base, quote, cl).value, j) == Entry(s, j)
  {
    hide ClearUsers;
  }

  /** Orders reach only entries under the Authorized id. */
  lemma OrderEntry(c: Config, s: State, d: Account, p: Proof, stable: set<Token>, j: ReserveKey)
    requires c.Valid() && d in s.dominators
    requires p.cmd.AskLimit? || p.cmd.BidLimit?
    requires ApplyOrder(c, s, d, p, stable).Ok? && j.id != Authorized
    ensures Entry(ApplyOrder(c, s, d, p, stable).value, j) == Entry(s, j)
  {
    hide Settle, ClearUsers, PartiesOk, Balanced, AskMovesBook, AskMovesPages, BidMovesBook, BidMovesPages, AskClearing, BidClearing;
    var cl := OrderClearing(p);
    SettleEntry(s, d, CurrentSeason(c, s.now, s.dominators[d].startFrom), p.cmd.base, p.cmd.quote, cl, j);
    if |cl.users| > 1 {
      ClearUsersEntry(s, d, p.cmd.base, p.cmd.quote, cl.users, j);
    }
  }

  lemma TransferOutEntry(c: Config, s: State, d: Account, u: Account, t: Token, x: nat, j: ReserveKey)
    requires (d, u) in s.receipts && ApplyTransferOut(c, s, d, u, t, x).Ok?
    ensures Entry(ApplyTransferOut(c, s, d, u, t, x).value, j)
            == Entry(s, j) - if j == AuthorizedKey(u, t, d) then x else 0
  {
    hide Unreserve;
    UnreserveEntry(c, s, Authorized, u, t, x, d, j);
  }

  lemma TransferInEntry(s: State, d: Account, u: Account, t: Token, x: nat, j: ReserveKey)
    requires (d, u) in s.receipts && ApplyTransferIn(s, d, u, t, x).Ok?
    ensures Entry(ApplyTransferIn(s, d, u, t, x).value, j)
            == if j == ReserveKey(Stashed, u, t, d) then 0
               else Entry(s, j) + if j == AuthorizedKey(u, t, d) then x else 0
  {
  }

  /** Commands other than orders: only a transfer moves reserves, and only its own entries. */
  lemma CommandEntry(c: Config, s: State, d: Account, p: Proof, j: ReserveKey)
    requires !p.cmd.AskLimit? && !p.cmd.BidLimit?
    requires ApplyCommand(c, s, d, p).Ok?
    ensures Entry(ApplyCommand(c, s, d, p).value, j)
            == if p.cmd.TransferIn? && j == ReserveKey(Stashed, p.user, p.cmd.token, d) then 0
               else if p.cmd.TransferIn? && j == AuthorizedKey(p.user, p.cmd.token, d) then Entry(s, j) + p.cmd.amount
               else if p.cmd.TransferOut? && j == AuthorizedKey(p.user, p.cmd.token, d) then Entry(s, j) - p.cmd.amount
               else Entry(s, j)
  {
    hide CancelAccepted, TransferInAccepted, TransferOutAccepted, RejectOutAccepted, ApplyTransferOut, ApplyTransferIn;
    match p.cmd
    case TransferOut(t, x) => TransferOutEntry(c, s, d, p.user, t, x, j);
    case TransferIn(t, x) => TransferInEntry(s, d, p.user, t, x, j);
    case _ =>
  }

  /** Proofs never reach staking or unstaking reserves. */
  lemma VerifyOneOtherEntry(c: Config, s: State, d: Account, p: Proof, stable: set<Token>, j: ReserveKey)
    requires c.Valid() && d in s.dominators && VerifyOne(c, s, d, p, stable).Ok?
    requires j.id == Staked || j.id == PendingUnstake
    ensures Entry(VerifyOne(c, s, d, p, stable).value, j) == Entry(s, j)
  {
    hide ApplyOrder, ApplyCommand, Proves, Updated;
    if p.cmd.AskLimit? || p.cmd.BidLimit? {
      OrderEntry(c, s, d, p, stable, j);
    } else {
      CommandEntry(c, s, d, p, j);
    }
  }

  lemma {:induction false} VerifyAllOtherEntry(c: Config, s: State, d: Account, proofs: seq<Proof>, stable: set<Token>, j: ReserveKey)
    requires c.Valid() && d in s.dominators && VerifyAll(c, s, d, proofs, stable).Ok?
    requires j.id == Staked || j.id == PendingUnstake
    ensures Entry(VerifyAll(c, s, d, proofs, stable).value, j) == Entry(s, j)
  {
    hide VerifyOne;
    if proofs != [] {
      var n := |proofs| - 1;
      VerifyAllOtherEntry(c, s, d, proofs[..n], stable, j);
      VerifyOneOtherEntry(c, VerifyAll(c, s, d, proofs[..n], stable).value, d, proofs[n], stable, j);
    }
  }

  // ---- what staking calls leave of stakings and dominators ----

  lemma StakeEffect(c: Config, s: State, u: Account, d: Account, x: nat)
    requires c.Valid() && DoStake(c, s, u, d, x).Ok?
    ensures x >= c.minStake && d in s.dominators
    ensures s.dominators[d].status == Active || s.dominators[d].status == Inactive
    ensures var s', dom := DoStake(c, s, u, d, x).value, s.dominators[d];
            && s'.stakings == s.stakings[(d, u) := Staking(CurrentSeason(c, s.now, dom.startFrom), s.StakingOf(d, u).amount + x)]
            && s'.dominators == s.dominators[d := dom.(staked := dom.staked + x, status := OnlineStatus(c, dom.staked + x))]
            && s'.now == s.now && s'.pending == s.pending && s'.bonuses == s.bonuses
  {
    hide Reserve, TakeShares;
  }

  lemma UnstakeEffect(c: Config, s: State, u: Account, d: Account, x: nat)
    requires c.Valid() && DoUnstake(c, s, u, d, x).Ok?
    ensures d in s.dominators && (d, u) in s.stakings && s.dominators[d].status != Registered
    ensures x <= s.stakings[(d, u)].amount && x <= s.dominators[d].staked
    ensures s.stakings[(d, u)].amount == x || s.stakings[(d, u)].amount - x >= c.minStake
    ensures var s', dom, was := DoUnstake(c, s, u, d, x).value, s.dominators[d], s.stakings[(d, u)];
            && s'.stakings == (if was.amount == x then s.stakings - {(d, u)}
                               else s.stakings[(d, u) := Staking(CurrentSeason(c, s.now, dom.startFrom), was.amount - x)])
            && s'.dominators == s.dominators[d := dom.(staked := dom.staked - x,
                                                       status := if dom.status == Evicted then Evicted else OnlineStatus(c, dom.staked - x))]
            && s'.now == s.now && s'.bonuses == s.bonuses
            && s'.pending == s.pending[(UnlockBlock(c, s.now), u) := Get(s.pending, (UnlockBlock(c, s.now), u)) + x]
  {
    hide Reserve, Unreserve, TakeShares;
  }

  lemma ClaimEffect(c: Config, s: State, u: Account, d: Account)
    requires c.Valid() && DoClaim(c, s, u, d).Ok?
    ensures d in s.dominators && (d, u) in s.stakings
    ensures var s', was := DoClaim(c, s, u, d).value, s.stakings[(d, u)];
            && s'.stakings == s.stakings[(d, u) := Staking(CurrentSeason(c, s.now, s.dominators[d].startFrom), was.amount)]
            && s'.dominators == s.dominators
            && s'.now == s.now && s'.pending == s.pending && s'.bonuses == s.bonuses
  {
    hide TakeShares;
  }
}
