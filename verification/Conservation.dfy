/** Conservation over whole runs: where ledger and tree agree, the verifier neither makes nor loses a unit. */
module Conservation {
  import opened Results
  import opened MapSums
  import opened VerifierTypes
  import opened VerifierState
  import opened VerifierSteps
  import opened Orders
  import opened Entries
  import opened Solvency
  import opened Receipts
  import opened Eviction
  import opened Agreement
  import opened TradeAccounting
  import opened PendingShares

  // ---- the books of a token ----

  function HeldWeight(T: Token, k: (Token, Account), b: Balance): nat {
    if k.0 == T then b.free + b.reserved else 0
  }

  function HeldIn(T: Token): ((Token, Account), Balance) -> nat {
    (k, b) => HeldWeight(T, k, b)
  }

  /** Free and reserved units of all accounts. */
  ghost function Total(m: Balances, T: Token): nat { Weigh(m, HeldIn(T)) }

  function ProfitWeight(T: Token, b: Bonus): nat { Get(b.profit, T) }

  function ProfitIn(T: Token): ((Account, nat), Bonus) -> nat { (k, b) => ProfitWeight(T, b) }

  /** The profit of all seasons of all dominators. */
  ghost function Profits(m: map<(Account, nat), Bonus>, T: Token): nat { Weigh(m, ProfitIn(T)) }

  /** What stakers have drawn of it. */
  function DrawnInAll(h: History, T: Token): nat {
    if h.Genesis? then 0
    else DrawnInAll(h.before, T) + if h.last.SeasonPaid? then Get(SeasonShares(h.last.bonus, h.last.stake), T) else 0
  }

  /** All accounts together, plus the profit that is not drawn yet. */
  ghost function Books(s: State, T: Token): int {
    Total(s.balances, T) + Profits(s.bonuses, T) - DrawnInAll(s.history, T)
  }

  function Worth(s: State, t: Token, u: Account): nat { s.BalanceOf(t, u).free + s.BalanceOf(t, u).reserved }

  lemma PutTotal(s: State, t: Token, u: Account, b: Balance, T: Token)
    ensures Total(s.balances[(t, u) := b], T) == Total(s.balances, T) + if T == t then b.free + b.reserved - Worth(s, t, u) else 0
  {
    WeighPut(s.balances, HeldIn(T), (t, u), b);
  }

  // ---- primitives ----

  lemma ReserveBooks(s: State, id: ReserveId, u: Account, t: Token, x: nat, h: Account, T: Token)
    requires Reserve(s, id, u, t, x, h).Ok?
    ensures Books(Reserve(s, id, u, t, x, h).value, T) == Books(s, T)
  {
    hide Total, Profits, DrawnInAll;
    if x != 0 {
      var b := s.BalanceOf(t, u);
      PutTotal(s, t, u, Balance(b.free - x, b.reserved + x), T);
    }
  }

  lemma UnreserveBooks(c: Config, s: State, id: ReserveId, u: Account, t: Token, x: nat, h: Account, T: Token)
    requires Unreserve(c, s, id, u, t, x, h).Ok?
    ensures Books(Unreserve(c, s, id, u, t, x, h).value, T) == Books(s, T)
  {
    hide Total, Profits, DrawnInAll;
    if x != 0 {
      var b := s.BalanceOf(t, u);
      PutTotal(s, t, u, Balance(b.free + x, b.reserved - x), T);
    }
  }

  lemma {:induction false} CreditedBooks(s: State, u: Account, shares: map<Token, nat>, T: Token)
    ensures Total(Credited(s, u, shares), T) == Total(s.balances, T) + Get(shares, T)
    decreases |shares|
  {
    hide Credited, Total;
    if shares == map[] {
      NothingCredited(s, u);
    } else {
      var t := AnyKey(shares);
      var rest := shares - {t};
      CreditedBooks(s, u, rest, T);
      CreditedPut(s, u, shares, t);
      CreditedRest(s, u, shares, t);
      var s1 := s.(balances := Credited(s, u, rest));
      PutTotal(s1, t, u, Balance(s.BalanceOf(t, u).free + shares[t], s.BalanceOf(t, u).reserved), T);
    }
  }

  lemma CreditedRest(s: State, u: Account, shares: map<Token, nat>, t: Token)
    requires t in shares
    ensures s.(balances := Credited(s, u, shares - {t})).BalanceOf(t, u) == s.BalanceOf(t, u)
  {
  }

  lemma {:induction false} PaidBooks(s: State, d: Account, u: Account, from: nat, to: nat, stake: nat, T: Token)
    ensures DrawnInAll(PaidHistory(s, d, u, from, to, stake), T)
            == DrawnInAll(s.history, T) + Get(Shares(s, d, from, to, stake), T)
    decreases (to)
  {
    hide SeasonShares;
    if from < to {
      PaidBooks(s, d, u, from, to - 1, stake, T);
    }
  }

  /** What a staker is credited is what the seasons have drawn from them. */
  lemma TakeSharesBooks(s: State, d: Account, u: Account, from: nat, to: nat, stake: nat, T: Token)
    requires TakeShares(s, d, u, from, to, stake).Ok?
    ensures Books(TakeShares(s, d, u, from, to, stake).value, T) == Books(s, T)
  {
    hide Total, Profits, DrawnInAll, Credited, PaidHistory, Shares, CreditFits;
    CreditedBooks(s, u, Shares(s, d, from, to, stake), T);
    PaidBooks(s, d, u, from, to, stake, T);
  }

  lemma PutProfits(m: map<(Account, nat), Bonus>, k: (Account, nat), b: Bonus, T: Token)
    ensures Profits(m[k := b], T) == Profits(m, T) + Get(b.profit, T) - if k in m then Get(m[k].profit, T) else 0
  {
    WeighPut(m, ProfitIn(T), k, b);
  }

  lemma ProfitBooks(s: State, d: Account, season: nat, t: Token, x: nat, T: Token)
    requires PutProfit(s, d, season, t, x).Ok?
    ensures Books(PutProfit(s, d, season, t, x).value, T) == Books(s, T) + if T == t then x else 0
  {
    hide Total, Profits, DrawnInAll;
    if x != 0 {
      var b := s.BonusOf(d, season);
      PutProfits(s.bonuses, (d, season), b.(profit := b.profit[t := Get(b.profit, t) + x]), T);
    }
  }

  lemma FeeBooks(s: State, d: Account, t: Token, x: nat, T: Token)
    requires CreditFee(s, d, t, x).Ok?
    ensures Books(CreditFee(s, d, t, x).value, T) == Books(s, T) + if T == t then x else 0
  {
    hide Total, Profits, DrawnInAll;
    if x != 0 {
      var b := s.BalanceOf(t, d);
      PutTotal(s, t, d, Balance(b.free + x, b.reserved), T);
    }
  }

  // ---- clearing ----

  lemma ClearBooks(s: State, u: Account, d: Account, t: Token, balance: nat, T: Token)
    requires Clear(s, u, d, t, balance).Ok? && Slack(s, u, t) >= 0
    ensures Books(Clear(s, u, d, t, balance).value, T)
            == Books(s, T) + if T == t then balance - Entry(s, AuthorizedKey(u, t, d)) else 0
  {
    hide Total, Profits, DrawnInAll, Slack;
    ClearExact(s, u, d, t);
    var b := s.BalanceOf(t, u);
    PutTotal(s, t, u, Balance(b.free, b.reserved - Entry(s, AuthorizedKey(u, t, d)) + balance), T);
  }

  /** The values a clearing writes, for the first `n` users. */
  function Written(users: seq<Mutation>, base: Token, T: Token, n: nat): nat
    requires n <= |users|
  {
    if n == 0 then 0
    else Written(users, base, T, n - 1) + if T == base then users[n - 1].baseValue else users[n - 1].quoteValue
  }

  ghost predicate Solvent(s: State) { forall u, t :: Slack(s, u, t) >= 0 }

  lemma {:induction false} ClearUsersBooks(s: State, d: Account, base: Token, quote: Token, users: seq<Mutation>, n: nat, T: Token)
    requires n <= |users| && base != quote && DistinctUsers(users) && Solvent(s)
    requires ClearUsers(s, d, base, quote, users[..n]).Ok?
    ensures Books(ClearUsers(s, d, base, quote, users[..n]).value, T)
            == Books(s, T) + if T == base || T == quote then Written(users, base, T, n) - LedgerHeld(s, d, T, users, n) else 0
  {
    hide Clear, Books, Slack;
    if n > 0 {
      var m, who := n - 1, users[n - 1].who;
      assert users[..n][..m] == users[..m];
      ClearUsersBooks(s, d, base, quote, users, m, T);
      var s1 := ClearUsers(s, d, base, quote, users[..m]).value;
      var s2 := Clear(s1, who, d, base, users[m].baseValue).value;
      assert Slack(s, who, base) >= 0 && Slack(s, who, quote) >= 0;
      ClearUsersSlack(s, d, base, quote, users[..m], who, base);
      ClearUsersSlack(s, d, base, quote, users[..m], who, quote);
      ClearSlack(s1, who, d, base, users[m].baseValue, who, quote);
      ClearBooks(s1, who, d, base, users[m].baseValue, T);
      ClearBooks(s2, who, d, quote, users[m].quoteValue, T);
      ClearEntry(s1, who, d, base, users[m].baseValue, AuthorizedKey(who, quote, d));
      ClearUsersEntry(s, d, base, quote, users[..m], AuthorizedKey(who, base, d));
      ClearUsersEntry(s, d, base, quote, users[..m], AuthorizedKey(who, quote, d));
    }
  }

  lemma {:induction false} WrittenIsHeld(s: State, d: Account, base: Token, quote: Token, users: seq<Mutation>, s': State, n: nat, T: Token)
    requires n <= |users| && base != quote && DistinctUsers(users) && (T == base || T == quote)
    requires ClearUsers(s, d, base, quote, users).Ok? && s'.reserves == ClearUsers(s, d, base, quote, users).value.reserves
    ensures Written(users, base, T, n) == LedgerHeld(s', d, T, users, n)
  {
    hide ClearUsers;
    if n > 0 {
      WrittenIsHeld(s, d, base, quote, users, s', n - 1, T);
      ClearUsersSets(s, d, base, quote, users, n - 1);
    }
  }

  // ---- orders ----

  lemma SettleBooks(s: State, d: Account, season: nat, base: Token, quote: Token, cl: Clearing, T: Token)
    requires Settle(s, d, season, base, quote, cl).Ok?
    ensures var s1 := if |cl.users| > 1 then ClearUsers(s, d, base, quote, cl.users) else Ok(s);
            && s1.Ok?
            && Settle(s, d, season, base, quote, cl).value.reserves == s1.value.reserves
            && Books(Settle(s, d, season, base, quote, cl).value, T)
               == Books(s1.value, T) + (if T == quote then cl.quoteFee else 0) + (if T == base then cl.baseFee else 0)
  {
    hide ClearUsers, PutProfit, CreditFee, Books;
    var s1 := (if |cl.users| > 1 then ClearUsers(s, d, base, quote, cl.users) else Ok(s)).value;
    ProfitBooks(s1, d, season, quote, cl.quoteFee, T);
    FeeBooks(PutProfit(s1, d, season, quote, cl.quoteFee).value, d, base, cl.baseFee, T);
  }

  lemma OrderIsSettled(c: Config, s: State, d: Account, p: Proof, stable: set<Token>)
    requires c.Valid() && d in s.dominators && IsOrder(p) && ApplyOrder(c, s, d, p, stable).Ok?
    ensures OrderOf(p.cmd, p).Shapes(p.leaves)
    ensures ApplyOrder(c, s, d, p, stable)
            == Settle(s, d, CurrentSeason(c, s.now, s.dominators[d].startFrom), p.cmd.base, p.cmd.quote, OrderClearing(p))
  {
    hide Settle, PartiesOk, Balanced, AskMovesBook, AskMovesPages, BidMovesBook, BidMovesPages, AskClearing, BidClearing;
  }

  /** A cleared order among parties on whom ledger and tree agree: what they lose is the fee. */
  lemma ClearedBooks(c: Config, s: State, d: Account, p: Proof, stable: set<Token>, T: Token)
    requires c.Valid() && d in s.dominators && IsOrder(p) && WellFormed(p) && Solvent(s)
    requires Proves(s.dominators[d].tree, p.leaves) && ApplyOrder(c, s, d, p, stable).Ok?
    requires OrderOf(p.cmd, p).makers >= 1 && OrderOf(p.cmd, p).Shapes(p.leaves) && PartiesAgree(s, d, p)
    ensures Books(ApplyOrder(c, s, d, p, stable).value, T) == Books(s, T)
  {
    hide ApplyOrder, Settle, Proves, WellFormed, OrderClearing, LedgerHeld, Books, Solvent, PartiesAgree, Order.Shapes;
    OrderIsSettled(c, s, d, p, stable);
    LedgerMoves(c, s, d, p, stable, 0);
    OrderUsers(c, s, d, p, stable);
    ClearingBooks(s, d, CurrentSeason(c, s.now, s.dominators[d].startFrom), p.cmd.base, p.cmd.quote, OrderClearing(p), T);
  }

  lemma ClearingBooks(s: State, d: Account, season: nat, base: Token, quote: Token, cl: Clearing, T: Token)
    requires Settle(s, d, season, base, quote, cl).Ok? && |cl.users| > 1 && base != quote && DistinctUsers(cl.users) && Solvent(s)
    requires var s', n := Settle(s, d, season, base, quote, cl).value, |cl.users|;
             && LedgerHeld(s, d, base, cl.users, n) == LedgerHeld(s', d, base, cl.users, n) + cl.baseFee
             && LedgerHeld(s, d, quote, cl.users, n) == LedgerHeld(s', d, quote, cl.users, n) + cl.quoteFee
    ensures Books(Settle(s, d, season, base, quote, cl).value, T) == Books(s, T)
  {
    hide Settle, ClearUsers, LedgerHeld, Books, Written, Solvent, DistinctUsers;
    var users, n, s' := cl.users, |cl.users|, Settle(s, d, season, base, quote, cl).value;
    SettleBooks(s, d, season, base, quote, cl, T);
    assert users[..n] == users;
    ClearUsersBooks(s, d, base, quote, users, n, T);
    if T == base || T == quote {
      WrittenIsHeld(s, d, base, quote, users, s', n, T);
    }
  }

  lemma OrderUsers(c: Config, s: State, d: Account, p: Proof, stable: set<Token>)
    requires c.Valid() && d in s.dominators && IsOrder(p) && WellFormed(p)
    requires Proves(s.dominators[d].tree, p.leaves) && ApplyOrder(c, s, d, p, stable).Ok?
    ensures OrderOf(p.cmd, p).Shapes(p.leaves)
    ensures p.cmd.base != p.cmd.quote && DistinctUsers(OrderClearing(p).users)
  {
    hide ApplyOrder, Accepted, Proves, WellFormed, OrderClearing;
    ProvesDistinct(s.dominators[d].tree, p.leaves);
    OrderIsAccepted(c, s, d, p, stable);
    AcceptedUsers(OrderOf(p.cmd, p), d, s.reserves, p.leaves, p.cmd.AskLimit?, OrderClearing(p).users);
  }

  /** An order without makers that leaves the taker's totals alone charges nothing. */
  lemma MakerlessBooks(c: Config, s: State, d: Account, p: Proof, stable: set<Token>, T: Token)
    requires c.Valid() && d in s.dominators && IsOrder(p) && WellFormed(p) && Tidy(p)
    requires Proves(s.dominators[d].tree, p.leaves) && ApplyOrder(c, s, d, p, stable).Ok?
    requires OrderOf(p.cmd, p).makers == 0
    ensures Books(ApplyOrder(c, s, d, p, stable).value, T) == Books(s, T)
  {
    hide ApplyOrder, Settle, Proves, WellFormed, Tidy, OrderClearing, Books, Order.Shapes;
    OrderIsSettled(c, s, d, p, stable);
    MakerlessIsFree(c, s, d, p, stable);
    SettleBooks(s, d, CurrentSeason(c, s.now, s.dominators[d].startFrom), p.cmd.base, p.cmd.quote, OrderClearing(p), T);
  }

  lemma MakerlessIsFree(c: Config, s: State, d: Account, p: Proof, stable: set<Token>)
    requires c.Valid() && d in s.dominators && IsOrder(p) && WellFormed(p) && Tidy(p)
    requires Proves(s.dominators[d].tree, p.leaves) && ApplyOrder(c, s, d, p, stable).Ok?
    requires OrderOf(p.cmd, p).makers == 0
    ensures OrderOf(p.cmd, p).Shapes(p.leaves)
    ensures |OrderClearing(p).users| == 1 && OrderClearing(p).baseFee == 0 && OrderClearing(p).quoteFee == 0
  {
    hide ApplyOrder, Proves, WellFormed, OrderClearing, Accepted;
    PartiesPayFees(c, s, d, p, stable);
    NoMakersYet(p.leaves);
    ProvesDistinct(s.dominators[d].tree, p.leaves);
    OrderIsAccepted(c, s, d, p, stable);
    UsersOf(OrderOf(p.cmd, p), d, s.reserves, p.leaves, p.cmd.AskLimit?, OrderClearing(p).users);
  }

  lemma NoMakersYet(leaves: seq<Leaf>)
    requires |leaves| > 0
    ensures MakerChange(leaves, 0, 1) == 0 && MakerChange(leaves, 0, 2) == 0
  {
  }

  ghost predicate Agreed(s: State, d: Account) { forall u, t :: Gap(s, d, u, t) == 0 }

  lemma OrderBooks(c: Config, s: State, d: Account, p: Proof, stable: set<Token>, T: Token)
    requires c.Valid() && d in s.dominators && IsOrder(p) && WellFormed(p) && Tidy(p) && Solvent(s) && Agreed(s, d)
    requires Proves(s.dominators[d].tree, p.leaves) && ApplyOrder(c, s, d, p, stable).Ok?
    ensures Books(ApplyOrder(c, s, d, p, stable).value, T) == Books(s, T)
  {
    hide ApplyOrder, Proves, WellFormed, Books, Solvent, Gap, Tidy, OrderClearing;
    if OrderOf(p.cmd, p).makers == 0 {
      MakerlessBooks(c, s, d, p, stable, T);
    } else {
      OrderUsers(c, s, d, p, stable);
      ClearedBooks(c, s, d, p, stable, T);
    }
  }

  // ---- the other calls ----

  lemma LogBooks(s: State, s': State, T: Token)
    requires s'.balances == s.balances && s'.bonuses == s.bonuses && DrawnInAll(s'.history, T) == DrawnInAll(s.history, T)
    ensures Books(s', T) == Books(s, T)
  {
  }

  lemma CommandBooks(c: Config, s: State, d: Account, p: Proof, T: Token)
    requires !IsOrder(p) && ApplyCommand(c, s, d, p).Ok?
    ensures Books(ApplyCommand(c, s, d, p).value, T) == Books(s, T)
  {
    hide ApplyTransferIn, ApplyTransferOut, DropReceipt, CancelAccepted, TransferInAccepted, TransferOutAccepted, RejectOutAccepted, Books;
    if p.cmd.TransferOut? {
      TransferOutBooks(c, s, d, p.user, p.cmd.token, p.cmd.amount, T);
    } else if p.cmd.TransferIn? {
      TransferInBooks(s, d, p.user, p.cmd.token, p.cmd.amount, T);
    } else {
      DropBooks(s, d, p.user, T);
    }
  }

  lemma TransferOutBooks(c: Config, s: State, d: Account, u: Account, t: Token, x: nat, T: Token)
    requires (d, u) in s.receipts && ApplyTransferOut(c, s, d, u, t, x).Ok?
    ensures Books(ApplyTransferOut(c, s, d, u, t, x).value, T) == Books(s, T)
  {
    hide Unreserve, Books;
    UnreserveBooks(c, s, Authorized, u, t, x, d, T);
    LogBooks(Unreserve(c, s, Authorized, u, t, x, d).value, ApplyTransferOut(c, s, d, u, t, x).value, T);
  }

  lemma TransferInBooks(s: State, d: Account, u: Account, t: Token, x: nat, T: Token)
    requires (d, u) in s.receipts && ApplyTransferIn(s, d, u, t, x).Ok?
    ensures Books(ApplyTransferIn(s, d, u, t, x).value, T) == Books(s, T)
  {
    hide Books;
    LogBooks(s, ApplyTransferIn(s, d, u, t, x).value, T);
  }

  lemma DropBooks(s: State, d: Account, u: Account, T: Token)
    ensures Books(DropReceipt(s, d, u), T) == Books(s, T)
  {
    hide Books;
    LogBooks(s, DropReceipt(s, d, u), T);
  }

  lemma VerifyOneBooks(c: Config, s: State, d: Account, p: Proof, stable: set<Token>, T: Token)
    requires c.Valid() && d in s.dominators && VerifyOne(c, s, d, p, stable).Ok?
    requires WellFormed(p) && Tidy(p) && Solvent(s) && Agreed(s, d)
    ensures Books(VerifyOne(c, s, d, p, stable).value, T) == Books(s, T)
  {
    hide ApplyOrder, ApplyCommand, Proves, Updated, WellFormed, Tidy, Solvent, Agreed, Total, Profits, DrawnInAll;
    if IsOrder(p) {
      OrderBooks(c, s, d, p, stable, T);
    } else {
      CommandBooks(c, s, d, p, T);
    }
  }

  lemma {:induction false} VerifyAllBooks(c: Config, s: State, d: Account, proofs: seq<Proof>, stable: set<Token>, T: Token)
    requires c.Valid() && d in s.dominators && s.dominators[d].status != Evicted && VerifyAll(c, s, d, proofs, stable).Ok?
    requires forall i :: 0 <= i < |proofs| ==> WellFormed(proofs[i]) && Tidy(proofs[i])
    requires Backed(s) && Agreed(s, d)
    ensures Books(VerifyAll(c, s, d, proofs, stable).value, T) == Books(s, T)
  {
    hide VerifyOne, WellFormed, Tidy, Books, Gap, Slack, CoveredAt;
    if proofs != [] {
      var n := |proofs| - 1;
      var s1 := VerifyAll(c, s, d, proofs[..n], stable).value;
      VerifyAllBooks(c, s, d, proofs[..n], stable, T);
      VerifyAllBacked(c, s, d, proofs[..n], stable);
      VerifyAllDominator(c, s, d, proofs[..n], stable, d);
      forall u, t ensures Gap(s1, d, u, t) == 0 {
        assert Gap(s, d, u, t) == 0;
        VerifyAllAgrees(c, s, d, proofs[..n], stable, d, u, t, 0);
      }
      VerifyOneBooks(c, s1, d, proofs[n], stable, T);
    }
  }

  lemma StakeBooks(c: Config, s: State, u: Account, d: Account, x: nat, T: Token)
    requires c.Valid() && DoStake(c, s, u, d, x).Ok?
    ensures Books(DoStake(c, s, u, d, x).value, T) == Books(s, T)
  {
    hide Reserve, TakeShares, Total, Profits, DrawnInAll;
    ReserveBooks(s, Staked, u, c.native, x, d, T);
    var was, s1 := s.StakingOf(d, u), Reserve(s, Staked, u, c.native, x, d).value;
    if was.amount != 0 {
      TakeSharesBooks(s1, d, u, was.fromSeason, CurrentSeason(c, s.now, s.dominators[d].startFrom), was.amount, T);
    }
  }

  lemma QueueBooks(c: Config, s: State, u: Account, d: Account, x: nat, T: Token)
    requires c.Valid() && MoveToPending(c, s, u, d, x).Ok?
    ensures Books(MoveToPending(c, s, u, d, x).value, T) == Books(s, T)
  {
    hide Reserve, Unreserve, Books;
    UnreserveBooks(c, s, Staked, u, c.native, x, d, T);
    var s1 := Unreserve(c, s, Staked, u, c.native, x, d).value;
    ReserveBooks(s1, PendingUnstake, u, c.native, x, c.system, T);
    LogBooks(Reserve(s1, PendingUnstake, u, c.native, x, c.system).value, MoveToPending(c, s, u, d, x).value, T);
  }

  lemma UnstakeBooks(c: Config, s: State, u: Account, d: Account, x: nat, T: Token)
    requires c.Valid() && DoUnstake(c, s, u, d, x).Ok?
    ensures Books(DoUnstake(c, s, u, d, x).value, T) == Books(s, T)
  {
    hide MoveToPending, TakeShares, Total, Profits, DrawnInAll;
    QueueBooks(c, s, u, d, x, T);
    var s1, was := MoveToPending(c, s, u, d, x).value, s.stakings[(d, u)];
    TakeSharesBooks(s1, d, u, was.fromSeason, CurrentSeason(c, s.now, s.dominators[d].startFrom), was.amount, T);
  }

  lemma ClaimBooks(c: Config, s: State, u: Account, d: Account, T: Token)
    requires c.Valid() && DoClaim(c, s, u, d).Ok?
    ensures Books(DoClaim(c, s, u, d).value, T) == Books(s, T)
  {
    hide TakeShares, Total, Profits, DrawnInAll;
    var was := s.stakings[(d, u)];
    TakeSharesBooks(s, d, u, was.fromSeason, CurrentSeason(c, s.now, s.dominators[d].startFrom), was.amount, T);
  }

  lemma AuthorizeBooks(s: State, u: Account, d: Account, t: Token, x: nat, T: Token)
    requires DoAuthorize(s, u, d, t, x).Ok?
    ensures Books(DoAuthorize(s, u, d, t, x).value, T) == Books(s, T)
  {
    hide Reserve, Books;
    ReserveBooks(s, Stashed, u, t, x, d, T);
    LogBooks(Reserve(s, Stashed, u, t, x, d).value, DoAuthorize(s, u, d, t, x).value, T);
  }

  lemma RevokeBooks(c: Config, s: State, u: Account, d: Account, t: Token, x: nat, callback: Option<nat>, T: Token)
    requires DoRevoke(c, s, u, d, t, x, callback).Ok?
    ensures Books(DoRevoke(c, s, u, d, t, x, callback).value, T) == Books(s, T)
  {
    hide FoldStash, Unreserve, Books;
    var s' := DoRevoke(c, s, u, d, t, x, callback).value;
    if s.dominators[d].status == Evicted {
      var s1 := FoldStash(s, u, d, t).value;
      var s2 := Unreserve(c, s1, Authorized, u, t, x, d).value;
      LogBooks(s, s1, T);
      UnreserveBooks(c, s1, Authorized, u, t, x, d, T);
      LogBooks(s2, s', T);
    } else {
      LogBooks(s, s', T);
    }
  }

  lemma {:induction false} ReleaseAllBooks(c: Config, s: State, order: seq<Account>, T: Token)
    ensures Books(ReleaseAll(c, s, order), T) == Books(s, T)
  {
    hide Release, Books;
    if order != [] {
      ReleaseAllBooks(c, s, order[..|order| - 1], T);
      ReleaseBooks(c, ReleaseAll(c, s, order[..|order| - 1]), order[|order| - 1], T);
    }
  }

  lemma ReleaseBooks(c: Config, s: State, u: Account, T: Token)
    ensures Books(Release(c, s, u), T) == Books(s, T)
  {
    hide Unreserve, Books;
    var x := Get(s.pending, (s.now, u));
    if Unreserve(c, s, PendingUnstake, u, c.native, x, c.system).Ok? {
      UnreserveBooks(c, s, PendingUnstake, u, c.native, x, c.system, T);
      LogBooks(Unreserve(c, s, PendingUnstake, u, c.native, x, c.system).value, Release(c, s, u), T);
    } else {
      LogBooks(s, Release(c, s, u), T);
    }
  }

  /** Snapshots write stakes, not profits. */
  lemma SnapshotBooks(c: Config, s: State, T: Token)
    requires c.Valid()
    ensures Books(Snapshots(c, s), T) == Books(s, T)
  {
    hide Total, DrawnInAll, Ending;
    var m, n := s.bonuses, Snapshots(c, s).bonuses;
    forall k | k in n ensures ProfitWeight(T, n[k]) == if k in m then ProfitWeight(T, m[k]) else 0 {
      assert k == (k.0, k.1);
    }
    WeighExtend(m, n, ProfitIn(T));
  }

  lemma BlockBooks(c: Config, s: State, order: seq<Account>, T: Token)
    requires c.Valid()
    ensures Books(DoNextBlock(c, s, order), T) == Books(s, T)
  {
    hide ReleaseAll, Snapshots, Books;
    var s1 := s.(now := s.now + 1);
    LogBooks(s, s1, T);
    SnapshotBooks(c, s1, T);
    ReleaseAllBooks(c, Snapshots(c, s1), order, T);
  }

  /** What other pallets bring in or take out of a token with one call. */
  function Brought(s: State, op: Op, T: Token): int {
    if op.OtherPallets? && op.t == T then op.free - s.BalanceOf(op.t, op.u).free else 0
  }

  lemma GiftBooks(s: State, t: Token, u: Account, free: nat, T: Token)
    ensures Books(s.SetBalance(t, u, free, s.BalanceOf(t, u).reserved), T)
            == Books(s, T) + if t == T then free - s.BalanceOf(t, u).free else 0
  {
    hide Total, Profits, DrawnInAll;
    PutTotal(s, t, u, Balance(free, s.BalanceOf(t, u).reserved), T);
  }

  lemma CallBooks(c: Config, s: State, op: Op, T: Token)
    requires c.Valid() && Step(c, s, op).Ok? && !op.Verify?
    ensures Books(Step(c, s, op).value, T) == Books(s, T) + Brought(s, op, T)
  {
    hide DoStake, DoUnstake, DoClaim, DoAuthorize, DoRevoke, DoNextBlock, Total, Profits, DrawnInAll;
    if op.Stake? {
      StakeBooks(c, s, op.u, op.d, op.x, T);
    } else if op.Unstake? {
      UnstakeBooks(c, s, op.u, op.d, op.x, T);
    } else if op.ClaimShares? {
      ClaimBooks(c, s, op.u, op.d, T);
    } else if op.AuthorizeTo? {
      AuthorizeBooks(s, op.u, op.d, op.t, op.x, T);
    } else if op.RevokeFrom? {
      RevokeBooks(c, s, op.u, op.d, op.t, op.x, op.callback, T);
    } else if op.NextBlock? {
      BlockBooks(c, s, op.order, T);
    } else if op.OtherPallets? {
      GiftBooks(s, op.t, op.u, op.free, T);
    }
  }

  // ---- every run ----

  /** What other pallets brought in along the run, less what they took out. */
  ghost function BroughtIn(c: Config, ops: seq<Op>, T: Token): int
    requires c.Valid()
  {
    if ops == [] then 0
    else BroughtIn(c, ops[..|ops| - 1], T) + Brought(Run(c, ops[..|ops| - 1]), ops[|ops| - 1], T)
  }

  /** Conservation: after every run of well-formed proofs in which no order without makers changes a total,
      all free and reserved units of a token plus the profit not drawn yet are what other pallets
      brought in. */
  lemma {:induction false} NothingIsMadeOrLost(c: Config, ops: seq<Op>, T: Token)
    requires c.Valid() && forall i :: 0 <= i < |ops| ==> Sound(ops[i], 0)
    ensures Books(Run(c, ops), T) == BroughtIn(c, ops, T)
  {
    hide Step, Books, Backed, Sound, Agreed, Brought;
    if ops == [] {
      NothingAtGenesis(T);
    } else {
      var n := |ops| - 1;
      var s, op := Run(c, ops[..n]), ops[n];
      NothingIsMadeOrLost(c, ops[..n], T);
      if Step(c, s, op).Ok? {
        if op.Verify? {
          VerifySteps(c, s, op);
          RunsAreBacked(c, ops[..n]);
          RunAgreed(c, ops[..n], op.d);
          BatchBooks(c, s, op, T);
        } else {
          CallBooks(c, s, op, T);
        }
      } else {
        RejectedBringsNothing(c, s, op, T);
      }
    }
  }

  lemma RejectedBringsNothing(c: Config, s: State, op: Op, T: Token)
    requires c.Valid() && Step(c, s, op).Err?
    ensures Brought(s, op, T) == 0
  {
    hide DoStake, DoUnstake, DoClaim, DoAuthorize, DoRevoke, DoVerify;
  }

  lemma BatchBooks(c: Config, s: State, op: Op, T: Token)
    requires c.Valid() && op.Verify? && op.d in s.dominators && s.dominators[op.d].status == Active && Sound(op, 0)
    requires Backed(s) && Agreed(s, op.d) && VerifyAll(c, s, op.d, op.proofs, op.stable).Ok?
    ensures Books(VerifyAll(c, s, op.d, op.proofs, op.stable).value, T) == Books(s, T) + Brought(s, op, T)
  {
    hide VerifyAll, Books, Backed, Agreed, WellFormed, Tidy;
    VerifyAllBooks(c, s, op.d, op.proofs, op.stable, T);
  }

  lemma RunAgreed(c: Config, ops: seq<Op>, d: Account)
    requires c.Valid() && !IsEvicted(Run(c, ops), d) && forall i :: 0 <= i < |ops| ==> Sound(ops[i], 0)
    ensures Agreed(Run(c, ops), d)
  {
    hide Run, Sound, Gap;
    forall u, t ensures Gap(Run(c, ops), d, u, t) == 0 {
      RunsAgreeWithin(c, ops, d, u, t, 0);
    }
  }

  lemma NothingAtGenesis(T: Token)
    ensures Books(INITIAL, T) == 0
  {
    assert Weigh(INITIAL.balances, HeldIn(T)) == 0 && Weigh(INITIAL.bonuses, ProfitIn(T)) == 0;
  }
}
