/** What a cleared order does to the on-chain ledger as a whole. */
module TradeAccounting {
  import opened Results
  import opened FixedPoint
  import opened MapSums
  import opened VerifierTypes
  import opened VerifierState
  import opened VerifierSteps
  import opened Orders
  import opened OrderBook
  import opened Entries
  import opened Agreement

  /** What dominator `d` holds of token `t` for the first `n` users. */
  function LedgerHeld(s: State, d: Account, t: Token, users: seq<Mutation>, n: nat): nat
    requires n <= |users|
  {
    if n == 0 then 0 else LedgerHeld(s, d, t, users, n - 1) + Entry(s, AuthorizedKey(users[n - 1].who, t, d))
  }

  /** Ledger and leaf of user `i` differ by at most `e` before the order and agree after it. */
  predicate Follows(s: State, s': State, d: Account, t: Token, leaves: seq<Leaf>, users: seq<Mutation>, side: nat, i: nat, e: nat)
    requires 1 <= side <= 2 && i < |users| && 2 * i + side < |leaves|
  {
    var k, leaf := AuthorizedKey(users[i].who, t, d), leaves[2 * i + side];
    Abs(Entry(s, k) - leaf.before.Total()) <= e && Entry(s', k) == leaf.after.Total()
  }

  lemma {:induction false} HeldMoves(s: State, s': State, d: Account, t: Token, leaves: seq<Leaf>, users: seq<Mutation>, side: nat, n: nat, e: nat)
    requires 1 <= side <= 2 && n <= |users| && 2 * n < |leaves|
    requires forall i :: 0 <= i < n ==> Follows(s, s', d, t, leaves, users, side, i, e)
    ensures Abs(LedgerHeld(s, d, t, users, n) - LedgerHeld(s', d, t, users, n) + MakerChange(leaves, n, side)) <= n * e
  {
    if n > 0 {
      HeldMoves(s, s', d, t, leaves, users, side, n - 1, e);
      assert Follows(s, s', d, t, leaves, users, side, n - 1, e);
      assert n * e == (n - 1) * e + e;
    }
  }

  lemma PartyFollows(c: Config, s: State, d: Account, p: Proof, stable: set<Token>, users: seq<Mutation>, i: nat, e: nat)
    requires c.Valid() && d in s.dominators && IsOrder(p)
    requires OrderOf(p.cmd, p).Shapes(p.leaves) && users == OrderClearing(p).users
    requires Proves(s.dominators[d].tree, p.leaves) && ApplyOrder(c, s, d, p, stable).Ok?
    requires Accepted(OrderOf(p.cmd, p), d, s.reserves, p.leaves, p.cmd.AskLimit?, users)
    requires OrderOf(p.cmd, p).makers >= 1 && i < |users|
    requires e == PRECISION_SLACK || (Gap(s, d, users[i].who, p.cmd.base) == 0 && Gap(s, d, users[i].who, p.cmd.quote) == 0)
    ensures 2 * i + 2 < |p.leaves|
    ensures Follows(s, ApplyOrder(c, s, d, p, stable).value, d, p.cmd.base, p.leaves, users, 1, i, e)
    ensures Follows(s, ApplyOrder(c, s, d, p, stable).value, d, p.cmd.quote, p.leaves, users, 2, i, e)
  {
    hide ApplyOrder, Accepted, OrderClearing, Gap, Entry, Proves, AuthorizedKey;
    var o := OrderOf(p.cmd, p);
    UsersOf(o, d, s.reserves, p.leaves, p.cmd.AskLimit?, users);
    PartyCleared(c, s, d, p, stable, users, i);
    PartyNear(s, d, o, p.leaves, p.cmd.AskLimit?, users, i, e);
  }

  lemma PartyCleared(c: Config, s: State, d: Account, p: Proof, stable: set<Token>, users: seq<Mutation>, i: nat)
    requires c.Valid() && d in s.dominators && IsOrder(p)
    requires OrderOf(p.cmd, p).Shapes(p.leaves) && users == OrderClearing(p).users
    requires ApplyOrder(c, s, d, p, stable).Ok?
    requires Accepted(OrderOf(p.cmd, p), d, s.reserves, p.leaves, p.cmd.AskLimit?, users)
    requires OrderOf(p.cmd, p).makers >= 1 && i < |users|
    ensures 2 * i + 2 < |p.leaves|
    ensures Entry(ApplyOrder(c, s, d, p, stable).value, AuthorizedKey(users[i].who, p.cmd.base, d)) == p.leaves[2 * i + 1].after.Total()
    ensures Entry(ApplyOrder(c, s, d, p, stable).value, AuthorizedKey(users[i].who, p.cmd.quote, d)) == p.leaves[2 * i + 2].after.Total()
  {
    hide ApplyOrder, ClearUsers, PartiesOk, WellPlaced, OrderClearing, Entry, AuthorizedKey, DistinctUsers, DistinctKeys;
    var o := OrderOf(p.cmd, p);
    var b, q := AuthorizedKey(users[i].who, p.cmd.base, d), AuthorizedKey(users[i].who, p.cmd.quote, d);
    assert UserMatches(o, p.leaves, users, i);
    AcceptedUsers(o, d, s.reserves, p.leaves, p.cmd.AskLimit?, users);
    OrderSettles(c, s, d, p, stable, b);
    OrderSettles(c, s, d, p, stable, q);
    ClearUsersSets(s, d, p.cmd.base, p.cmd.quote, users, i);
  }

  lemma PartyNear(s: State, d: Account, o: Order, leaves: seq<Leaf>, takerSells: bool, users: seq<Mutation>, i: nat, e: nat)
    requires d in s.dominators && Accepted(o, d, s.reserves, leaves, takerSells, users) && i < |users|
    requires Proves(s.dominators[d].tree, leaves)
    requires e == PRECISION_SLACK || (Gap(s, d, users[i].who, o.base) == 0 && Gap(s, d, users[i].who, o.quote) == 0)
    ensures Abs(Entry(s, AuthorizedKey(users[i].who, o.base, d)) - leaves[2 * i + 1].before.Total()) <= e
    ensures Abs(Entry(s, AuthorizedKey(users[i].who, o.quote, d)) - leaves[2 * i + 2].before.Total()) <= e
  {
    hide PartiesOk, WellPlaced, Look;
    assert UserMatches(o, leaves, users, i);
    PartyAt(o, d, s.reserves, leaves, takerSells, i);
    var tree := s.dominators[d].tree;
    assert Look(tree, leaves[2 * i + 1].key) == leaves[2 * i + 1].before;
    assert Look(tree, leaves[2 * i + 2].key) == leaves[2 * i + 2].before;
  }

  /** The fees close the balance: parties' leaves, taker included, change by minus the fee. */
  lemma PartiesPayFees(c: Config, s: State, d: Account, p: Proof, stable: set<Token>)
    requires c.Valid() && d in s.dominators && IsOrder(p) && ApplyOrder(c, s, d, p, stable).Ok?
    ensures OrderOf(p.cmd, p).Shapes(p.leaves)
    ensures MakerChange(p.leaves, OrderOf(p.cmd, p).makers + 1, 1) + OrderClearing(p).baseFee == 0
    ensures MakerChange(p.leaves, OrderOf(p.cmd, p).makers + 1, 2) + OrderClearing(p).quoteFee == 0
  {
    hide Settle, PartiesOk, AskMovesBook, AskMovesPages, BidMovesBook, BidMovesPages;
  }

  /** Ledger and tree agree about every party of the order. */
  predicate PartiesAgree(s: State, d: Account, p: Proof)
    requires IsOrder(p) && OrderOf(p.cmd, p).Shapes(p.leaves)
  {
    var users := OrderClearing(p).users;
    forall i :: 0 <= i < |users| ==> Gap(s, d, users[i].who, p.cmd.base) == 0 && Gap(s, d, users[i].who, p.cmd.quote) == 0
  }

  lemma LedgerMoves(c: Config, s: State, d: Account, p: Proof, stable: set<Token>, e: nat)
    requires c.Valid() && d in s.dominators && IsOrder(p) && WellFormed(p)
    requires Proves(s.dominators[d].tree, p.leaves) && ApplyOrder(c, s, d, p, stable).Ok?
    requires OrderOf(p.cmd, p).makers >= 1 && OrderOf(p.cmd, p).Shapes(p.leaves)
    requires e == PRECISION_SLACK || PartiesAgree(s, d, p)
    ensures var s', cl := ApplyOrder(c, s, d, p, stable).value, OrderClearing(p);
            && |cl.users| == OrderOf(p.cmd, p).makers + 1
            && Abs(LedgerHeld(s, d, p.cmd.base, cl.users, |cl.users|)
                   - (LedgerHeld(s', d, p.cmd.base, cl.users, |cl.users|) + cl.baseFee)) <= |cl.users| * e
            && Abs(LedgerHeld(s, d, p.cmd.quote, cl.users, |cl.users|)
                   - (LedgerHeld(s', d, p.cmd.quote, cl.users, |cl.users|) + cl.quoteFee)) <= |cl.users| * e
  {
    hide ApplyOrder, ClearUsers, Accepted, Proves, WellFormed, OrderClearing, Follows, LedgerHeld, MakerChange, Gap;
    var o, users, s' := OrderOf(p.cmd, p), OrderClearing(p).users, ApplyOrder(c, s, d, p, stable).value;
    ProvesDistinct(s.dominators[d].tree, p.leaves);
    OrderIsAccepted(c, s, d, p, stable);
    UsersOf(o, d, s.reserves, p.leaves, p.cmd.AskLimit?, users);
    PartiesPayFees(c, s, d, p, stable);
    var n := |users|;
    forall i | 0 <= i < n
      ensures Follows(s, s', d, p.cmd.base, p.leaves, users, 1, i, e)
      ensures Follows(s, s', d, p.cmd.quote, p.leaves, users, 2, i, e)
    {
      PartyFollows(c, s, d, p, stable, users, i, e);
    }
    HeldMoves(s, s', d, p.cmd.base, p.leaves, users, 1, n, e);
    HeldMoves(s, s', d, p.cmd.quote, p.leaves, users, 2, n, e);
  }

  // ---- where the fees go ----

  /** The dominator's own free units of a token. */
  function Purse(s: State, d: Account, t: Token): nat { s.BalanceOf(t, d).free }

  /** The profit recorded for the season under way. */
  function Profit(c: Config, s: State, d: Account, t: Token): nat
    requires c.seasonDuration > 0 && d in s.dominators
  {
    Get(s.BonusOf(d, CurrentSeason(c, s.now, s.dominators[d].startFrom)).profit, t)
  }

  lemma ClearFree(s: State, u: Account, d: Account, t: Token, balance: nat, U: Account, T: Token)
    requires Clear(s, u, d, t, balance).Ok?
    ensures Purse(Clear(s, u, d, t, balance).value, U, T) == Purse(s, U, T)
  {
  }

  lemma {:induction false} ClearUsersFree(s: State, d: Account, base: Token, quote: Token, users: seq<Mutation>, U: Account, T: Token)
    requires ClearUsers(s, d, base, quote, users).Ok?
    ensures Purse(ClearUsers(s, d, base, quote, users).value, U, T) == Purse(s, U, T)
  {
    hide Clear, Purse;
    if users != [] {
      var n := |users| - 1;
      ClearUsersFree(s, d, base, quote, users[..n], U, T);
      var s1 := ClearUsers(s, d, base, quote, users[..n]).value;
      ClearFree(s1, users[n].who, d, base, users[n].baseValue, U, T);
      ClearFree(Clear(s1, users[n].who, d, base, users[n].baseValue).value, users[n].who, d, quote, users[n].quoteValue, U, T);
    }
  }

  lemma ProfitLands(s: State, d: Account, season: nat, t: Token, x: nat)
    requires PutProfit(s, d, season, t, x).Ok?
    ensures Get(PutProfit(s, d, season, t, x).value.BonusOf(d, season).profit, t) == Get(s.BonusOf(d, season).profit, t) + x
  {
  }

  lemma FeeLands(s: State, d: Account, t: Token, x: nat)
    requires CreditFee(s, d, t, x).Ok?
    ensures Purse(CreditFee(s, d, t, x).value, d, t) == Purse(s, d, t) + x
  {
  }

  lemma SettleFees(s: State, d: Account, season: nat, base: Token, quote: Token, cl: Clearing)
    requires Settle(s, d, season, base, quote, cl).Ok?
    ensures var s' := Settle(s, d, season, base, quote, cl).value;
            && Purse(s', d, base) == Purse(s, d, base) + cl.baseFee
            && Get(s'.BonusOf(d, season).profit, quote) == Get(s.BonusOf(d, season).profit, quote) + cl.quoteFee
  {
    hide ClearUsers, PutProfit, CreditFee, Purse;
    var s1 := (if |cl.users| > 1 then ClearUsers(s, d, base, quote, cl.users) else Ok(s)).value;
    if |cl.users| > 1 {
      ClearUsersFree(s, d, base, quote, cl.users, d, base);
    }
    var s2 := PutProfit(s1, d, season, quote, cl.quoteFee).value;
    ProfitLands(s1, d, season, quote, cl.quoteFee);
    assert Purse(s2, d, base) == Purse(s1, d, base) by { SameFree(s1, s2, d, base); }
    FeeLands(s2, d, base, cl.baseFee);
  }

  lemma SameFree(s: State, s': State, d: Account, t: Token)
    requires s'.balances == s.balances
    ensures Purse(s', d, t) == Purse(s, d, t)
  {
  }

  lemma OrderFees(c: Config, s: State, d: Account, p: Proof, stable: set<Token>)
    requires c.Valid() && d in s.dominators && IsOrder(p) && OrderOf(p.cmd, p).Shapes(p.leaves)
    requires ApplyOrder(c, s, d, p, stable).Ok?
    ensures var s', cl := ApplyOrder(c, s, d, p, stable).value, OrderClearing(p);
            && Purse(s', d, p.cmd.base) == Purse(s, d, p.cmd.base) + cl.baseFee
            && Profit(c, s', d, p.cmd.quote) == Profit(c, s, d, p.cmd.quote) + cl.quoteFee
  {
    hide Settle, OrderAccepted, OrderClearing, Purse, CurrentSeason;
    SettleFees(s, d, CurrentSeason(c, s.now, s.dominators[d].startFrom), p.cmd.base, p.cmd.quote, OrderClearing(p));
  }

  /** What the ledger holds of the base token for the parties, and what the dominator has of it. */
  function BaseBooks(s: State, d: Account, p: Proof): nat
    requires IsOrder(p) && OrderOf(p.cmd, p).Shapes(p.leaves)
  {
    LedgerHeld(s, d, p.cmd.base, OrderClearing(p).users, |OrderClearing(p).users|) + Purse(s, d, p.cmd.base)
  }

  /** What the ledger holds of the quote token for the parties, and the season's profit in it. */
  function QuoteBooks(c: Config, s: State, d: Account, p: Proof): nat
    requires IsOrder(p) && OrderOf(p.cmd, p).Shapes(p.leaves) && c.seasonDuration > 0 && d in s.dominators
  {
    LedgerHeld(s, d, p.cmd.quote, OrderClearing(p).users, |OrderClearing(p).users|) + Profit(c, s, d, p.cmd.quote)
  }

  /** With m >= 1 makers, what the m + 1 parties have reserved at the dominator and where the fees go
      together move by at most (m + 1) * 10^11 per token. */
  lemma TradeNearlyConserves(c: Config, s: State, d: Account, p: Proof, stable: set<Token>)
    requires c.Valid() && d in s.dominators && IsOrder(p) && WellFormed(p)
    requires Proves(s.dominators[d].tree, p.leaves) && ApplyOrder(c, s, d, p, stable).Ok?
    requires OrderOf(p.cmd, p).makers >= 1 && OrderOf(p.cmd, p).Shapes(p.leaves)
    ensures var s', m := ApplyOrder(c, s, d, p, stable).value, OrderOf(p.cmd, p).makers;
            && Abs(BaseBooks(s', d, p) - BaseBooks(s, d, p)) <= (m + 1) * 100_000_000_000
            && Abs(QuoteBooks(c, s', d, p) - QuoteBooks(c, s, d, p)) <= (m + 1) * 100_000_000_000
  {
    hide ApplyOrder, Proves, WellFormed, OrderClearing, LedgerHeld, Purse, Profit;
    LedgerMoves(c, s, d, p, stable, PRECISION_SLACK);
    OrderFees(c, s, d, p, stable);
  }

  /** When ledger and tree agreed about the parties beforehand, the trade conserves each token exactly. */
  lemma TradeConservesExactly(c: Config, s: State, d: Account, p: Proof, stable: set<Token>)
    requires c.Valid() && d in s.dominators && IsOrder(p) && WellFormed(p)
    requires Proves(s.dominators[d].tree, p.leaves) && ApplyOrder(c, s, d, p, stable).Ok?
    requires OrderOf(p.cmd, p).makers >= 1 && OrderOf(p.cmd, p).Shapes(p.leaves) && PartiesAgree(s, d, p)
    ensures var s' := ApplyOrder(c, s, d, p, stable).value;
            BaseBooks(s', d, p) == BaseBooks(s, d, p) && QuoteBooks(c, s', d, p) == QuoteBooks(c, s, d, p)
  {
    hide ApplyOrder, Proves, WellFormed, OrderClearing, LedgerHeld, Purse, Profit, PartiesAgree;
    LedgerMoves(c, s, d, p, stable, 0);
    OrderFees(c, s, d, p, stable);
  }
}
