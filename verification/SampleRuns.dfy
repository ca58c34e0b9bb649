/** Runs from genesis that reach what the theorems speak about: a stash left over from a rejected deposit,
    and a settled trade with a maker. */
module SampleRuns {
  import opened Results
  import opened MapSums
  import opened VerifierTypes
  import opened VerifierState
  import opened VerifierSteps
  import opened Orders
  import opened Entries
  import opened Solvency
  import opened Receipts
  import opened TradeAccounting
  import opened SampleTrades

  predicate IsConf(c: Config) { c == Config(1, 1, 1, 1, 500_000, 500_000, 0, 900) }

  const STAKER: Account := 9

  lemma RunMore(c: Config, ops: seq<Op>, op: Op)
    requires c.Valid()
    ensures Run(c, ops + [op]) == After(c, Run(c, ops), op)
  {
    assert (ops + [op])[..|ops|] == ops;
  }

  // ---- an exchange goes live ----

  function Opening(): seq<Op> {
    [] + [NextBlock([])] + [Op.Register(DEX)] + [Op.Launch(DEX)] + [OtherPallets(0, STAKER, 1)] + [Op.Stake(STAKER, DEX, 1)]
  }

  predicate Live(s: State, tree: Tree) {
    DEX in s.dominators && s.dominators[DEX].status == Active && s.dominators[DEX].tree == tree && s.bonuses == map[]
  }

  /** Live, with no receipt and nothing but stakes reserved, and no token but the native one around. */
  predicate Idle(s: State) {
    && Live(s, map[]) && s.receipts == map[]
    && (forall k :: k in s.reserves ==> k.id == Staked)
    && (forall k :: k in s.balances ==> k.0 == 0)
  }

  lemma FirstBlock(c: Config)
    requires IsConf(c)
    ensures var s := After(c, INITIAL, NextBlock([]));
            && s.now == 1 && s.dominators == map[] && s.receipts == map[] && s.reserves == map[]
            && s.stakings == map[] && s.balances == map[] && s.bonuses == map[]
  {
    assert c.Valid();
  }

  lemma Enrolled(c: Config, s: State)
    requires IsConf(c) && s.now == 1 && s.dominators == map[] && s.stakings == map[]
    ensures var s2 := After(c, After(c, s, Op.Register(DEX)), Op.Launch(DEX));
            s2 == s.(dominators := map[DEX := Dominator(0, map[], 1, (0, 1), Inactive)])
  {
    assert c.Valid();
    var s1 := After(c, s, Op.Register(DEX));
    assert s1.dominators == map[DEX := Dominator(0, map[], 1, (0, 1), Registered)];
  }

  lemma StakedUp(c: Config, s: State)
    requires IsConf(c) && s.now == 1 && s.dominators == map[DEX := Dominator(0, map[], 1, (0, 1), Inactive)]
    requires s.stakings == map[] && s.reserves == map[] && s.receipts == map[]
    requires s.balances == map[(0, STAKER) := Balance(1, 0)] && s.bonuses == map[]
    ensures Idle(After(c, s, Op.Stake(STAKER, DEX, 1)))
  {
    hide TakeShares;
    assert c.Valid();
  }

  lemma Opens(c: Config)
    requires IsConf(c)
    ensures c.Valid() && Idle(Run(c, Opening()))
  {
    assert c.Valid();
    assert Run(c, []) == INITIAL;
    hide Run, After, Idle;
    var a := [] + [NextBlock([])];
    var b := a + [Op.Register(DEX)] + [Op.Launch(DEX)];
    RunMore(c, [], NextBlock([]));
    FirstBlock(c);
    RunMore(c, a, Op.Register(DEX));
    RunMore(c, a + [Op.Register(DEX)], Op.Launch(DEX));
    Enrolled(c, Run(c, a));
    RunMore(c, b, OtherPallets(0, STAKER, 1));
    Gifted(c, Run(c, b), 0, STAKER, 1);
    RunMore(c, b + [OtherPallets(0, STAKER, 1)], Op.Stake(STAKER, DEX, 1));
    StakedUp(c, Run(c, b + [OtherPallets(0, STAKER, 1)]));
  }

  lemma Gifted(c: Config, s: State, t: Token, u: Account, x: nat)
    requires c.Valid()
    ensures After(c, s, OtherPallets(t, u, x)) == s.(balances := s.balances[(t, u) := Balance(x, s.BalanceOf(t, u).reserved)])
  {
  }

  // ---- one user's position ----

  datatype Position = Position(free: nat, reserved: nat, stash: nat, auth: nat)

  predicate At(s: State, u: Account, t: Token, p: Position) {
    && s.BalanceOf(t, u) == Balance(p.free, p.reserved)
    && Stash(s, u, t, DEX) == p.stash && Entry(s, AuthorizedKey(u, t, DEX)) == p.auth
  }

  predicate Has(s: State, u: Account, r: Receipt) { (DEX, u) in s.receipts && s.receipts[(DEX, u)] == r }

  lemma Deposits(c: Config, s: State, tree: Tree, u: Account, t: Token, p: Position, x: nat)
    requires c.Valid() && Live(s, tree) && (DEX, u) !in s.receipts && At(s, u, t, p)
    requires 0 < x <= p.free && p.reserved + x <= 1000 && p.stash + x <= 1000
    ensures var s' := After(c, s, AuthorizeTo(u, DEX, t, x));
            && Live(s', tree) && Has(s', u, Authorize(t, x, s.now)) && s'.receipts.Keys == s.receipts.Keys + {(DEX, u)}
            && At(s', u, t, Position(p.free - x, p.reserved + x, p.stash + x, p.auth))
            && s'.now == s.now
  {
    ReserveGoesThrough(s, u, t, x);
    hide Reserve;
    ReserveBalance(s, Stashed, u, t, x, DEX, u, t);
    ReserveEntry(s, Stashed, u, t, x, DEX, ReserveKey(Stashed, u, t, DEX));
    ReserveEntry(s, Stashed, u, t, x, DEX, AuthorizedKey(u, t, DEX));
  }

  lemma ReserveGoesThrough(s: State, u: Account, t: Token, x: nat)
    requires x <= s.BalanceOf(t, u).free && s.BalanceOf(t, u).reserved + x <= 1000 && Stash(s, u, t, DEX) + x <= 1000
    ensures Reserve(s, Stashed, u, t, x, DEX).Ok?
  {
  }

  /** Somebody else's position is not touched by a deposit. */
  lemma DepositSpares(c: Config, s: State, u: Account, t: Token, x: nat, U: Account, T: Token, P: Position)
    requires c.Valid() && At(s, U, T, P) && (u, t) != (U, T)
    ensures At(After(c, s, AuthorizeTo(u, DEX, t, x)), U, T, P)
  {
    hide Reserve;
    if DoAuthorize(s, u, DEX, t, x).Ok? {
      ReserveBalance(s, Stashed, u, t, x, DEX, U, T);
      ReserveEntry(s, Stashed, u, t, x, DEX, ReserveKey(Stashed, U, T, DEX));
      ReserveEntry(s, Stashed, u, t, x, DEX, AuthorizedKey(U, T, DEX));
    }
  }

  lemma OneProof(c: Config, s: State, tree: Tree, p: Proof, stable: set<Token>)
    requires c.Valid() && Live(s, tree) && VerifyOne(c, s, DEX, p, stable).Ok?
    ensures After(c, s, Verify(DEX, [p], stable)) == VerifyOne(c, s, DEX, p, stable).value
  {
    hide VerifyOne;
    assert [p][..0] == [];
    assert VerifyAll(c, s, DEX, [], stable) == Ok(s);
  }

  function Rejecting(): Proof { Proof(1, SELLER, RejectTransferIn, [], 0, 0) }

  lemma Rejects(c: Config, s: State, tree: Tree, t: Token, p: Position, r: Receipt)
    requires c.Valid() && Live(s, tree) && At(s, SELLER, t, p) && Has(s, SELLER, r) && r.Authorize?
    ensures var s' := After(c, s, Verify(DEX, [Rejecting()], {QUOTE}));
            Live(s', tree) && At(s', SELLER, t, p) && (DEX, SELLER) !in s'.receipts
  {
    OneProof(c, s, tree, Rejecting(), {QUOTE});
  }

  function Arriving(u: Account, t: Token, x: nat): Proof {
    Proof(2, u, TransferIn(t, x), [Leaf(AccountKey(t, u), Pair(0, 0), Pair(x, 0))], 0, 0)
  }

  lemma ArrivalVerifies(c: Config, s: State, tree: Tree, u: Account, t: Token, x: nat, at: nat, p: Position)
    requires c.Valid() && Live(s, tree) && At(s, u, t, p) && Has(s, u, Authorize(t, x, at))
    requires Look(tree, AccountKey(t, u)) == Pair(0, 0) && p.auth + x <= 1000
    ensures var r := VerifyOne(c, s, DEX, Arriving(u, t, x), {QUOTE});
            && r.Ok?
            && Live(r.value, tree[AccountKey(t, u) := Pair(x, 0)])
            && At(r.value, u, t, Position(p.free, p.reserved, 0, p.auth + x))
            && r.value.receipts == s.receipts - {(DEX, u)} && r.value.now == s.now
  {
    var proof := Arriving(u, t, x);
    assert Proves(tree, proof.leaves);
    assert proof.leaves[..0] == [];
    assert Updated(tree, proof.leaves) == tree[AccountKey(t, u) := Pair(x, 0)];
    hide Updated, Look;
  }

  lemma ArrivalSpares(c: Config, s: State, u: Account, t: Token, x: nat, U: Account, T: Token, P: Position)
    requires c.Valid() && DEX in s.dominators && At(s, U, T, P) && (u, t) != (U, T)
    requires VerifyOne(c, s, DEX, Arriving(u, t, x), {QUOTE}).Ok?
    ensures At(VerifyOne(c, s, DEX, Arriving(u, t, x), {QUOTE}).value, U, T, P)
  {
    hide Updated, Look;
  }

  // ---- a stash is left over ----

  function Leaving(): seq<Op> {
    Rejected() + [AuthorizeTo(SELLER, DEX, BASE, 3)] + [Verify(DEX, [Arriving(SELLER, BASE, 3)], {QUOTE})]
  }

  lemma Blank(s: State, u: Account, t: Token)
    requires Idle(s) && t != 0
    ensures At(s, u, t, Position(0, 0, 0, 0))
  {
  }

  lemma GiftPosition(c: Config, s: State, tree: Tree, u: Account, t: Token, p: Position, x: nat)
    requires c.Valid() && Live(s, tree) && At(s, u, t, p)
    ensures var s' := After(c, s, OtherPallets(t, u, x));
            Live(s', tree) && At(s', u, t, p.(free := x)) && s'.receipts == s.receipts
  {
  }

  function Rejected(): seq<Op> {
    Opening() + [OtherPallets(BASE, SELLER, 8)] + [AuthorizeTo(SELLER, DEX, BASE, 5)] + [Verify(DEX, [Rejecting()], {QUOTE})]
  }

  lemma ADepositIsRejected(c: Config)
    requires IsConf(c)
    ensures c.Valid() && Live(Run(c, Rejected()), map[])
    ensures At(Run(c, Rejected()), SELLER, BASE, Position(3, 5, 5, 0)) && (DEX, SELLER) !in Run(c, Rejected()).receipts
  {
    Opens(c);
    hide Run, After, Idle, Live, At, Has, Opening;
    var a := Opening() + [OtherPallets(BASE, SELLER, 8)];
    var b := a + [AuthorizeTo(SELLER, DEX, BASE, 5)];
    IdleIsLive(Run(c, Opening()));
    Blank(Run(c, Opening()), SELLER, BASE);
    RunMore(c, Opening(), OtherPallets(BASE, SELLER, 8));
    GiftPosition(c, Run(c, Opening()), map[], SELLER, BASE, Position(0, 0, 0, 0), 8);
    RunMore(c, a, AuthorizeTo(SELLER, DEX, BASE, 5));
    Deposits(c, Run(c, a), map[], SELLER, BASE, Position(8, 0, 0, 0), 5);
    RunMore(c, b, Verify(DEX, [Rejecting()], {QUOTE}));
    Rejects(c, Run(c, b), map[], BASE, Position(3, 5, 5, 0), Authorize(BASE, 5, Run(c, a).now));
  }

  /** A deposit of five is rejected, one of three goes through and takes the whole stash of eight with it:
      five reserved units are promised to nobody. */
  lemma AStashIsLeftOver(c: Config)
    requires IsConf(c)
    ensures c.Valid() && Slack(Run(c, Leaving()), SELLER, BASE) >= 5
  {
    ADepositIsRejected(c);
    hide Run, After, Live, At, Has, Slack, Rejected;
    var d := Rejected();
    var e := d + [AuthorizeTo(SELLER, DEX, BASE, 3)];
    RunMore(c, d, AuthorizeTo(SELLER, DEX, BASE, 3));
    Deposits(c, Run(c, d), map[], SELLER, BASE, Position(3, 5, 5, 0), 3);
    RunMore(c, e, Verify(DEX, [Arriving(SELLER, BASE, 3)], {QUOTE}));
    RunsAreBacked(c, e);
    LeavesFive(c, Run(c, e), Run(c, d).now);
  }

  lemma IdleIsLive(s: State)
    requires Idle(s)
    ensures Live(s, map[]) && s.receipts == map[]
  {
  }

  lemma LeavesFive(c: Config, s: State, at: nat)
    requires c.Valid() && Backed(s) && Live(s, map[]) && At(s, SELLER, BASE, Position(0, 8, 8, 0))
    requires Has(s, SELLER, Authorize(BASE, 3, at))
    ensures Slack(After(c, s, Verify(DEX, [Arriving(SELLER, BASE, 3)], {QUOTE})), SELLER, BASE) >= 5
  {
    ArrivalVerifies(c, s, map[], SELLER, BASE, 3, at, Position(0, 8, 8, 0));
    OneProof(c, s, map[], Arriving(SELLER, BASE, 3), {QUOTE});
    assert Slack(s, SELLER, BASE) >= 0 && CoveredAt(s, DEX, SELLER);
    hide After, VerifyOne, Slack, CoveredAt;
    VerifyOneBacked(c, s, DEX, Arriving(SELLER, BASE, 3), {QUOTE}, SELLER, BASE, DEX);
  }

  // ---- a trade is settled ----

  type Positions = map<(Account, Token), Position>

  ghost predicate AllAt(s: State, P: Positions) { forall u, t :: (u, t) in P ==> At(s, u, t, P[(u, t)]) }

  lemma GiftAll(c: Config, s: State, tree: Tree, P: Positions, u: Account, t: Token, x: nat)
    requires c.Valid() && Live(s, tree) && AllAt(s, P) && (u, t) in P
    ensures var s' := After(c, s, OtherPallets(t, u, x));
            Live(s', tree) && AllAt(s', P[(u, t) := P[(u, t)].(free := x)]) && s'.receipts == s.receipts
  {
    GiftPosition(c, s, tree, u, t, P[(u, t)], x);
    var s', Q := After(c, s, OtherPallets(t, u, x)), P[(u, t) := P[(u, t)].(free := x)];
    forall v, e | (v, e) in Q ensures At(s', v, e, Q[(v, e)]) { assert At(s, v, e, P[(v, e)]); }
  }

  lemma DepositAll(c: Config, s: State, tree: Tree, P: Positions, u: Account, t: Token, x: nat)
    requires c.Valid() && Live(s, tree) && AllAt(s, P) && (u, t) in P && (DEX, u) !in s.receipts
    requires 0 < x <= P[(u, t)].free && P[(u, t)].reserved + x <= 1000 && P[(u, t)].stash + x <= 1000
    ensures var s', p := After(c, s, AuthorizeTo(u, DEX, t, x)), P[(u, t)];
            && Live(s', tree) && AllAt(s', P[(u, t) := Position(p.free - x, p.reserved + x, p.stash + x, p.auth)])
            && Has(s', u, Authorize(t, x, s.now)) && s'.receipts.Keys == s.receipts.Keys + {(DEX, u)}
            && forall v, r :: v != u && Has(s, v, r) ==> Has(s', v, r)
  {
    hide At;
    var p := P[(u, t)];
    Deposits(c, s, tree, u, t, p, x);
    var s', Q := After(c, s, AuthorizeTo(u, DEX, t, x)), P[(u, t) := Position(p.free - x, p.reserved + x, p.stash + x, p.auth)];
    forall v, e | (v, e) in Q ensures At(s', v, e, Q[(v, e)]) {
      if (v, e) != (u, t) {
        DepositSpares(c, s, u, t, x, v, e, P[(v, e)]);
      }
    }
    forall v, r | v != u && Has(s, v, r) ensures Has(s', v, r) { DepositKeepsReceipts(c, s, u, t, x, v, r); }
  }

  lemma DepositKeepsReceipts(c: Config, s: State, u: Account, t: Token, x: nat, v: Account, r: Receipt)
    requires c.Valid() && v != u && Has(s, v, r)
    ensures Has(After(c, s, AuthorizeTo(u, DEX, t, x)), v, r)
  {
    hide Reserve;
  }

  lemma ArrivalAll(c: Config, s: State, tree: Tree, P: Positions, u: Account, t: Token, x: nat, at: nat)
    requires c.Valid() && Live(s, tree) && AllAt(s, P) && (u, t) in P && Has(s, u, Authorize(t, x, at))
    requires Look(tree, AccountKey(t, u)) == Pair(0, 0) && P[(u, t)].auth + x <= 1000
    ensures var s', p := After(c, s, Verify(DEX, [Arriving(u, t, x)], {QUOTE})), P[(u, t)];
            && Live(s', tree[AccountKey(t, u) := Pair(x, 0)])
            && AllAt(s', P[(u, t) := Position(p.free, p.reserved, 0, p.auth + x)])
            && s'.receipts == s.receipts - {(DEX, u)}
  {
    var p := P[(u, t)];
    ArrivalVerifies(c, s, tree, u, t, x, at, p);
    OneProof(c, s, tree, Arriving(u, t, x), {QUOTE});
    hide At, VerifyOne, After, Look, Live;
    var s', Q := After(c, s, Verify(DEX, [Arriving(u, t, x)], {QUOTE})), P[(u, t) := Position(p.free, p.reserved, 0, p.auth + x)];
    forall v, e | (v, e) in Q ensures At(s', v, e, Q[(v, e)]) {
      if (v, e) != (u, t) {
        SparedArrival(c, s, tree, u, t, x, v, e, P[(v, e)]);
      }
    }
  }

  lemma SparedArrival(c: Config, s: State, tree: Tree, u: Account, t: Token, x: nat, v: Account, e: Token, P: Position)
    requires c.Valid() && Live(s, tree) && At(s, v, e, P) && (u, t) != (v, e)
    requires VerifyOne(c, s, DEX, Arriving(u, t, x), {QUOTE}).Ok?
    ensures At(VerifyOne(c, s, DEX, Arriving(u, t, x), {QUOTE}).value, v, e, P)
  {
    hide VerifyOne, At;
    ArrivalSpares(c, s, u, t, x, v, e, P);
  }

  /** A bid for five at ten that nobody meets yet. */
  predicate IsRestingBid(l: seq<Leaf>) {
    && |l| == 5
    && l[0] == Leaf(BookKey(BASE, QUOTE), Pair(0, 0), Pair(0, 5))
    && l[1] == Leaf(AccountKey(BASE, BUYER), Pair(0, 0), Pair(0, 0))
    && l[2] == Leaf(AccountKey(QUOTE, BUYER), Pair(50, 0), Pair(0, 50))
    && l[3] == Leaf(BestPriceKey(BASE, QUOTE), Pair(0, 0), Pair(0, 10))
    && l[4] == Leaf(PageKey(BASE, QUOTE, 10), Pair(0, 0), Pair(0, 5))
  }

  function Resting(l: seq<Leaf>): Proof {
    Proof(3, BUYER, BidLimit(10, 5, 200_000, 100_000, BASE, QUOTE), l, 1, 0)
  }

  function Meeting(l: seq<Leaf>): Proof {
    Proof(4, SELLER, AskLimit(10, 5, 200_000, 100_000, BASE, QUOTE), l, 1, 2)
  }

  lemma RestingIsAccepted(o: Order, r: Reserves, l: seq<Leaf>)
    requires o == Order(10, 5, 200_000, 100_000, BASE, QUOTE, 0, 1) && IsLedger(r) && IsRestingBid(l)
    ensures BidAccepted(o, DEX, r, l) && |BidClearing(o, l).users| == 1
    ensures BidClearing(o, l).baseFee == 0 && BidClearing(o, l).quoteFee == 0
  {
    hide Depth, Get;
    assert MakerChange(l, 0, 1) == 0 && MakerChange(l, 0, 2) == 0;
  }

  lemma BidRests(c: Config, s: State, tree: Tree, l: seq<Leaf>)
    requires IsConf(c) && Live(s, tree) && IsLedger(s.reserves) && IsRestingBid(l) && Proves(tree, l)
    ensures c.Valid()
    ensures VerifyOne(c, s, DEX, Resting(l), {QUOTE})
            == Ok(s.SetDominator(DEX, s.dominators[DEX].(tree := Updated(tree, l), sequence := (3, s.now))))
  {
    hide BidAccepted, BidClearing, Proves, Updated, IsLedger, Order.Shapes;
    RestingIsAccepted(OrderOf(Resting(l).cmd, Resting(l)), s.reserves, l);
  }

  /** What the four accounts of the trade hold in reserve. */
  predicate Small(s: State, n: nat) {
    && s.BalanceOf(BASE, BUYER).reserved <= n && s.BalanceOf(QUOTE, BUYER).reserved <= n
    && s.BalanceOf(BASE, SELLER).reserved <= n && s.BalanceOf(QUOTE, SELLER).reserved <= n
  }

  lemma SmallClears(s: State, u: Account, t: Token, x: nat, n: nat)
    requires Small(s, n) && (u == BUYER || u == SELLER) && (t == BASE || t == QUOTE) && x <= 100 && n <= 1000
    ensures Clear(s, u, DEX, t, x).Ok? && Small(Clear(s, u, DEX, t, x).value, n + 100)
  {
  }

  lemma {:induction false} SmallClearing(s: State, users: seq<Mutation>, n: nat)
    requires Small(s, n) && n + 200 * |users| <= 1000
    requires forall i :: 0 <= i < |users| ==>
               (users[i].who == BUYER || users[i].who == SELLER) && users[i].baseValue <= 100 && users[i].quoteValue <= 100
    ensures ClearUsers(s, DEX, BASE, QUOTE, users).Ok?
    ensures Small(ClearUsers(s, DEX, BASE, QUOTE, users).value, n + 200 * |users|)
  {
    hide Clear, Small;
    if users != [] {
      var m := |users| - 1;
      SmallClearing(s, users[..m], n);
      var s1 := ClearUsers(s, DEX, BASE, QUOTE, users[..m]).value;
      SmallClears(s1, users[m].who, BASE, users[m].baseValue, n + 200 * m);
      SmallClears(Clear(s1, users[m].who, DEX, BASE, users[m].baseValue).value, users[m].who, QUOTE, users[m].quoteValue, n + 200 * m + 100);
    }
  }

  lemma AskUsers(o: Order, l: seq<Leaf>)
    requires IsOrder(o) && IsAsk(l)
    ensures o.Shapes(l)
    ensures var users := AskClearing(o, l).users;
            && |users| == 2
            && users[0].who == BUYER && users[0].baseValue == 4 && users[0].quoteValue == 0
            && users[1].who == SELLER && users[1].baseValue == 0 && users[1].quoteValue == 45
  {
    assert MakerMutations(l, 0) == [];
  }

  /** The ask meets the resting bid: cleared, the quote fee goes to the season and the base fee to the exchange. */
  lemma AskSettles(c: Config, s: State, tree: Tree, l: seq<Leaf>)
    requires IsConf(c) && Live(s, tree) && IsLedger(s.reserves) && IsAsk(l) && Small(s, 100)
    requires s.BalanceOf(BASE, DEX).free == 0
    ensures c.Valid() && ApplyOrder(c, s, DEX, Meeting(l), {QUOTE}).Ok?
  {
    hide AskAccepted, AskClearing, IsLedger, IsAsk, Small, ClearUsers, Settle, State.BalanceOf;
    var p := Meeting(l);
    var o := OrderOf(p.cmd, p);
    assert IsOrder(o);
    AnAskIsAccepted(o, s.reserves, l);
    AskUsers(o, l);
    hide Order.Shapes;
    SmallClearing(s, OrderClearing(p).users, 100);
    SettledSmall(s, ClearUsers(s, DEX, BASE, QUOTE, OrderClearing(p).users).value, OrderClearing(p));
  }

  lemma SettledSmall(s: State, s1: State, cl: Clearing)
    requires s.bonuses == map[] && s.BalanceOf(BASE, DEX).free == 0 && cl.quoteFee == 5 && cl.baseFee == 1
    requires ClearUsers(s, DEX, BASE, QUOTE, cl.users) == Ok(s1)
    ensures forall season :: Settle(s, DEX, season, BASE, QUOTE, cl).Ok?
  {
    hide ClearUsers;
    ClearUsersFree(s, DEX, BASE, QUOTE, cl.users, DEX, BASE);
    forall season ensures Settle(s, DEX, season, BASE, QUOTE, cl).Ok? {
      var s2 := PutProfit(s1, DEX, season, QUOTE, 5);
      assert s2.Ok?;
    }
  }

  /** A user gets some of a token, deposits it, and the deposit arrives in the tree. */
  function Brought(ops: seq<Op>, u: Account, t: Token, x: nat): seq<Op> {
    ops + [OtherPallets(t, u, x)] + [AuthorizeTo(u, DEX, t, x)] + [Verify(DEX, [Arriving(u, t, x)], {QUOTE})]
  }

  function Depositing(): seq<Op> { Brought(Brought(Opening(), SELLER, BASE, 5), BUYER, QUOTE, 50) }

  function Nothing(): Position { Position(0, 0, 0, 0) }

  function Start(): Positions {
    map[(SELLER, BASE) := Nothing(), (SELLER, QUOTE) := Nothing(), (BUYER, BASE) := Nothing(), (BUYER, QUOTE) := Nothing(),
        (DEX, BASE) := Nothing()]
  }

  function Stocked(): Tree { map[AccountKey(BASE, SELLER) := Pair(5, 0)][AccountKey(QUOTE, BUYER) := Pair(50, 0)] }

  ghost predicate Funded(s: State) {
    && Live(s, Stocked())
    && AllAt(s, Start()[(SELLER, BASE) := Position(0, 5, 0, 5)][(BUYER, QUOTE) := Position(0, 50, 0, 50)])
  }

  lemma Brings(c: Config, ops: seq<Op>, tree: Tree, P: Positions, u: Account, t: Token, x: nat)
    requires c.Valid() && Live(Run(c, ops), tree) && AllAt(Run(c, ops), P) && Run(c, ops).receipts == map[]
    requires (u, t) in P && P[(u, t)] == Nothing() && Look(tree, AccountKey(t, u)) == Pair(0, 0) && 0 < x <= 100
    ensures var s := Run(c, Brought(ops, u, t, x));
            && Live(s, tree[AccountKey(t, u) := Pair(x, 0)]) && AllAt(s, P[(u, t) := Position(0, x, 0, x)])
            && s.receipts == map[]
  {
    hide Run, After, Live, AllAt, Has, Look;
    var a := ops + [OtherPallets(t, u, x)];
    var b := a + [AuthorizeTo(u, DEX, t, x)];
    var P1, P2 := P[(u, t) := Position(x, 0, 0, 0)], P[(u, t) := Position(0, x, x, 0)];
    RunMore(c, ops, OtherPallets(t, u, x));
    GiftAll(c, Run(c, ops), tree, P, u, t, x);
    RunMore(c, a, AuthorizeTo(u, DEX, t, x));
    DepositAll(c, Run(c, a), tree, P1, u, t, x);
    assert P1[(u, t) := Position(0, x, x, 0)] == P2;
    RunMore(c, b, Verify(DEX, [Arriving(u, t, x)], {QUOTE}));
    ArrivalAll(c, Run(c, b), tree, P2, u, t, x, Run(c, a).now);
    assert P2[(u, t) := Position(0, x, 0, x)] == P[(u, t) := Position(0, x, 0, x)];
    NoneLeft(Run(c, b).receipts, u);
  }

  lemma NoneLeft(receipts: map<(Account, Account), Receipt>, u: Account)
    requires receipts.Keys == {(DEX, u)}
    ensures receipts - {(DEX, u)} == map[]
  {
  }

  lemma BothDeposit(c: Config)
    requires IsConf(c)
    ensures c.Valid() && Funded(Run(c, Depositing()))
  {
    Opens(c);
    hide Run, Idle, Live, AllAt, Opening, Brought, Start, Look;
    StartKnows();
    IdleIsLive(Run(c, Opening()));
    BlankAll(Run(c, Opening()));
    Brings(c, Opening(), map[], Start(), SELLER, BASE, 5);
    var P := Start()[(SELLER, BASE) := Position(0, 5, 0, 5)];
    Brings(c, Brought(Opening(), SELLER, BASE, 5), map[AccountKey(BASE, SELLER) := Pair(5, 0)], P, BUYER, QUOTE, 50);
  }

  lemma StartKnows()
    ensures (SELLER, BASE) in Start() && Start()[(SELLER, BASE)] == Nothing()
    ensures (BUYER, QUOTE) in Start() && Start()[(BUYER, QUOTE)] == Nothing()
    ensures Look(map[], AccountKey(BASE, SELLER)) == Pair(0, 0)
    ensures Look(map[AccountKey(BASE, SELLER) := Pair(5, 0)], AccountKey(QUOTE, BUYER)) == Pair(0, 0)
  {
  }

  lemma BlankAll(s: State)
    requires Idle(s)
    ensures AllAt(s, Start())
  {
    forall u, t | (u, t) in Start() ensures At(s, u, t, Start()[(u, t)]) { Blank(s, u, t); }
  }

  // ---- the order itself ----

  function RestingLeaves(): seq<Leaf> {
    [Leaf(BookKey(BASE, QUOTE), Pair(0, 0), Pair(0, 5)),
     Leaf(AccountKey(BASE, BUYER), Pair(0, 0), Pair(0, 0)),
     Leaf(AccountKey(QUOTE, BUYER), Pair(50, 0), Pair(0, 50)),
     Leaf(BestPriceKey(BASE, QUOTE), Pair(0, 0), Pair(0, 10)),
     Leaf(PageKey(BASE, QUOTE, 10), Pair(0, 0), Pair(0, 5))]
  }

  function MeetingLeaves(): seq<Leaf> {
    [Leaf(BookKey(BASE, QUOTE), Pair(0, 5), Pair(0, 0)),
     Leaf(AccountKey(BASE, BUYER), Pair(0, 0), Pair(4, 0)),
     Leaf(AccountKey(QUOTE, BUYER), Pair(0, 50), Pair(0, 0)),
     Leaf(AccountKey(BASE, SELLER), Pair(5, 0), Pair(0, 0)),
     Leaf(AccountKey(QUOTE, SELLER), Pair(0, 0), Pair(45, 0)),
     Leaf(BestPriceKey(BASE, QUOTE), Pair(0, 10), Pair(0, 0)),
     Leaf(PageKey(BASE, QUOTE, 10), Pair(0, 5), Pair(0, 0))]
  }

  lemma LeavesFit()
    ensures IsRestingBid(RestingLeaves()) && Proves(Stocked(), RestingLeaves())
    ensures IsAsk(MeetingLeaves())
  {
  }

  lemma MeetingProves(tree: Tree)
    requires Look(tree, BookKey(BASE, QUOTE)) == Pair(0, 5) && Look(tree, AccountKey(BASE, BUYER)) == Pair(0, 0)
    requires Look(tree, AccountKey(QUOTE, BUYER)) == Pair(0, 50) && Look(tree, AccountKey(BASE, SELLER)) == Pair(5, 0)
    requires Look(tree, AccountKey(QUOTE, SELLER)) == Pair(0, 0) && Look(tree, BestPriceKey(BASE, QUOTE)) == Pair(0, 10)
    requires Look(tree, PageKey(BASE, QUOTE, 10)) == Pair(0, 5)
    ensures Proves(tree, MeetingLeaves())
  {
    hide Look;
  }

  lemma RestedTree(tree: Tree, l: seq<Leaf>)
    requires tree == Updated(Stocked(), l) && IsRestingBid(l)
    ensures Proves(tree, MeetingLeaves())
  {
    hide Updated;
    assert DistinctKeys(l);
    UpdatedAt(Stocked(), l, 0);
    UpdatedAt(Stocked(), l, 1);
    UpdatedAt(Stocked(), l, 2);
    UpdatedAt(Stocked(), l, 3);
    UpdatedAt(Stocked(), l, 4);
    UpdatedElsewhere(Stocked(), l, AccountKey(BASE, SELLER));
    UpdatedElsewhere(Stocked(), l, AccountKey(QUOTE, SELLER));
    MeetingProves(tree);
  }

  function Trading(): seq<Op> { Depositing() + [Verify(DEX, [Resting(RestingLeaves())], {QUOTE})] }

  lemma FundedLedger(s: State)
    requires Funded(s)
    ensures IsLedger(s.reserves) && Small(s, 100) && s.BalanceOf(BASE, DEX).free == 0
  {
    hide Live;
    var P := Start()[(SELLER, BASE) := Position(0, 5, 0, 5)][(BUYER, QUOTE) := Position(0, 50, 0, 50)];
    assert At(s, SELLER, BASE, P[(SELLER, BASE)]) && At(s, BUYER, QUOTE, P[(BUYER, QUOTE)]);
    assert At(s, SELLER, QUOTE, P[(SELLER, QUOTE)]) && At(s, BUYER, BASE, P[(BUYER, BASE)]);
    assert At(s, DEX, BASE, P[(DEX, BASE)]);
  }

  /** From genesis to a settled trade: in the state this run reaches, the ask with one maker is accepted
      against the committed tree and settled. */
  lemma ATradeSettles(c: Config)
    requires IsConf(c)
    ensures c.Valid()
    ensures var s, p := Run(c, Trading()), Meeting(MeetingLeaves());
            && DEX in s.dominators && s.dominators[DEX].status == Active
            && Proves(s.dominators[DEX].tree, p.leaves) && OrderOf(p.cmd, p).makers == 1
            && ApplyOrder(c, s, DEX, p, {QUOTE}).Ok? && Step(c, s, Verify(DEX, [p], {QUOTE})).Ok?
  {
    BothDeposit(c);
    var s, l := Run(c, Depositing()), RestingLeaves();
    FundedLedger(s);
    LeavesFit();
    BidRests(c, s, Stocked(), l);
    OneProof(c, s, Stocked(), Resting(l), {QUOTE});
    RunMore(c, Depositing(), Verify(DEX, [Resting(l)], {QUOTE}));
    hide Run, After, VerifyOne, ApplyOrder, Proves, Updated, AllAt, IsLedger, Small, RestingLeaves, MeetingLeaves, Stocked, Depositing;
    var s', tree := Run(c, Trading()), Updated(Stocked(), l);
    RestedTree(tree, l);
    SmallFrame(s, s');
    AskSettles(c, s', tree, MeetingLeaves());
    AskGoesThrough(c, s', tree, Meeting(MeetingLeaves()));
  }

  lemma SmallFrame(s: State, s': State)
    requires s'.balances == s.balances && Small(s, 100) && s.BalanceOf(BASE, DEX).free == 0
    ensures Small(s', 100) && s'.BalanceOf(BASE, DEX).free == 0
  {
  }

  lemma AskGoesThrough(c: Config, s: State, tree: Tree, p: Proof)
    requires c.Valid() && Live(s, tree) && Proves(tree, p.leaves) && p.cmd.AskLimit? && ApplyOrder(c, s, DEX, p, {QUOTE}).Ok?
    ensures Step(c, s, Verify(DEX, [p], {QUOTE})).Ok?
  {
    hide ApplyOrder, Proves, Updated;
    assert VerifyOne(c, s, DEX, p, {QUOTE}).Ok?;
    hide VerifyOne;
    assert [p][..0] == [];
    assert VerifyAll(c, s, DEX, [], {QUOTE}) == Ok(s);
  }
}
