/** The on-chain ledger follows the off-chain tree: how far the Authorized entry of a user can be
    from the total in that user's leaf, over whole runs. */
module Agreement {
  import opened FixedPoint
  import opened MapSums
  import opened VerifierTypes
  import opened VerifierState
  import opened VerifierSteps
  import opened Orders
  import opened OrderBook
  import opened Entries
  import opened Receipts
  import opened Eviction

  function LeafTotal(s: State, d: Account, u: Account, t: Token): nat {
    Look(s.TreeOf(d), AccountKey(t, u)).Total()
  }

  /** Ledger minus tree. */
  function Gap(s: State, d: Account, u: Account, t: Token): int {
    Entry(s, AuthorizedKey(u, t, d)) - LeafTotal(s, d, u, t)
  }

  predicate Agrees(s: State, d: Account, u: Account, t: Token, bound: nat) {
    IsEvicted(s, d) || Abs(Gap(s, d, u, t)) <= bound
  }

  const LOOSE: nat := PRECISION_SLACK + 1

  predicate IsOrder(p: Proof) { p.cmd.AskLimit? || p.cmd.BidLimit? }

  /** Keys of the kinds each position calls for, where the checks do not look themselves. */
  predicate WellFormed(p: Proof) {
    && (IsOrder(p) && OrderOf(p.cmd, p).Shapes(p.leaves) ==> WellPlaced(OrderOf(p.cmd, p), p.leaves))
    && (p.cmd.Cancel? && |p.leaves| == 5 ==> !p.leaves[3].key.AccountKey?)
  }

  /** An order without makers leaves the taker's totals alone. */
  predicate Tidy(p: Proof) {
    IsOrder(p) && OrderOf(p.cmd, p).Shapes(p.leaves) && OrderOf(p.cmd, p).makers == 0 ==>
      OrderOf(p.cmd, p).TakerBase(p.leaves).Change() == 0 && OrderOf(p.cmd, p).TakerQuote(p.leaves).Change() == 0
  }

  // ---- the parties of an order ----

  /** Party `i`: a maker, or the taker when `i` is the number of makers. */
  lemma PartyAt(o: Order, d: Account, reserves: Reserves, leaves: seq<Leaf>, takerSells: bool, i: nat)
    requires o.Shapes(leaves) && PartiesOk(o, d, reserves, leaves, takerSells) && i <= o.makers
    ensures PartyOk(o, d, reserves, leaves[2 * i + 1], leaves[2 * i + 2])
  {
    if i < o.makers {
      assert MakerOk(o, d, reserves, leaves, takerSells, i);
    }
  }

  predicate UserMatches(o: Order, leaves: seq<Leaf>, users: seq<Mutation>, i: nat)
    requires o.Shapes(leaves) && i <= o.makers && i < |users|
  {
    && leaves[2 * i + 1].key == AccountKey(o.base, users[i].who)
    && leaves[2 * i + 2].key == AccountKey(o.quote, users[i].who)
    && users[i].baseValue == leaves[2 * i + 1].after.Total()
    && users[i].quoteValue == leaves[2 * i + 2].after.Total()
  }

  lemma {:induction false} MakerMutationAt(leaves: seq<Leaf>, n: nat, i: nat)
    requires 2 * n < |leaves| && i < n
    ensures |MakerMutations(leaves, n)| == n
    ensures var b, q := leaves[2 * i + 1], leaves[2 * i + 2];
            MakerMutations(leaves, n)[i] == MutationOf(b, q, Abs(q.Change()), Abs(b.Change()))
  {
    if i < n - 1 {
      MakerMutationAt(leaves, n - 1, i);
    } else if 0 < n - 1 {
      MakerMutationAt(leaves, n - 1, 0);
    }
  }

  lemma UserAt(o: Order, d: Account, reserves: Reserves, leaves: seq<Leaf>, takerSells: bool, users: seq<Mutation>, taker: Mutation, i: nat)
    requires o.Shapes(leaves) && PartiesOk(o, d, reserves, leaves, takerSells) && i <= o.makers
    requires users == MakerMutations(leaves, o.makers) + [taker]
    requires exists volume, amount :: taker == MutationOf(o.TakerBase(leaves), o.TakerQuote(leaves), volume, amount)
    ensures |users| == o.makers + 1
    ensures UserMatches(o, leaves, users, i)
  {
    PartyAt(o, d, reserves, leaves, takerSells, i);
    if i < o.makers {
      MakerMutationAt(leaves, o.makers, i);
    } else if 0 < o.makers {
      MakerMutationAt(leaves, o.makers, 0);
    }
  }

  // ---- clearing ----

  predicate DistinctUsers(users: seq<Mutation>) {
    forall i, j :: 0 <= i < j < |users| ==> users[i].who != users[j].who
  }

  /** After clearing, the dominator holds for every listed user exactly the listed values. */
  lemma {:induction false} ClearUsersSets(s: State, d: Account, base: Token, quote: Token, users: seq<Mutation>, i: nat)
    requires base != quote && DistinctUsers(users) && i < |users|
    requires ClearUsers(s, d, base, quote, users).Ok?
    ensures Entry(ClearUsers(s, d, base, quote, users).value, AuthorizedKey(users[i].who, base, d)) == users[i].baseValue
    ensures Entry(ClearUsers(s, d, base, quote, users).value, AuthorizedKey(users[i].who, quote, d)) == users[i].quoteValue
  {
    hide Clear;
    var n := |users| - 1;
    var b, q := AuthorizedKey(users[i].who, base, d), AuthorizedKey(users[i].who, quote, d);
    var s1 := ClearUsers(s, d, base, quote, users[..n]).value;
    var s2 := Clear(s1, users[n].who, d, base, users[n].baseValue).value;
    if i < n {
      ClearUsersSets(s, d, base, quote, users[..n], i);
    }
    ClearEntry(s1, users[n].who, d, base, users[n].baseValue, b);
    ClearEntry(s1, users[n].who, d, base, users[n].baseValue, q);
    ClearEntry(s2, users[n].who, d, quote, users[n].quoteValue, b);
    ClearEntry(s2, users[n].who, d, quote, users[n].quoteValue, q);
  }

  // ---- orders ----

  /** Everything later steps need to know about an accepted order, on either side. */
  predicate Accepted(o: Order, d: Account, reserves: Reserves, leaves: seq<Leaf>, takerSells: bool, users: seq<Mutation>) {
    && o.Shapes(leaves) && WellPlaced(o, leaves) && DistinctKeys(leaves)
    && PartiesOk(o, d, reserves, leaves, takerSells)
    && |users| == o.makers + 1
    && forall i :: 0 <= i <= o.makers ==> UserMatches(o, leaves, users, i)
  }

  lemma OrderIsAccepted(c: Config, s: State, d: Account, p: Proof, stable: set<Token>)
    requires c.Valid() && d in s.dominators && IsOrder(p) && WellFormed(p)
    requires DistinctKeys(p.leaves) && ApplyOrder(c, s, d, p, stable).Ok?
    ensures OrderOf(p.cmd, p).Shapes(p.leaves)
    ensures Accepted(OrderOf(p.cmd, p), d, s.reserves, p.leaves, p.cmd.AskLimit?, OrderClearing(p).users)
  {
    hide Settle, PartiesOk, Balanced, AskMovesBook, AskMovesPages, BidMovesBook, BidMovesPages, UserMatches, WellPlaced;
    var o, users := OrderOf(p.cmd, p), OrderClearing(p).users;
    var taker := users[|users| - 1];
    assert users == MakerMutations(p.leaves, o.makers) + [taker];
    assert taker == MutationOf(o.TakerBase(p.leaves), o.TakerQuote(p.leaves), taker.volume, taker.amount);
    UserAt(o, d, s.reserves, p.leaves, p.cmd.AskLimit?, users, taker, 0);
    forall i | 0 <= i <= o.makers ensures UserMatches(o, p.leaves, users, i) {
      UserAt(o, d, s.reserves, p.leaves, p.cmd.AskLimit?, users, taker, i);
    }
  }

  lemma AcceptedUsers(o: Order, d: Account, reserves: Reserves, leaves: seq<Leaf>, takerSells: bool, users: seq<Mutation>)
    requires Accepted(o, d, reserves, leaves, takerSells, users)
    ensures o.base != o.quote && DistinctUsers(users)
  {
    hide PartiesOk, WellPlaced;
    assert UserMatches(o, leaves, users, 0);
    assert leaves[1].key != leaves[2].key;
    forall i, j | 0 <= i < j < |users| ensures users[i].who != users[j].who {
      assert UserMatches(o, leaves, users, i) && UserMatches(o, leaves, users, j);
      assert leaves[2 * i + 1].key != leaves[2 * j + 1].key;
    }
  }

  predicate IsParty(o: Order, users: seq<Mutation>, u: Account, t: Token) {
    (t == o.base || t == o.quote) && exists i :: 0 <= i < |users| && users[i].who == u
  }

  /** A balance that no party owns is not among the leaves. */
  lemma NotALeaf(o: Order, d: Account, reserves: Reserves, leaves: seq<Leaf>, takerSells: bool, users: seq<Mutation>, u: Account, t: Token, k: nat)
    requires Accepted(o, d, reserves, leaves, takerSells, users) && !IsParty(o, users, u, t) && k < |leaves|
    ensures leaves[k].key != AccountKey(t, u)
  {
    hide PartiesOk;
    if 0 < k < 2 * o.makers + 3 {
      var i := (k - 1) / 2;
      assert UserMatches(o, leaves, users, i);
      assert k == 2 * i + 1 || k == 2 * i + 2;
    }
  }

  lemma OutsiderTree(o: Order, d: Account, reserves: Reserves, leaves: seq<Leaf>, takerSells: bool, users: seq<Mutation>, tree: Tree, u: Account, t: Token)
    requires Accepted(o, d, reserves, leaves, takerSells, users) && !IsParty(o, users, u, t)
    ensures Look(Updated(tree, leaves), AccountKey(t, u)) == Look(tree, AccountKey(t, u))
  {
    hide Accepted, Updated, Look, IsParty;
    forall k | 0 <= k < |leaves| ensures leaves[k].key != AccountKey(t, u) {
      NotALeaf(o, d, reserves, leaves, takerSells, users, u, t, k);
    }
    UpdatedElsewhere(tree, leaves, AccountKey(t, u));
  }

  /** Parties of a cleared order: ledger and tree end up equal. */
  lemma OrderParty(s: State, d: Account, o: Order, leaves: seq<Leaf>, takerSells: bool, users: seq<Mutation>, tree: Tree, U: Account, T: Token)
    requires Accepted(o, d, s.reserves, leaves, takerSells, users)
    requires ClearUsers(s, d, o.base, o.quote, users).Ok?
    requires IsParty(o, users, U, T)
    ensures Entry(ClearUsers(s, d, o.base, o.quote, users).value, AuthorizedKey(U, T, d))
            == Look(Updated(tree, leaves), AccountKey(T, U)).Total()
  {
    hide ClearUsers, Updated, Look, PartiesOk, WellPlaced;
    AcceptedUsers(o, d, s.reserves, leaves, takerSells, users);
    var i :| 0 <= i < |users| && users[i].who == U;
    assert UserMatches(o, leaves, users, i);
    ClearUsersSets(s, d, o.base, o.quote, users, i);
    UpdatedAt(tree, leaves, 2 * i + 1);
    UpdatedAt(tree, leaves, 2 * i + 2);
  }

  /** Without makers nothing is cleared, and the taker's totals move by at most one unit from a
      ledger that was just found close. */
  lemma MakerlessParty(c: Config, s: State, d: Account, p: Proof, stable: set<Token>, users: seq<Mutation>, U: Account, T: Token)
    requires c.Valid() && d in s.dominators && IsOrder(p) && OrderOf(p.cmd, p).makers == 0
    requires ApplyOrder(c, s, d, p, stable).Ok?
    requires Accepted(OrderOf(p.cmd, p), d, s.reserves, p.leaves, p.cmd.AskLimit?, users)
    requires IsParty(OrderOf(p.cmd, p), users, U, T)
    ensures Abs(Entry(s, AuthorizedKey(U, T, d)) - Look(Updated(s.dominators[d].tree, p.leaves), AccountKey(T, U)).Total()) <= LOOSE
  {
    hide Settle, AskMovesBook, AskMovesPages, BidMovesBook, BidMovesPages, Updated, Look, WellPlaced;
    var o, tree := OrderOf(p.cmd, p), s.dominators[d].tree;
    assert UserMatches(o, p.leaves, users, 0);
    if p.cmd.AskLimit? {
      MakerlessAsk(o, d, s.reserves, p.leaves);
    } else {
      MakerlessBid(o, d, s.reserves, p.leaves);
    }
    UpdatedAt(tree, p.leaves, 1);
    UpdatedAt(tree, p.leaves, 2);
  }

  /** How the taker's total of a token moves. */
  function TakerChange(o: Order, leaves: seq<Leaf>, t: Token): int
    requires o.Shapes(leaves)
  {
    if t == o.base then o.TakerBase(leaves).Change() else o.TakerQuote(leaves).Change()
  }

  lemma MakerlessTree(o: Order, d: Account, reserves: Reserves, leaves: seq<Leaf>, takerSells: bool, users: seq<Mutation>, tree: Tree, U: Account, T: Token)
    requires Accepted(o, d, reserves, leaves, takerSells, users) && Proves(tree, leaves)
    requires o.makers == 0 && IsParty(o, users, U, T)
    ensures Look(Updated(tree, leaves), AccountKey(T, U)).Total()
            == Look(tree, AccountKey(T, U)).Total() + TakerChange(o, leaves, T)
  {
    hide Updated, Look, PartiesOk, WellPlaced;
    assert UserMatches(o, leaves, users, 0);
    UpdatedAt(tree, leaves, 1);
    UpdatedAt(tree, leaves, 2);
    assert Look(tree, leaves[1].key) == leaves[1].before && Look(tree, leaves[2].key) == leaves[2].before;
  }

  /** What an order leaves under the Authorized id: cleared values if it has makers, else no change. */
  lemma OrderSettles(c: Config, s: State, d: Account, p: Proof, stable: set<Token>, j: ReserveKey)
    requires c.Valid() && d in s.dominators && IsOrder(p) && OrderOf(p.cmd, p).Shapes(p.leaves)
    requires ApplyOrder(c, s, d, p, stable).Ok?
    ensures |OrderClearing(p).users| > 1 ==>
              && ClearUsers(s, d, p.cmd.base, p.cmd.quote, OrderClearing(p).users).Ok?
              && Entry(ApplyOrder(c, s, d, p, stable).value, j)
                 == Entry(ClearUsers(s, d, p.cmd.base, p.cmd.quote, OrderClearing(p).users).value, j)
    ensures |OrderClearing(p).users| <= 1 ==> Entry(ApplyOrder(c, s, d, p, stable).value, j) == Entry(s, j)
  {
    hide Settle, ClearUsers, OrderAccepted, AskClearing, BidClearing;
    SettleEntry(s, d, CurrentSeason(c, s.now, s.dominators[d].startFrom), p.cmd.base, p.cmd.quote, OrderClearing(p), j);
  }

  /** Ledger minus tree once an order went through and the new root is in place. */
  function GapAfter(c: Config, s: State, d: Account, p: Proof, stable: set<Token>, D: Account, U: Account, T: Token): int
    requires c.Valid() && d in s.dominators && IsOrder(p) && ApplyOrder(c, s, d, p, stable).Ok?
  {
    var tree := if D == d then Updated(s.dominators[d].tree, p.leaves) else s.TreeOf(D);
    Entry(ApplyOrder(c, s, d, p, stable).value, AuthorizedKey(U, T, D)) - Look(tree, AccountKey(T, U)).Total()
  }

  predicate Concerns(p: Proof, d: Account, D: Account, U: Account, T: Token)
    requires IsOrder(p) && OrderOf(p.cmd, p).Shapes(p.leaves)
  {
    D == d && IsParty(OrderOf(p.cmd, p), OrderClearing(p).users, U, T)
  }

  /** The gap after an order, exactly: unchanged for everybody the order does not concern, zero for the
      parties of an order with makers, and shifted by the taker's own change otherwise. */
  lemma OrderGap(c: Config, s: State, d: Account, p: Proof, stable: set<Token>, D: Account, U: Account, T: Token)
    requires c.Valid() && d in s.dominators && IsOrder(p) && WellFormed(p)
    requires Proves(s.dominators[d].tree, p.leaves) && ApplyOrder(c, s, d, p, stable).Ok?
    ensures OrderOf(p.cmd, p).Shapes(p.leaves)
    ensures GapAfter(c, s, d, p, stable, D, U, T)
            == if !Concerns(p, d, D, U, T) then Gap(s, D, U, T)
               else if OrderOf(p.cmd, p).makers > 0 then 0
               else Gap(s, D, U, T) - TakerChange(OrderOf(p.cmd, p), p.leaves, T)
  {
    hide ApplyOrder, ClearUsers, Accepted, Updated, Look, Proves, WellFormed, OrderClearing, IsParty;
    assert DistinctKeys(p.leaves) by { ProvesDistinct(s.dominators[d].tree, p.leaves); }
    OrderIsAccepted(c, s, d, p, stable);
    var o, users, j, tree := OrderOf(p.cmd, p), OrderClearing(p).users, AuthorizedKey(U, T, D), s.dominators[d].tree;
    UsersOf(o, d, s.reserves, p.leaves, p.cmd.AskLimit?, users);
    OrderSettles(c, s, d, p, stable, j);
    if Concerns(p, d, D, U, T) {
      if o.makers > 0 {
        OrderParty(s, d, o, p.leaves, p.cmd.AskLimit?, users, tree, U, T);
      } else {
        MakerlessTree(o, d, s.reserves, p.leaves, p.cmd.AskLimit?, users, tree, U, T);
      }
    } else {
      if o.makers > 0 {
        OutsiderEntry(s, d, o, users, D, U, T);
      }
      if D == d {
        OutsiderTree(o, d, s.reserves, p.leaves, p.cmd.AskLimit?, users, tree, U, T);
      }
    }
  }

  /** So a bound on the gap survives: any bound if orders without makers leave the totals alone, and
      otherwise the allowed slack plus one. */
  lemma OrderWithin(c: Config, s: State, d: Account, p: Proof, stable: set<Token>, D: Account, U: Account, T: Token, bound: nat)
    requires c.Valid() && d in s.dominators && IsOrder(p) && WellFormed(p)
    requires Proves(s.dominators[d].tree, p.leaves) && ApplyOrder(c, s, d, p, stable).Ok?
    requires bound == LOOSE || Tidy(p)
    requires Abs(Gap(s, D, U, T)) <= bound
    ensures Abs(GapAfter(c, s, d, p, stable, D, U, T)) <= bound
  {
    hide ApplyOrder, Proves, WellFormed, OrderClearing, Gap, GapAfter, IsParty;
    OrderGap(c, s, d, p, stable, D, U, T);
    if Concerns(p, d, D, U, T) && OrderOf(p.cmd, p).makers == 0 && bound == LOOSE {
      MakerlessWithin(c, s, d, p, stable, U, T);
    }
  }

  lemma MakerlessWithin(c: Config, s: State, d: Account, p: Proof, stable: set<Token>, U: Account, T: Token)
    requires c.Valid() && d in s.dominators && IsOrder(p) && WellFormed(p) && OrderOf(p.cmd, p).makers == 0
    requires Proves(s.dominators[d].tree, p.leaves) && ApplyOrder(c, s, d, p, stable).Ok?
    requires OrderOf(p.cmd, p).Shapes(p.leaves) && Concerns(p, d, d, U, T)
    ensures Abs(GapAfter(c, s, d, p, stable, d, U, T)) <= LOOSE
  {
    hide ApplyOrder, Accepted, Updated, Look, Proves, WellFormed, OrderClearing, IsParty, Entry, AuthorizedKey;
    var users := OrderClearing(p).users;
    ProvesDistinct(s.dominators[d].tree, p.leaves);
    OrderIsAccepted(c, s, d, p, stable);
    UsersOf(OrderOf(p.cmd, p), d, s.reserves, p.leaves, p.cmd.AskLimit?, users);
    MakerlessParty(c, s, d, p, stable, users, U, T);
    OrderSettles(c, s, d, p, stable, AuthorizedKey(U, T, d));
  }

  lemma OutsiderEntry(s: State, d: Account, o: Order, users: seq<Mutation>, D: Account, U: Account, T: Token)
    requires ClearUsers(s, d, o.base, o.quote, users).Ok?
    requires D != d || !IsParty(o, users, U, T)
    ensures Entry(ClearUsers(s, d, o.base, o.quote, users).value, AuthorizedKey(U, T, D)) == Entry(s, AuthorizedKey(U, T, D))
  {
    hide ClearUsers;
    ClearUsersEntry(s, d, o.base, o.quote, users, AuthorizedKey(U, T, D));
  }

  lemma ProvesDistinct(tree: Tree, leaves: seq<Leaf>)
    requires Proves(tree, leaves)
    ensures DistinctKeys(leaves)
  {
  }

  lemma UsersOf(o: Order, d: Account, reserves: Reserves, leaves: seq<Leaf>, takerSells: bool, users: seq<Mutation>)
    requires Accepted(o, d, reserves, leaves, takerSells, users)
    ensures o.Shapes(leaves) && |users| == o.makers + 1
  {
  }

  // ---- other commands ----

  lemma TransferTree(p: Proof, tree: Tree, U: Account, T: Token)
    requires Proves(tree, p.leaves)
    requires (p.cmd.TransferIn? && TransferInAccepted(p.cmd, p.user, p.leaves))
             || (p.cmd.TransferOut? && TransferOutAccepted(p.cmd, p.user, p.leaves))
    ensures Look(Updated(tree, p.leaves), AccountKey(T, U)).Total() - Look(tree, AccountKey(T, U)).Total()
            == if U != p.user || T != p.cmd.token then 0 else if p.cmd.TransferIn? then p.cmd.amount else 0 - p.cmd.amount
  {
    hide Look, Updated;
    assert Look(tree, p.leaves[0].key) == p.leaves[0].before;
    if U == p.user && T == p.cmd.token {
      UpdatedAt(tree, p.leaves, 0);
    } else {
      UpdatedElsewhere(tree, p.leaves, AccountKey(T, U));
    }
  }

  lemma CancelTree(p: Proof, tree: Tree, U: Account, T: Token)
    requires p.cmd.Cancel? && WellFormed(p) && Proves(tree, p.leaves) && CancelAccepted(p.cmd, p.user, p.leaves)
    ensures Look(Updated(tree, p.leaves), AccountKey(T, U)).Total() == Look(tree, AccountKey(T, U)).Total()
  {
    hide Look, Updated, NoCommonBit;
    if i :| 0 <= i < 5 && p.leaves[i].key == AccountKey(T, U) {
      assert i == 1 || i == 2;
      UpdatedAt(tree, p.leaves, i);
      assert Look(tree, p.leaves[i].key) == p.leaves[i].before;
    } else {
      UpdatedElsewhere(tree, p.leaves, AccountKey(T, U));
    }
  }

  lemma CommandGap(c: Config, s: State, d: Account, p: Proof, D: Account, U: Account, T: Token)
    requires d in s.dominators && !IsOrder(p) && WellFormed(p)
    requires Proves(s.dominators[d].tree, p.leaves) && ApplyCommand(c, s, d, p).Ok?
    ensures var tree := if D == d && Advances(p.cmd) then Updated(s.dominators[d].tree, p.leaves) else s.TreeOf(D);
            Entry(ApplyCommand(c, s, d, p).value, AuthorizedKey(U, T, D)) - Look(tree, AccountKey(T, U)).Total() == Gap(s, D, U, T)
  {
    hide ApplyCommand, CancelAccepted, TransferInAccepted, TransferOutAccepted, Look, Updated, Proves, WellFormed, Entry;
    CommandEntry(c, s, d, p, AuthorizedKey(U, T, D));
    CommandChecks(c, s, d, p);
    if D == d {
      if p.cmd.Cancel? {
        CancelTree(p, s.dominators[d].tree, U, T);
      } else if p.cmd.TransferIn? || p.cmd.TransferOut? {
        TransferTree(p, s.dominators[d].tree, U, T);
      }
    }
  }

  lemma CommandChecks(c: Config, s: State, d: Account, p: Proof)
    requires !IsOrder(p) && ApplyCommand(c, s, d, p).Ok?
    ensures p.cmd.Cancel? ==> CancelAccepted(p.cmd, p.user, p.leaves)
    ensures p.cmd.TransferIn? ==> TransferInAccepted(p.cmd, p.user, p.leaves)
    ensures p.cmd.TransferOut? ==> TransferOutAccepted(p.cmd, p.user, p.leaves)
  {
    hide CancelAccepted, TransferInAccepted, TransferOutAccepted, ApplyTransferIn, ApplyTransferOut;
  }

  // ---- runs ----

  lemma VerifyOneAgrees(c: Config, s: State, d: Account, p: Proof, stable: set<Token>, D: Account, U: Account, T: Token, bound: nat)
    requires c.Valid() && d in s.dominators && s.dominators[d].status != Evicted
    requires VerifyOne(c, s, d, p, stable).Ok? && WellFormed(p)
    requires bound == LOOSE || Tidy(p)
    requires Agrees(s, D, U, T, bound)
    ensures Agrees(VerifyOne(c, s, d, p, stable).value, D, U, T, bound)
  {
    hide VerifyOne, ApplyOrder, ApplyCommand, Look, Updated, Proves, WellFormed, Tidy;
    VerifyOneDominator(c, s, d, p, stable, D);
    if !IsEvicted(s, D) {
      VerifyOneShape(c, s, d, p, stable, D);
      if IsOrder(p) {
        OrderWithin(c, s, d, p, stable, D, U, T, bound);
      } else {
        CommandGap(c, s, d, p, D, U, T);
      }
    }
  }

  /** The pieces of an accepted proof. */
  lemma VerifyOneShape(c: Config, s: State, d: Account, p: Proof, stable: set<Token>, D: Account)
    requires c.Valid() && d in s.dominators && VerifyOne(c, s, d, p, stable).Ok?
    ensures Proves(s.dominators[d].tree, p.leaves)
    ensures IsOrder(p) ==> ApplyOrder(c, s, d, p, stable).Ok?
                           && VerifyOne(c, s, d, p, stable).value.reserves == ApplyOrder(c, s, d, p, stable).value.reserves
    ensures !IsOrder(p) ==> ApplyCommand(c, s, d, p).Ok?
                            && VerifyOne(c, s, d, p, stable).value.reserves == ApplyCommand(c, s, d, p).value.reserves
    ensures VerifyOne(c, s, d, p, stable).value.TreeOf(D)
            == if D == d && Advances(p.cmd) then Updated(s.dominators[d].tree, p.leaves) else s.TreeOf(D)
  {
    hide ApplyOrder, ApplyCommand, Updated, Proves;
  }

  lemma {:induction false} VerifyAllAgrees(c: Config, s: State, d: Account, proofs: seq<Proof>, stable: set<Token>, D: Account, U: Account, T: Token, bound: nat)
    requires c.Valid() && d in s.dominators && s.dominators[d].status != Evicted
    requires forall i :: 0 <= i < |proofs| ==> WellFormed(proofs[i]) && (bound == LOOSE || Tidy(proofs[i]))
    requires VerifyAll(c, s, d, proofs, stable).Ok? && Agrees(s, D, U, T, bound)
    ensures Agrees(VerifyAll(c, s, d, proofs, stable).value, D, U, T, bound)
  {
    hide VerifyOne, Agrees, WellFormed, Tidy;
    if proofs != [] {
      var n := |proofs| - 1;
      VerifyAllAgrees(c, s, d, proofs[..n], stable, D, U, T, bound);
      var s1 := VerifyAll(c, s, d, proofs[..n], stable).value;
      VerifyAllDominator(c, s, d, proofs[..n], stable, d);
      VerifyOneAgrees(c, s1, d, proofs[n], stable, D, U, T, bound);
    }
  }

  /** Calls other than `verify` move neither ledger nor tree of a live dominator. */
  lemma StepKeepsGap(c: Config, s: State, op: Op, D: Account, U: Account, T: Token)
    requires c.Valid() && Step(c, s, op).Ok? && !op.Verify? && !IsEvicted(s, D)
    ensures Gap(Step(c, s, op).value, D, U, T) == Gap(s, D, U, T)
  {
    hide DoStake, DoUnstake, DoClaim, DoRevoke, DoAuthorize, Reserve, ReleaseAll, Look;
    StepDominator(c, s, op, D);
    var j := AuthorizedKey(U, T, D);
    if op.Stake? {
      StakeEntry(c, s, op.u, op.d, op.x, j);
    } else if op.Unstake? {
      UnstakeEntry(c, s, op.u, op.d, op.x, j);
    } else if op.ClaimShares? {
      ClaimEntry(c, s, op.u, op.d, j);
    } else if op.AuthorizeTo? {
      AuthorizeEntry(s, op.u, op.d, op.t, op.x, j);
    } else if op.RevokeFrom? {
      RevokeReceipts(c, s, op.u, op.d, op.t, op.x, op.callback);
      if s.dominators[op.d].status == Evicted {
        EvictedRevokeEntry(c, s, op.u, op.d, op.t, op.x, op.callback, j);
      } else {
        PlainRevokeEntry(c, s, op.u, op.d, op.t, op.x, op.callback, j);
      }
    } else if op.NextBlock? {
      ReleaseAllEntry(c, Snapshots(c, s.(now := s.now + 1)), op.order, j);
    }
  }

  predicate Sound(op: Op, bound: nat) {
    op.Verify? ==> forall i :: 0 <= i < |op.proofs| ==> WellFormed(op.proofs[i]) && (bound == LOOSE || Tidy(op.proofs[i]))
  }

  lemma StepAgrees(c: Config, s: State, op: Op, D: Account, U: Account, T: Token, bound: nat)
    requires c.Valid() && Step(c, s, op).Ok? && Sound(op, bound) && Agrees(s, D, U, T, bound)
    ensures Agrees(Step(c, s, op).value, D, U, T, bound)
  {
    StepDominator(c, s, op, D);
    if op.Verify? {
      VerifySteps(c, s, op);
      hide Step, VerifyAll, Gap;
      VerifyAllAgrees(c, s, op.d, op.proofs, op.stable, D, U, T, bound);
    } else if !IsEvicted(s, D) {
      StepKeepsGap(c, s, op, D, U, T);
    }
  }

  lemma GenesisAgrees(d: Account, u: Account, t: Token, bound: nat)
    ensures Agrees(INITIAL, d, u, t, bound)
  {
    hide Look;
    AbsentIsZero(INITIAL.TreeOf(d), AccountKey(t, u));
  }

  lemma AbsentIsZero(tree: Tree, k: Key)
    requires k !in tree
    ensures Look(tree, k).Total() == 0
  {
  }

  lemma {:induction false} RunsAgreeWithin(c: Config, ops: seq<Op>, d: Account, u: Account, t: Token, bound: nat)
    requires c.Valid()
    requires forall i :: 0 <= i < |ops| ==> Sound(ops[i], bound)
    ensures Agrees(Run(c, ops), d, u, t, bound)
  {
    hide Step, Sound, Agrees;
    if ops == [] {
      GenesisAgrees(d, u, t, bound);
    } else {
      var n := |ops| - 1;
      RunsAgreeWithin(c, ops[..n], d, u, t, bound);
      if Step(c, Run(c, ops[..n]), ops[n]).Ok? {
        StepAgrees(c, Run(c, ops[..n]), ops[n], d, u, t, bound);
      }
    }
  }

  /** Ledger and tree agreement: after any run of well-formed proofs the ledger entry of every user,
      in every token, at every dominator that is not evicted, is within 10^11 + 1 of the tree. */
  lemma LedgerFollowsTree(c: Config, ops: seq<Op>, d: Account, u: Account, t: Token)
    requires c.Valid() && !IsEvicted(Run(c, ops), d)
    requires forall i :: 0 <= i < |ops| ==> Sound(ops[i], LOOSE)
    ensures Abs(Gap(Run(c, ops), d, u, t)) <= 100_000_000_001
  {
    hide Run, Sound, Gap;
    RunsAgreeWithin(c, ops, d, u, t, LOOSE);
  }

  /** If moreover no order without makers changes a total, ledger and tree are equal. */
  lemma LedgerEqualsTree(c: Config, ops: seq<Op>, d: Account, u: Account, t: Token)
    requires c.Valid() && !IsEvicted(Run(c, ops), d)
    requires forall i :: 0 <= i < |ops| ==> Sound(ops[i], 0)
    ensures Get(Run(c, ops).reserves, AuthorizedKey(u, t, d)) == LeafTotal(Run(c, ops), d, u, t)
  {
    hide Run, Sound, LeafTotal;
    RunsAgreeWithin(c, ops, d, u, t, 0);
  }
}
