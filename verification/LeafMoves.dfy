/** What an accepted command does to the leaves of the tree, half by half, and exactly when deposits,
    withdrawals, their rejections and cancels are accepted. */
module LeafMoves {
  import opened Results
  import opened FixedPoint
  import opened MapSums
  import opened VerifierTypes
  import opened VerifierState
  import opened VerifierSteps
  import opened Entries

  function LeafOf(s: State, d: Account, t: Token, u: Account): Pair { Look(s.TreeOf(d), AccountKey(t, u)) }

  predicate Rejects(cmd: Command) { cmd.RejectTransferIn? || cmd.RejectTransferOut? }

  /** An accepted proof writes its new leaves and nothing else into the tree; a rejection writes nothing. */
  lemma TreeAfter(c: Config, s: State, d: Account, p: Proof, stable: set<Token>, k: Key)
    requires c.Valid() && d in s.dominators && VerifyOne(c, s, d, p, stable).Ok?
    ensures var s' := VerifyOne(c, s, d, p, stable).value;
            && (Rejects(p.cmd) ==> s'.dominators == s.dominators)
            && (!Rejects(p.cmd) ==> s'.dominators[d].sequence == (p.eventId, s.now))
            && (!Rejects(p.cmd) ==> forall i :: 0 <= i < |p.leaves| ==> Look(s'.TreeOf(d), p.leaves[i].key) == p.leaves[i].after)
            && ((forall i :: 0 <= i < |p.leaves| ==> p.leaves[i].key != k) ==> Look(s'.TreeOf(d), k) == Look(s.TreeOf(d), k))
            && forall i :: 0 <= i < |p.leaves| ==> p.leaves[i].before == Look(s.TreeOf(d), p.leaves[i].key)
  {
    hide Apply, Look, Updated;
    var tree := s.dominators[d].tree;
    assert DistinctKeys(p.leaves);
    forall i | 0 <= i < |p.leaves| ensures Look(Updated(tree, p.leaves), p.leaves[i].key) == p.leaves[i].after {
      UpdatedAt(tree, p.leaves, i);
    }
    if forall i :: 0 <= i < |p.leaves| ==> p.leaves[i].key != k {
      UpdatedElsewhere(tree, p.leaves, k);
    }
  }

  // ---- withdrawals ----

  /** The one leaf of a transfer: the user's, as the tree has it. */
  predicate OneLeaf(s: State, d: Account, p: Proof, t: Token) {
    && |p.leaves| == 1 && p.leaves[0].key == AccountKey(t, p.user)
    && p.leaves[0].before == LeafOf(s, d, t, p.user)
  }

  predicate AsksToRevoke(s: State, d: Account, u: Account, t: Token, x: nat) {
    (d, u) in s.receipts && s.receipts[(d, u)].Revoke? && s.receipts[(d, u)].token == t && s.receipts[(d, u)].amount == x
  }

  predicate AsksToAuthorize(s: State, d: Account, u: Account, t: Token, x: nat) {
    (d, u) in s.receipts && s.receipts[(d, u)].Authorize? && s.receipts[(d, u)].token == t && s.receipts[(d, u)].amount == x
  }

  lemma ProvesOne(tree: Tree, leaves: seq<Leaf>)
    requires |leaves| == 1
    ensures Proves(tree, leaves) <==> leaves[0].before == Look(tree, leaves[0].key)
  {
  }

  lemma FreesIff(c: Config, s: State, u: Account, t: Token, x: nat, h: Account)
    ensures Unreserve(c, s, Authorized, u, t, x, h).Ok? <==>
              || x == 0
              || (&& x <= Entry(s, AuthorizedKey(u, t, h)) && x <= s.BalanceOf(t, u).reserved
                  && (t == c.native || s.BalanceOf(t, u).free + x <= U128_MAX))
  {
  }

  /** A withdrawal is accepted exactly when the open receipt asks for it, the leaf's available half falls by
      the amount while its frozen half stays, and the ledger can free the amount. */
  lemma WithdrawalAcceptedIff(c: Config, s: State, d: Account, p: Proof, stable: set<Token>)
    requires c.Valid() && d in s.dominators && p.cmd.TransferOut?
    ensures var t, x, u := p.cmd.token, p.cmd.amount, p.user;
            VerifyOne(c, s, d, p, stable).Ok? <==>
              && AsksToRevoke(s, d, u, t, x) && OneLeaf(s, d, p, t)
              && p.leaves[0].after.left + x == p.leaves[0].before.left
              && p.leaves[0].after.right == p.leaves[0].before.right
              && (x == 0 || (&& x <= Entry(s, AuthorizedKey(u, t, d)) && x <= s.BalanceOf(t, u).reserved
                             && (t == c.native || s.BalanceOf(t, u).free + x <= U128_MAX)))
  {
    hide Unreserve, Proves, Look, Updated;
    FreesIff(c, s, p.user, p.cmd.token, p.cmd.amount, d);
    if |p.leaves| == 1 {
      ProvesOne(s.dominators[d].tree, p.leaves);
    }
  }

  lemma FreesTo(c: Config, s: State, u: Account, t: Token, x: nat, h: Account)
    requires Unreserve(c, s, Authorized, u, t, x, h).Ok?
    ensures var s' := Unreserve(c, s, Authorized, u, t, x, h).value;
            && s'.BalanceOf(t, u).free == s.BalanceOf(t, u).free + x
            && s'.BalanceOf(t, u).reserved + x == s.BalanceOf(t, u).reserved
  {
  }

  /** It lowers the available half of the leaf, the authorised entry and the reserved balance by the amount,
      raises the free balance by it, and closes the receipt. */
  lemma WithdrawalMoves(c: Config, s: State, d: Account, p: Proof, stable: set<Token>)
    requires c.Valid() && d in s.dominators && p.cmd.TransferOut? && VerifyOne(c, s, d, p, stable).Ok?
    ensures var s', t, x, u := VerifyOne(c, s, d, p, stable).value, p.cmd.token, p.cmd.amount, p.user;
            && LeafOf(s', d, t, u).left + x == LeafOf(s, d, t, u).left
            && LeafOf(s', d, t, u).right == LeafOf(s, d, t, u).right
            && Entry(s', AuthorizedKey(u, t, d)) + x == Entry(s, AuthorizedKey(u, t, d))
            && s'.BalanceOf(t, u).free == s.BalanceOf(t, u).free + x
            && s'.BalanceOf(t, u).reserved + x == s.BalanceOf(t, u).reserved
            && s'.receipts == s.receipts - {(d, u)}
  {
    WithdrawalAcceptedIff(c, s, d, p, stable);
    TreeAfter(c, s, d, p, stable, AccountKey(p.cmd.token, p.user));
    hide Unreserve, Proves, Look, Updated;
    UnreserveEntry(c, s, Authorized, p.user, p.cmd.token, p.cmd.amount, d, AuthorizedKey(p.user, p.cmd.token, d));
    FreesTo(c, s, p.user, p.cmd.token, p.cmd.amount, d);
  }

  /** A withdrawal is turned down exactly when the receipt asks for more than the available half holds; that
      closes the receipt and changes neither tree nor ledger. */
  lemma WithdrawalRejectedIff(c: Config, s: State, d: Account, p: Proof, stable: set<Token>)
    requires c.Valid() && d in s.dominators && p.cmd.RejectTransferOut?
    ensures var t, x, u := p.cmd.token, p.cmd.amount, p.user;
            VerifyOne(c, s, d, p, stable).Ok? <==>
              AsksToRevoke(s, d, u, t, x) && OneLeaf(s, d, p, t) && LeafOf(s, d, t, u).left < x
    ensures VerifyOne(c, s, d, p, stable).Ok? ==>
              var s' := VerifyOne(c, s, d, p, stable).value;
              s' == s.(receipts := s.receipts - {(d, p.user)}, history := s'.history)
  {
    hide Proves, Look, Updated;
    if |p.leaves| == 1 {
      ProvesOne(s.dominators[d].tree, p.leaves);
    }
  }

  // ---- deposits ----

  /** A deposit is accepted exactly when the open receipt asks for it, the leaf's available half grows by the
      amount while its frozen half stays, and the authorised entry can take it. */
  lemma DepositAcceptedIff(c: Config, s: State, d: Account, p: Proof, stable: set<Token>)
    requires c.Valid() && d in s.dominators && p.cmd.TransferIn?
    ensures var t, x, u := p.cmd.token, p.cmd.amount, p.user;
            VerifyOne(c, s, d, p, stable).Ok? <==>
              && AsksToAuthorize(s, d, u, t, x) && OneLeaf(s, d, p, t)
              && p.leaves[0].after.left == p.leaves[0].before.left + x
              && p.leaves[0].after.right == p.leaves[0].before.right
              && Entry(s, AuthorizedKey(u, t, d)) + x <= U128_MAX
  {
    hide Proves, Look, Updated;
    if |p.leaves| == 1 {
      ProvesOne(s.dominators[d].tree, p.leaves);
    }
  }

  /** It raises the available half of the leaf and the authorised entry by the amount, empties the stash,
      touches no balance and closes the receipt. */
  lemma DepositMoves(c: Config, s: State, d: Account, p: Proof, stable: set<Token>)
    requires c.Valid() && d in s.dominators && p.cmd.TransferIn? && VerifyOne(c, s, d, p, stable).Ok?
    ensures var s', t, x, u := VerifyOne(c, s, d, p, stable).value, p.cmd.token, p.cmd.amount, p.user;
            && LeafOf(s', d, t, u).left == LeafOf(s, d, t, u).left + x
            && LeafOf(s', d, t, u).right == LeafOf(s, d, t, u).right
            && Entry(s', AuthorizedKey(u, t, d)) == Entry(s, AuthorizedKey(u, t, d)) + x
            && Entry(s', ReserveKey(Stashed, u, t, d)) == 0
            && s'.balances == s.balances && s'.receipts == s.receipts - {(d, u)}
  {
    DepositAcceptedIff(c, s, d, p, stable);
    TreeAfter(c, s, d, p, stable, AccountKey(p.cmd.token, p.user));
    hide Proves, Look, Updated;
  }

  /** A deposit can be turned down at any time, and so can nothing at all; that closes the receipt and changes
      neither tree nor ledger. */
  lemma DepositRejectedIff(c: Config, s: State, d: Account, p: Proof, stable: set<Token>)
    requires c.Valid() && d in s.dominators && p.cmd.RejectTransferIn?
    ensures VerifyOne(c, s, d, p, stable).Ok? <==>
              Proves(s.TreeOf(d), p.leaves) && ((d, p.user) in s.receipts ==> s.receipts[(d, p.user)].Authorize?)
    ensures VerifyOne(c, s, d, p, stable).Ok? ==>
              var s' := VerifyOne(c, s, d, p, stable).value;
              s' == s.(receipts := s.receipts - {(d, p.user)}, history := s'.history)
  {
    hide Proves, Updated;
    if (d, p.user) !in s.receipts {
      assert s.receipts - {(d, p.user)} == s.receipts;
    }
  }

  // ---- cancels ----

  function Pow2(k: nat): (r: nat)
    ensures r > 0
  {
    if k == 0 then 1 else 2 * Pow2(k - 1)
  }

  predicate Bit(a: nat, k: nat) { FloorDiv(a, Pow2(k)) % 2 == 1 }

  lemma HalvedBit(a: nat, k: nat)
    ensures Bit(a, k + 1) == Bit(a / 2, k)
  {
    var p := Pow2(k);
    var q, r := a / 2, a % 2;
    var m, rest := q / p, q % p;
    assert a == 2 * q + r && q == p * m + rest;
    assert a == (2 * p) * m + (2 * rest + r) by { Swap(2, p, m); }
    DivUnique(a, 2 * p, m, 2 * rest + r);
  }

  /** The bitwise test of the code: no binary digit is set in both numbers. */
  lemma {:induction false} NoCommonBitIsBitwise(a: nat, b: nat)
    ensures NoCommonBit(a, b) <==> forall k: nat :: !(Bit(a, k) && Bit(b, k))
    decreases a
  {
    if a == 0 || b == 0 {
      forall k: nat ensures !(Bit(a, k) && Bit(b, k)) { ZeroBits(k); }
    } else {
      NoCommonBitIsBitwise(a / 2, b / 2);
      assert Bit(a, 0) == (a % 2 == 1) && Bit(b, 0) == (b % 2 == 1) by { LowBit(a); LowBit(b); }
      forall k: nat ensures Bit(a, k + 1) == Bit(a / 2, k) && Bit(b, k + 1) == Bit(b / 2, k) {
        HalvedBit(a, k);
        HalvedBit(b, k);
      }
      if NoCommonBit(a, b) {
        forall k: nat ensures !(Bit(a, k) && Bit(b, k)) {
          if k > 0 {
            assert Bit(a, (k - 1) + 1) == Bit(a / 2, k - 1);
          }
        }
      } else if a % 2 != 1 || b % 2 != 1 {
        var k: nat :| Bit(a / 2, k) && Bit(b / 2, k);
        assert Bit(a, k + 1) && Bit(b, k + 1);
      }
    }
  }

  lemma ZeroBits(k: nat)
    ensures !Bit(0, k)
  {
    DivUnique(0, Pow2(k), 0, 0);
  }

  lemma LowBit(a: nat)
    ensures Bit(a, 0) == (a % 2 == 1)
  {
    DivUnique(a, 1, a, 0);
  }

  /** An accepted cancel takes from the page exactly what it takes from one side of the book: from the asks
      if the page is at or above an existing best ask, else from the bids. The user's totals stay. */
  lemma CancelMoves(c: Config, s: State, d: Account, p: Proof, stable: set<Token>)
    requires c.Valid() && d in s.dominators && p.cmd.Cancel? && VerifyOne(c, s, d, p, stable).Ok?
    ensures |p.leaves| == 5 && p.leaves[4].key.PageKey?
    ensures var s', book, best, page, price := VerifyOne(c, s, d, p, stable).value, p.leaves[0], p.leaves[3], p.leaves[4], p.leaves[4].key.price;
            var onAskSide := best.before.left != 0 && price >= best.before.left;
            && book.after.left <= book.before.left && book.after.right <= book.before.right && book.after != book.before
            && page.before.Total() - page.after.Total()
               == (if onAskSide then book.before.left - book.after.left else book.before.right - book.after.right)
            && (price >= best.before.left || price <= best.before.right)
            && LeafOf(s', d, p.cmd.base, p.user).Total() == LeafOf(s, d, p.cmd.base, p.user).Total()
            && LeafOf(s', d, p.cmd.quote, p.user).Total() == LeafOf(s, d, p.cmd.quote, p.user).Total()
            && s'.reserves == s.reserves && s'.balances == s.balances && s'.receipts == s.receipts
  {
    TreeAfter(c, s, d, p, stable, OtherKey([]));
    hide Proves, Look, Updated, NoCommonBit;
    assert CancelAccepted(p.cmd, p.user, p.leaves);
  }

  /** Some of one's own depth at one price, on the ask side. */
  function AskCancel(b: Token, q: Token, u: Account, price: nat, x: nat, book: Pair, base: Pair, quote: Pair, best: Pair, best': Pair, page: Pair): seq<Leaf>
    requires x <= book.left && x <= base.right && x <= page.left
  {
    [Leaf(BookKey(b, q), book, Pair(book.left - x, book.right)),
     Leaf(AccountKey(b, u), base, Pair(base.left + x, base.right - x)),
     Leaf(AccountKey(q, u), quote, quote),
     Leaf(BestPriceKey(b, q), best, best'),
     Leaf(PageKey(b, q, price), page, Pair(page.left - x, page.right))]
  }

  /** And on the bid side: `y` of the quote token comes free for `x` less depth. */
  function BidCancel(b: Token, q: Token, u: Account, price: nat, x: nat, y: nat, book: Pair, base: Pair, quote: Pair, best: Pair, best': Pair, page: Pair): seq<Leaf>
    requires x <= book.right && y <= quote.right && x <= page.left
  {
    [Leaf(BookKey(b, q), book, Pair(book.left, book.right - x)),
     Leaf(AccountKey(b, u), base, base),
     Leaf(AccountKey(q, u), quote, Pair(quote.left + y, quote.right - y)),
     Leaf(BestPriceKey(b, q), best, best'),
     Leaf(PageKey(b, q, price), page, Pair(page.left - x, page.right))]
  }

  /** Every honest cancel of an ask is accepted. */
  lemma AskCancelAccepted(b: Token, q: Token, u: Account, price: nat, x: nat, book: Pair, base: Pair, quote: Pair, best: Pair, best': Pair, page: Pair)
    requires 0 < x <= book.left && x <= base.right && x <= page.left && x <= U128_MAX
    requires base.Total() <= U128_MAX && quote.Total() <= U128_MAX && page.Total() <= U128_MAX
    requires 0 < best.left <= price
    ensures CancelAccepted(Cancel(b, q), u, AskCancel(b, q, u, price, x, book, base, quote, best, best', page))
  {
  }

  /** Every honest cancel of a bid is accepted. */
  lemma BidCancelAccepted(b: Token, q: Token, u: Account, price: nat, x: nat, y: nat, book: Pair, base: Pair, quote: Pair, best: Pair, best': Pair, page: Pair)
    requires 0 < x <= book.right && y <= quote.right && x <= page.left && x <= U128_MAX
    requires base.Total() <= U128_MAX && quote.Total() <= U128_MAX && page.Total() <= U128_MAX
    requires price <= best.right && (best.left == 0 || price < best.left)
    ensures CancelAccepted(Cancel(b, q), u, BidCancel(b, q, u, price, x, y, book, base, quote, best, best', page))
  {
  }
}
