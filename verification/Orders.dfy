/** The checks that `verify_ask_limit` and `verify_bid_limit` make on a limit order's leaves:
    what an accepted order is, and the loops that decide it. */
module Orders {
  import opened Results
  import opened FixedPoint
  import opened VerifierTypes

  /** Leaves of an order: book size, maker accounts (base, quote)*, taker base, taker quote,
      best prices, price pages. */
  datatype Order = Order(price: nat, amount: nat, makerFee: nat, takerFee: nat,
                         base: Token, quote: Token, makers: nat, pages: nat) {

    predicate Shapes(leaves: seq<Leaf>) {
      4 + 2 * makers + pages == |leaves| <= 255
    }

    function TakerBase(leaves: seq<Leaf>): Leaf requires Shapes(leaves) { leaves[2 * makers + 1] }

    function TakerQuote(leaves: seq<Leaf>): Leaf requires Shapes(leaves) { leaves[2 * makers + 2] }

    function BestPrices(leaves: seq<Leaf>): Leaf requires Shapes(leaves) { leaves[2 * makers + 3] }

    function LastLeaf(leaves: seq<Leaf>): Leaf requires Shapes(leaves) { leaves[|leaves| - 1] }
  }

  datatype Mutation = Mutation(who: Account, volume: nat, amount: nat, baseValue: nat, quoteValue: nat)

  datatype Clearing = Clearing(users: seq<Mutation>, baseFee: nat, quoteFee: nat)

  // ---- sums over maker accounts and pages ----

  /** Net change of the first `n` maker accounts; `side` is 1 for base and 2 for quote. */
  function MakerChange(leaves: seq<Leaf>, n: nat, side: nat): int
    requires 1 <= side <= 2 && 2 * n < |leaves|
  {
    if n == 0 then 0
    else MakerChange(leaves, n - 1, side) + leaves[2 * (n - 1) + side].Change()
  }

  function MakerMutations(leaves: seq<Leaf>, n: nat): seq<Mutation>
    requires 2 * n < |leaves|
  {
    if n == 0 then [] else
      var b, q := leaves[2 * n - 1], leaves[2 * n];
      MakerMutations(leaves, n - 1) + [MutationOf(b, q, Abs(q.Change()), Abs(b.Change()))]
  }

  function MutationOf(b: Leaf, q: Leaf, volume: nat, amount: nat): Mutation {
    Mutation(if b.key.AccountKey? then b.key.who else 0, volume, amount, b.after.Total(), q.after.Total())
  }

  /** Depth held before the order by `n` leaves starting at `from`. */
  function Depth(leaves: seq<Leaf>, from: nat, n: nat): nat
    requires from + n <= |leaves|
  {
    if n == 0 then 0 else Depth(leaves, from, n - 1) + leaves[from + n - 1].before.Total()
  }

  // ---- what an accepted order is ----

  /** Base and quote accounts of one user, both close to what the ledger reserves. */
  predicate PartyOk(o: Order, d: Account, reserves: Reserves, b: Leaf, q: Leaf) {
    && b.Holds(o.base) && q.Holds(o.quote) && b.key.who == q.key.who
    && b.SumsFit() && q.SumsFit()
    && AuthorizedNear(reserves, b.key.who, o.base, d, b.before.Total())
    && AuthorizedNear(reserves, q.key.who, o.quote, d, q.before.Total())
  }

  predicate SellerMoves(b: Leaf, q: Leaf) { b.Change() <= 0 <= q.Change() }

  predicate BuyerMoves(b: Leaf, q: Leaf) { q.Change() <= 0 <= b.Change() }

  predicate MakerOk(o: Order, d: Account, reserves: Reserves, leaves: seq<Leaf>, takerSells: bool, i: nat)
    requires o.Shapes(leaves) && i < o.makers
  {
    var b, q := leaves[2 * i + 1], leaves[2 * i + 2];
    PartyOk(o, d, reserves, b, q) && if takerSells then BuyerMoves(b, q) else SellerMoves(b, q)
  }

  predicate PartiesOk(o: Order, d: Account, reserves: Reserves, leaves: seq<Leaf>, takerSells: bool)
    requires o.Shapes(leaves)
  {
    var b, q := o.TakerBase(leaves), o.TakerQuote(leaves);
    && PartyOk(o, d, reserves, b, q)
    && (if takerSells then SellerMoves(b, q) else BuyerMoves(b, q))
    && MakersOk(o, d, reserves, leaves, takerSells, o.makers)
  }

  /** The price bound in force before page `i`: just above the best price, then the previous page. */
  function Bound(o: Order, leaves: seq<Leaf>, first: nat, i: nat): nat
    requires o.Shapes(leaves) && i <= o.pages
  {
    if i == 0 then first else leaves[2 * o.makers + 3 + i].PagePrice()
  }

  /** One page consumed completely. */
  predicate Swept(o: Order, page: Leaf) {
    page.IsPage(o.base, o.quote) && page.after.Total() == 0 && Fits(page.before.Total())
  }

  /** Page `i` is emptied and lies strictly below (ask) or not below (bid) the bound in force. */
  predicate SweepsPage(o: Order, leaves: seq<Leaf>, first: nat, descending: bool, i: nat)
    requires o.Shapes(leaves) && i < o.pages
  {
    var page, bound := leaves[2 * o.makers + 4 + i], Bound(o, leaves, first, i);
    Swept(o, page) && if descending then page.PagePrice() < bound else bound <= page.PagePrice()
  }

  predicate Sweeps(o: Order, leaves: seq<Leaf>, first: nat, descending: bool, n: nat)
    requires o.Shapes(leaves) && n <= o.pages
  {
    forall i :: 0 <= i < n ==> SweepsPage(o, leaves, first, descending, i)
  }

  function SweptDepth(o: Order, leaves: seq<Leaf>): nat
    requires o.Shapes(leaves) && o.pages > 0
  {
    Depth(leaves, 2 * o.makers + 4, o.pages - 1)
  }

  function AskBaseFee(o: Order, leaves: seq<Leaf>): nat requires o.Shapes(leaves) {
    MulCeil(o.makerFee, Abs(o.TakerBase(leaves).Change()))
  }

  function AskQuoteFee(o: Order, leaves: seq<Leaf>): nat requires o.Shapes(leaves) {
    MulCeil(o.takerFee, Abs(MakerChange(leaves, o.makers, 2)))
  }

  function BidQuoteFee(o: Order, leaves: seq<Leaf>): nat requires o.Shapes(leaves) {
    MulCeil(o.makerFee, Abs(o.TakerQuote(leaves).Change()))
  }

  function BidBaseFee(o: Order, leaves: seq<Leaf>): nat requires o.Shapes(leaves) {
    MulCeil(o.takerFee, Abs(MakerChange(leaves, o.makers, 1)))
  }

  /** What one side loses the other gains or the fee takes, token by token. */
  predicate Balanced(o: Order, leaves: seq<Leaf>, baseFee: nat, quoteFee: nat)
    requires o.Shapes(leaves)
  {
    && MakerChange(leaves, o.makers, 1) + o.TakerBase(leaves).Change() + baseFee == 0
    && MakerChange(leaves, o.makers, 2) + o.TakerQuote(leaves).Change() + quoteFee == 0
  }

  predicate AskMovesBook(o: Order, leaves: seq<Leaf>)
    requires o.Shapes(leaves)
  {
    var book, b := leaves[0], o.TakerBase(leaves);
    && book.IsSymbol(o.base, o.quote)
    && book.before.left <= book.after.left
    && book.after.right <= book.before.right
    && book.before.right - book.after.right == -b.Change()
    && (if book.after.left != book.before.left then b.before.left == o.amount + b.after.left
        else b.before.right == b.after.right)
  }

  predicate AskMovesPages(o: Order, leaves: seq<Leaf>)
    requires o.Shapes(leaves)
  {
    var book, best, last := leaves[0], o.BestPrices(leaves), o.LastLeaf(leaves);
    var placed := book.after.left != book.before.left;
    && best.IsSymbol(o.base, o.quote)
    && if book.before.right != book.after.right then
         && o.pages > 0 && o.price <= best.before.right && Fits(best.before.right + 1)
         && Sweeps(o, leaves, best.before.right + 1, true, o.pages - 1)
         && last.IsPage(o.base, o.quote) && last.SumsFit()
         && best.after.right <= last.PagePrice() < Bound(o, leaves, best.before.right + 1, o.pages - 1)
         && Fits(SweptDepth(o, leaves) + last.before.Total())
         && if placed then
              && best.after.left == o.price && last.PagePrice() == o.price
              && Fits(SweptDepth(o, leaves) + last.before.Total() + last.after.Total())
              && SweptDepth(o, leaves) + last.before.Total() + last.after.Total() == o.amount
            else
              && best.after.left == best.before.left
              && -o.TakerBase(leaves).Change() == SweptDepth(o, leaves) + last.before.Total() - last.after.Total()
       else
         && best.after.right == best.before.right
         && (placed ==>
               && last.IsPage(o.base, o.quote) && last.SumsFit()
               && best.after.right < last.PagePrice()
               && last.Change() == o.amount)
  }

  /** Exactly the orders that `verify_ask_limit` lets through. */
  predicate AskAccepted(o: Order, d: Account, reserves: Reserves, leaves: seq<Leaf>) {
    && o.Shapes(leaves)
    && PartiesOk(o, d, reserves, leaves, true)
    && Fits(-MakerChange(leaves, o.makers, 2))
    && Balanced(o, leaves, AskBaseFee(o, leaves), AskQuoteFee(o, leaves))
    && AskMovesBook(o, leaves)
    && AskMovesPages(o, leaves)
  }

  function AskClearing(o: Order, leaves: seq<Leaf>): Clearing requires o.Shapes(leaves) {
    var b, q := o.TakerBase(leaves), o.TakerQuote(leaves);
    Clearing(
      MakerMutations(leaves, o.makers)
      + [MutationOf(b, q, Abs(MakerChange(leaves, o.makers, 2)), Abs(b.Change()))],
      AskBaseFee(o, leaves), AskQuoteFee(o, leaves))
  }

  predicate BidMovesBook(o: Order, leaves: seq<Leaf>)
    requires o.Shapes(leaves)
  {
    var book := leaves[0];
    && book.after.left <= book.before.left
    && book.before.right <= book.after.right
    && book.before.left - book.after.left == -MakerChange(leaves, o.makers, 1)
    && (book.after.right != book.before.right ==>
          book.after.right - book.before.right == o.amount + MakerChange(leaves, o.makers, 1))
  }

  predicate BidMovesPages(o: Order, leaves: seq<Leaf>)
    requires o.Shapes(leaves)
  {
    var book, best, last := leaves[0], o.BestPrices(leaves), o.LastLeaf(leaves);
    var placed := book.after.right != book.before.right;
    && best.IsSymbol(o.base, o.quote)
    && if book.before.left != book.after.left then
         && o.pages > 0 && best.before.left <= o.price
         && Sweeps(o, leaves, best.before.left, false, o.pages - 1)
         && last.IsPage(o.base, o.quote) && last.SumsFit()
         && Fits(SweptDepth(o, leaves) + last.before.Total())
         && if placed then
              && last.PagePrice() == o.price && best.after.right == o.price
              && Fits(SweptDepth(o, leaves) + last.before.Total() + last.after.Total())
              && SweptDepth(o, leaves) + last.before.Total() + last.after.Total() == o.amount
            else
              && best.after.right == best.before.right
              && o.TakerBase(leaves).Change() + BidBaseFee(o, leaves)
                 == SweptDepth(o, leaves) + last.before.Total() - last.after.Total()
       else
         && best.after.left == best.before.left
         && (placed ==>
               && last.IsPage(o.base, o.quote) && last.SumsFit()
               && last.PagePrice() == o.price
               && last.Change() == o.amount)
  }

  /** Exactly the orders that `verify_bid_limit` lets through. */
  predicate BidAccepted(o: Order, d: Account, reserves: Reserves, leaves: seq<Leaf>) {
    && o.Shapes(leaves)
    && PartiesOk(o, d, reserves, leaves, false)
    && Fits(-MakerChange(leaves, o.makers, 1))
    && Balanced(o, leaves, BidBaseFee(o, leaves), BidQuoteFee(o, leaves))
    && BidMovesBook(o, leaves)
    && BidMovesPages(o, leaves)
  }

  function BidClearing(o: Order, leaves: seq<Leaf>): Clearing requires o.Shapes(leaves) {
    var b, q := o.TakerBase(leaves), o.TakerQuote(leaves);
    Clearing(
      MakerMutations(leaves, o.makers)
      + [MutationOf(b, q, Abs(q.Change()), Abs(MakerChange(leaves, o.makers, 1)))],
      BidBaseFee(o, leaves), BidQuoteFee(o, leaves))
  }

  // ---- the loops ----

  predicate MakersOk(o: Order, d: Account, reserves: Reserves, leaves: seq<Leaf>, takerSells: bool, n: nat)
    requires o.Shapes(leaves) && n <= o.makers
  {
    forall i :: 0 <= i < n ==> MakerOk(o, d, reserves, leaves, takerSells, i)
  }

  /** Signs of the maker sums: makers of an ask receive base and give quote; of a bid, the reverse. */
  lemma {:induction false} MakerSigns(o: Order, d: Account, reserves: Reserves, leaves: seq<Leaf>, takerSells: bool, n: nat)
    requires o.Shapes(leaves) && n <= o.makers
    requires MakersOk(o, d, reserves, leaves, takerSells, n)
    ensures if takerSells then MakerChange(leaves, n, 2) <= 0 <= MakerChange(leaves, n, 1)
            else MakerChange(leaves, n, 1) <= 0 <= MakerChange(leaves, n, 2)
  {
    if n > 0 {
      MakerSigns(o, d, reserves, leaves, takerSells, n - 1);
      assert MakerOk(o, d, reserves, leaves, takerSells, n - 1);
    }
  }

  /** The maker loop of both order kinds: what makers gave and got, and their new balances. */
  method CheckMakers(o: Order, d: Account, reserves: Reserves, leaves: seq<Leaf>, takerSells: bool)
    returns (ok: bool, baseMoved: nat, quoteMoved: nat, users: seq<Mutation>)
    requires o.Shapes(leaves)
    ensures ok <==>
            && MakersOk(o, d, reserves, leaves, takerSells, o.makers)
            && Fits(Abs(MakerChange(leaves, o.makers, 1)))
            && Fits(Abs(MakerChange(leaves, o.makers, 2)))
    ensures ok ==> baseMoved == Abs(MakerChange(leaves, o.makers, 1))
    ensures ok ==> quoteMoved == Abs(MakerChange(leaves, o.makers, 2))
    ensures ok ==> users == MakerMutations(leaves, o.makers)
  {
    hide MakerOk, Leaf.Change;
    ok, baseMoved, quoteMoved, users := true, 0, 0, [];
    for i := 0 to o.makers
      invariant ok <==>
                && MakersOk(o, d, reserves, leaves, takerSells, i)
                && Fits(Abs(MakerChange(leaves, i, 1)))
                && Fits(Abs(MakerChange(leaves, i, 2)))
      invariant ok ==> baseMoved == Abs(MakerChange(leaves, i, 1)) && quoteMoved == Abs(MakerChange(leaves, i, 2))
      invariant ok ==> users == MakerMutations(leaves, i)
    {
      MakersGrow(o, d, reserves, leaves, takerSells, i);
      if ok {
        var b, q := leaves[2 * i + 1], leaves[2 * i + 2];
        baseMoved, quoteMoved := baseMoved + Abs(b.Change()), quoteMoved + Abs(q.Change());
        users := users + [MutationOf(b, q, Abs(q.Change()), Abs(b.Change()))];
        ok := MakerOk(o, d, reserves, leaves, takerSells, i) && Fits(baseMoved) && Fits(quoteMoved);
      }
    }
  }

  /** One more maker in order: both sums grow by what that maker moved. */
  lemma MakersGrow(o: Order, d: Account, reserves: Reserves, leaves: seq<Leaf>, takerSells: bool, i: nat)
    requires o.Shapes(leaves) && i < o.makers
    ensures MakersOk(o, d, reserves, leaves, takerSells, i + 1) <==>
            MakersOk(o, d, reserves, leaves, takerSells, i) && MakerOk(o, d, reserves, leaves, takerSells, i)
    ensures MakersOk(o, d, reserves, leaves, takerSells, i + 1) ==>
              && Abs(MakerChange(leaves, i + 1, 1)) == Abs(MakerChange(leaves, i, 1)) + Abs(leaves[2 * i + 1].Change())
              && Abs(MakerChange(leaves, i + 1, 2)) == Abs(MakerChange(leaves, i, 2)) + Abs(leaves[2 * i + 2].Change())
  {
    if MakersOk(o, d, reserves, leaves, takerSells, i) {
      MakerSigns(o, d, reserves, leaves, takerSells, i);
    }
  }

  /** The page loop: every page but the last is emptied, in price order. */
  method SweepPages(o: Order, leaves: seq<Leaf>, first: nat, descending: bool)
    returns (ok: bool, bound: nat, taken: nat)
    requires o.Shapes(leaves) && o.pages > 0
    ensures ok <==> Sweeps(o, leaves, first, descending, o.pages - 1) && Fits(SweptDepth(o, leaves))
    ensures ok ==> bound == Bound(o, leaves, first, o.pages - 1) && taken == SweptDepth(o, leaves)
  {
    SweepsStart(o, leaves, first, descending);
    hide Depth, Bound, Sweeps, SweepsPage, Swept;
    ok, bound, taken := true, first, 0;
    for i := 0 to o.pages - 1
      invariant ok <==> Sweeps(o, leaves, first, descending, i) && Fits(Depth(leaves, 2 * o.makers + 4, i))
      invariant ok ==> bound == Bound(o, leaves, first, i) && taken == Depth(leaves, 2 * o.makers + 4, i)
    {
      SweepsGrow(o, leaves, first, descending, i);
      if ok {
        var page := leaves[2 * o.makers + 4 + i];
        var p := page.PagePrice();
        taken := taken + page.before.Total();
        ok := Swept(o, page) && Fits(taken) && if descending then p < bound else bound <= p;
        bound := p;
      }
    }
  }

  lemma SweepsStart(o: Order, leaves: seq<Leaf>, first: nat, descending: bool)
    requires o.Shapes(leaves)
    ensures Sweeps(o, leaves, first, descending, 0) && Bound(o, leaves, first, 0) == first
    ensures Depth(leaves, 2 * o.makers + 4, 0) == 0
  {
  }

  lemma SweepsGrow(o: Order, leaves: seq<Leaf>, first: nat, descending: bool, i: nat)
    requires o.Shapes(leaves) && i < o.pages
    ensures var page := leaves[2 * o.makers + 4 + i];
            Sweeps(o, leaves, first, descending, i + 1) <==>
            && Sweeps(o, leaves, first, descending, i)
            && Swept(o, page)
            && if descending then page.PagePrice() < Bound(o, leaves, first, i) else Bound(o, leaves, first, i) <= page.PagePrice()
    ensures Bound(o, leaves, first, i + 1) == leaves[2 * o.makers + 4 + i].PagePrice()
    ensures Depth(leaves, 2 * o.makers + 4, i + 1)
            == Depth(leaves, 2 * o.makers + 4, i) + leaves[2 * o.makers + 4 + i].before.Total()
  {
    assert Sweeps(o, leaves, first, descending, i + 1) <==>
           Sweeps(o, leaves, first, descending, i) && SweepsPage(o, leaves, first, descending, i);
  }

  method CheckAskPages(o: Order, leaves: seq<Leaf>) returns (ok: bool)
    requires o.Shapes(leaves)
    ensures ok <==> AskMovesPages(o, leaves)
  {
    var book, best, last := leaves[0], o.BestPrices(leaves), o.LastLeaf(leaves);
    var placed := book.after.left != book.before.left;
    if !best.IsSymbol(o.base, o.quote) {
      return false;
    }
    if book.before.right == book.after.right {
      return best.after.right == best.before.right
          && (placed ==> last.IsPage(o.base, o.quote) && last.SumsFit()
                         && best.after.right < last.PagePrice() && last.Change() == o.amount);
    }
    if o.pages == 0 || best.before.right < o.price || !Fits(best.before.right + 1) {
      return false;
    }
    var swept, bound, taken := SweepPages(o, leaves, best.before.right + 1, true);
    if !swept || !last.IsPage(o.base, o.quote) || !last.SumsFit() {
      return false;
    }
    var p, prv, now := last.PagePrice(), last.before.Total(), last.after.Total();
    if bound <= p || p < best.after.right || !Fits(taken + prv) {
      return false;
    }
    if placed {
      ok := best.after.left == o.price && p == o.price && Fits(taken + prv + now) && taken + prv + now == o.amount;
    } else {
      ok := best.after.left == best.before.left && now - o.TakerBase(leaves).Change() == taken + prv;
    }
  }

  method CheckBidPages(o: Order, leaves: seq<Leaf>) returns (ok: bool)
    requires o.Shapes(leaves)
    ensures ok <==> BidMovesPages(o, leaves)
  {
    var book, best, last := leaves[0], o.BestPrices(leaves), o.LastLeaf(leaves);
    var placed := book.after.right != book.before.right;
    if !best.IsSymbol(o.base, o.quote) {
      return false;
    }
    if book.before.left == book.after.left {
      return best.after.left == best.before.left
          && (placed ==> last.IsPage(o.base, o.quote) && last.SumsFit()
                         && last.PagePrice() == o.price && last.Change() == o.amount);
    }
    if o.pages == 0 || o.price < best.before.left {
      return false;
    }
    var swept, bound, taken := SweepPages(o, leaves, best.before.left, false);
    if !swept || !last.IsPage(o.base, o.quote) || !last.SumsFit() {
      return false;
    }
    var prv, now := last.before.Total(), last.after.Total();
    if !Fits(taken + prv) {
      return false;
    }
    if placed {
      ok := last.PagePrice() == o.price && best.after.right == o.price
         && Fits(taken + prv + now) && taken + prv + now == o.amount;
    } else {
      ok := best.after.right == best.before.right
         && o.TakerBase(leaves).Change() + BidBaseFee(o, leaves) + now == taken + prv;
    }
  }

  /** An ask sells base: the taker gives base and gets quote, makers the reverse. */
  method VerifyAskLimit(o: Order, d: Account, reserves: Reserves, leaves: seq<Leaf>)
    returns (r: Result<Clearing, Error>)
    ensures r.Ok? <==> AskAccepted(o, d, reserves, leaves)
    ensures r.Ok? ==> r.value == AskClearing(o, leaves)
  {
    if !o.Shapes(leaves) {
      return Err(ProofsUnsatisfied);
    }
    var b, q := o.TakerBase(leaves), o.TakerQuote(leaves);
    if !PartyOk(o, d, reserves, b, q) || !SellerMoves(b, q) || !AskMovesBook(o, leaves) {
      return Err(ProofsUnsatisfied);
    }
    var ok, baseMoved, quoteMoved, users := CheckMakers(o, d, reserves, leaves, true);
    if ok {
      MakerSigns(o, d, reserves, leaves, true, o.makers);
    } else {
      if AskAccepted(o, d, reserves, leaves) {
        MakerSigns(o, d, reserves, leaves, true, o.makers);
        assert false;
      }
      return Err(Overflow);
    }
    var baseGiven, quoteGot := Abs(b.Change()), Abs(q.Change());
    var baseFee, quoteFee := MulCeil(o.makerFee, baseGiven), MulCeil(o.takerFee, quoteMoved);
    if baseMoved + baseFee != baseGiven || quoteMoved != quoteGot + quoteFee {
      return Err(ProofsUnsatisfied);
    }
    users := users + [MutationOf(b, q, quoteMoved, baseGiven)];
    var pagesOk := CheckAskPages(o, leaves);
    if !pagesOk {
      return Err(ProofsUnsatisfied);
    }
    r := Ok(Clearing(users, baseFee, quoteFee));
  }

  /** A bid buys base: the taker gives quote and gets base, makers the reverse. */
  method VerifyBidLimit(o: Order, d: Account, reserves: Reserves, leaves: seq<Leaf>)
    returns (r: Result<Clearing, Error>)
    ensures r.Ok? <==> BidAccepted(o, d, reserves, leaves)
    ensures r.Ok? ==> r.value == BidClearing(o, leaves)
  {
    if !o.Shapes(leaves) {
      return Err(ProofsUnsatisfied);
    }
    var b, q := o.TakerBase(leaves), o.TakerQuote(leaves);
    if !PartyOk(o, d, reserves, b, q) || !BuyerMoves(b, q) {
      return Err(ProofsUnsatisfied);
    }
    var ok, baseMoved, quoteMoved, users := CheckMakers(o, d, reserves, leaves, false);
    if ok {
      MakerSigns(o, d, reserves, leaves, false, o.makers);
    } else {
      if BidAccepted(o, d, reserves, leaves) {
        MakerSigns(o, d, reserves, leaves, false, o.makers);
        assert false;
      }
      return Err(Overflow);
    }
    var baseGot, quoteGiven := Abs(b.Change()), Abs(q.Change());
    var quoteFee, baseFee := MulCeil(o.makerFee, quoteGiven), MulCeil(o.takerFee, baseMoved);
    if quoteMoved + quoteFee != quoteGiven || baseGot + baseFee != baseMoved {
      return Err(ProofsUnsatisfied);
    }
    if !BidMovesBook(o, leaves) {
      return Err(ProofsUnsatisfied);
    }
    users := users + [MutationOf(b, q, quoteGiven, baseMoved)];
    var pagesOk := CheckBidPages(o, leaves);
    if !pagesOk {
      return Err(ProofsUnsatisfied);
    }
    r := Ok(Clearing(users, baseFee, quoteFee));
  }
}
