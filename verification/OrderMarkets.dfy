/** An independent description of the orders that are accepted: what happens to the two sides of the book, to
    the price pages and to the taker's available and frozen base, branch by branch. */
module OrderMarkets {
  import opened FixedPoint
  import opened MapSums
  import opened VerifierTypes
  import opened Orders
  import opened OrderBook

  /** One leaf for the book, two for each maker and for the taker, one for the best prices, and the pages: at
      most what a byte can count. */
  lemma ShapesIff(o: Order, leaves: seq<Leaf>)
    ensures o.Shapes(leaves) <==> |leaves| == 1 + 2 * o.makers + 2 + 1 + o.pages && |leaves| < 256
  {
  }

  // ---- pages ----

  /** All page positions hold pages of the symbol, all but the last one end up empty. */
  predicate PagesEmptied(o: Order, leaves: seq<Leaf>)
    requires o.Shapes(leaves)
  {
    && (forall i :: 0 <= i < o.pages ==> PageLeaf(o, leaves, i).IsPage(o.base, o.quote))
    && (forall i :: 0 <= i < o.pages - 1 ==> PageLeaf(o, leaves, i).after == Pair(0, 0) && PageLeaf(o, leaves, i).before.Total() <= U128_MAX)
  }

  predicate StrictlyFalling(ps: seq<nat>) { forall i :: 1 <= i < |ps| ==> ps[i] < ps[i - 1] }

  predicate NeverFalling(ps: seq<nat>) { forall i :: 1 <= i < |ps| ==> ps[i - 1] <= ps[i] }

  /** Total depth of all pages before the order. */
  function AllDepth(o: Order, leaves: seq<Leaf>): nat
    requires o.Shapes(leaves)
  {
    Depth(leaves, 2 * o.makers + 4, o.pages)
  }

  function Taken(before: nat, after: nat): int { before - after }

  // ---- asks ----

  predicate AskWalks(o: Order, leaves: seq<Leaf>)
    requires o.Shapes(leaves)
  {
    var best := o.BestPrices(leaves);
    && o.pages > 0 && PagesEmptied(o, leaves)
    && o.price <= best.before.right < U128_MAX
    && StrictlyFalling(Prices(o, leaves, o.pages))
    && PageLeaf(o, leaves, 0).PagePrice() <= best.before.right
    && best.after.right <= o.LastLeaf(leaves).PagePrice()
    && o.LastLeaf(leaves).SumsFit() && AllDepth(o, leaves) <= U128_MAX
  }

  /** An ask: the bids it takes come off the bid side and off the taker's base; what it leaves goes to the ask
      side, and then the available base pays for the whole amount. */
  predicate AskMarket(o: Order, leaves: seq<Leaf>)
    requires o.Shapes(leaves)
  {
    var book, b, best, last := leaves[0], o.TakerBase(leaves), o.BestPrices(leaves), o.LastLeaf(leaves);
    var taken, rests := Taken(book.before.right, book.after.right), Taken(book.after.left, book.before.left);
    && book.IsSymbol(o.base, o.quote) && best.IsSymbol(o.base, o.quote)
    && taken >= 0 && rests >= 0
    && b.before.Total() - b.after.Total() == taken
    && (rests > 0 ==> b.before.left - b.after.left == o.amount)
    && (rests == 0 ==> b.before.right == b.after.right)
    && (taken > 0 ==> AskWalks(o, leaves))
    && (taken > 0 && rests == 0 ==> best.after.left == best.before.left && DepthRemoved(o, leaves) == taken)
    && (taken > 0 && rests > 0 ==>
          && best.after.left == o.price && last.PagePrice() == o.price
          && AllDepth(o, leaves) + last.after.Total() == o.amount <= U128_MAX)
    && (taken == 0 ==> best.after.right == best.before.right)
    && (taken == 0 && rests > 0 ==>
          && last.IsPage(o.base, o.quote) && last.SumsFit()
          && best.before.right < last.PagePrice()
          && last.after.Total() - last.before.Total() == o.amount)
  }

  lemma DepthSplits(o: Order, leaves: seq<Leaf>)
    requires o.Shapes(leaves) && o.pages > 0
    ensures AllDepth(o, leaves) == SweptDepth(o, leaves) + o.LastLeaf(leaves).before.Total()
  {
  }

  lemma RemovedSplits(o: Order, leaves: seq<Leaf>, first: nat, descending: bool)
    requires o.Shapes(leaves) && o.pages > 0 && Sweeps(o, leaves, first, descending, o.pages - 1)
    ensures DepthRemoved(o, leaves) == SweptDepth(o, leaves) - o.LastLeaf(leaves).Change()
  {
    SweptChange(o, leaves, first, descending, o.pages - 1);
  }

  /** Page by page: the prices fall strictly from the old best bid over emptied pages. */
  lemma AskSweepsIff(o: Order, leaves: seq<Leaf>, top: nat)
    requires o.Shapes(leaves) && o.pages > 0
    ensures (&& Sweeps(o, leaves, top + 1, true, o.pages - 1)
             && o.LastLeaf(leaves).IsPage(o.base, o.quote)
             && o.LastLeaf(leaves).PagePrice() < Bound(o, leaves, top + 1, o.pages - 1))
            <==>
            (&& PagesEmptied(o, leaves) && StrictlyFalling(Prices(o, leaves, o.pages))
             && PageLeaf(o, leaves, 0).PagePrice() <= top)
  {
    if Sweeps(o, leaves, top + 1, true, o.pages - 1) && o.LastLeaf(leaves).IsPage(o.base, o.quote)
       && o.LastLeaf(leaves).PagePrice() < Bound(o, leaves, top + 1, o.pages - 1) {
      AskSweepsFall(o, leaves, top);
    }
    if PagesEmptied(o, leaves) && StrictlyFalling(Prices(o, leaves, o.pages)) && PageLeaf(o, leaves, 0).PagePrice() <= top {
      FallingSweeps(o, leaves, top);
    }
  }

  lemma AskSweepsFall(o: Order, leaves: seq<Leaf>, top: nat)
    requires o.Shapes(leaves) && o.pages > 0
    requires Sweeps(o, leaves, top + 1, true, o.pages - 1) && o.LastLeaf(leaves).IsPage(o.base, o.quote)
    requires o.LastLeaf(leaves).PagePrice() < Bound(o, leaves, top + 1, o.pages - 1)
    ensures PagesEmptied(o, leaves) && StrictlyFalling(Prices(o, leaves, o.pages)) && PageLeaf(o, leaves, 0).PagePrice() <= top
  {
    hide Prices;
    var ps := Prices(o, leaves, o.pages);
    forall i | 0 <= i < o.pages
      ensures PageLeaf(o, leaves, i).IsPage(o.base, o.quote) && PageLeaf(o, leaves, i).PagePrice() < Bound(o, leaves, top + 1, i)
      ensures i < o.pages - 1 ==> PageLeaf(o, leaves, i).after == Pair(0, 0) && PageLeaf(o, leaves, i).before.Total() <= U128_MAX
    {
      if i < o.pages - 1 {
        assert SweepsPage(o, leaves, top + 1, true, i);
      }
    }
    forall i | 1 <= i < o.pages ensures ps[i] < ps[i - 1] {
      assert PageLeaf(o, leaves, i).PagePrice() < Bound(o, leaves, top + 1, i);
      assert ps[i] == PageLeaf(o, leaves, i).PagePrice() && ps[i - 1] == PageLeaf(o, leaves, i - 1).PagePrice();
    }
  }

  lemma FallingSweeps(o: Order, leaves: seq<Leaf>, top: nat)
    requires o.Shapes(leaves) && o.pages > 0
    requires PagesEmptied(o, leaves) && StrictlyFalling(Prices(o, leaves, o.pages)) && PageLeaf(o, leaves, 0).PagePrice() <= top
    ensures Sweeps(o, leaves, top + 1, true, o.pages - 1) && o.LastLeaf(leaves).IsPage(o.base, o.quote)
    ensures o.LastLeaf(leaves).PagePrice() < Bound(o, leaves, top + 1, o.pages - 1)
  {
    hide Prices;
    var ps := Prices(o, leaves, o.pages);
    forall i | 0 <= i < o.pages ensures PageLeaf(o, leaves, i).PagePrice() < Bound(o, leaves, top + 1, i) {
      if i > 0 {
        assert ps[i] < ps[i - 1];
        assert ps[i] == PageLeaf(o, leaves, i).PagePrice() && ps[i - 1] == PageLeaf(o, leaves, i - 1).PagePrice();
      }
    }
    var first := top + 1;
    forall i | 0 <= i < o.pages - 1 ensures SweepsPage(o, leaves, first, true, i) {
      assert PageLeaf(o, leaves, i).IsPage(o.base, o.quote);
    }
    assert PageLeaf(o, leaves, o.pages - 1) == o.LastLeaf(leaves);
  }

  /** What the code asks of an ask that trades, whether or not something is left of it. */
  predicate AskSweeps(o: Order, leaves: seq<Leaf>)
    requires o.Shapes(leaves)
  {
    var best, last := o.BestPrices(leaves), o.LastLeaf(leaves);
    && o.pages > 0 && o.price <= best.before.right && Fits(best.before.right + 1)
    && Sweeps(o, leaves, best.before.right + 1, true, o.pages - 1)
    && last.IsPage(o.base, o.quote) && last.SumsFit()
    && best.after.right <= last.PagePrice() < Bound(o, leaves, best.before.right + 1, o.pages - 1)
    && Fits(SweptDepth(o, leaves) + last.before.Total())
  }

  lemma AskWalksIff(o: Order, leaves: seq<Leaf>)
    requires o.Shapes(leaves)
    ensures AskSweeps(o, leaves) <==> AskWalks(o, leaves)
  {
    hide Sweeps, Bound, PagesEmptied, StrictlyFalling, Prices, Depth;
    if o.pages > 0 {
      DepthSplits(o, leaves);
      AskSweepsIff(o, leaves, o.BestPrices(leaves).before.right);
      LastIsPage(o, leaves);
    }
  }

  lemma AskSweptIs(o: Order, leaves: seq<Leaf>)
    requires o.Shapes(leaves) && AskSweeps(o, leaves)
    ensures DepthRemoved(o, leaves) == SweptDepth(o, leaves) - o.LastLeaf(leaves).Change()
    ensures AllDepth(o, leaves) == SweptDepth(o, leaves) + o.LastLeaf(leaves).before.Total()
  {
    hide Bound;
    DepthSplits(o, leaves);
    RemovedSplits(o, leaves, o.BestPrices(leaves).before.right + 1, true);
  }

  /** The conditions of the code are the market conditions. */
  lemma AskMarketIff(o: Order, leaves: seq<Leaf>)
    requires o.Shapes(leaves)
    ensures AskMovesBook(o, leaves) && AskMovesPages(o, leaves) <==> AskMarket(o, leaves)
  {
    AskWalksIff(o, leaves);
    hide AskWalks, Sweeps, Bound, SweptDepth, AllDepth, DepthRemoved;
    if AskSweeps(o, leaves) {
      AskSweptIs(o, leaves);
    }
  }

  lemma LastIsPage(o: Order, leaves: seq<Leaf>)
    requires o.Shapes(leaves) && o.pages > 0
    ensures PageLeaf(o, leaves, o.pages - 1) == o.LastLeaf(leaves)
    ensures PagesEmptied(o, leaves) ==> o.LastLeaf(leaves).IsPage(o.base, o.quote)
  {
  }

  /** Exactly these asks are accepted. */
  lemma AskAcceptedIff(o: Order, d: Account, reserves: Reserves, leaves: seq<Leaf>)
    ensures AskAccepted(o, d, reserves, leaves) <==>
              && o.Shapes(leaves) && PartiesOk(o, d, reserves, leaves, true)
              && 0 - MakerChange(leaves, o.makers, 2) <= U128_MAX && 0 <= 0 - MakerChange(leaves, o.makers, 2)
              && Balanced(o, leaves, AskBaseFee(o, leaves), AskQuoteFee(o, leaves))
              && AskMarket(o, leaves)
  {
    hide AskMovesBook, AskMovesPages, AskMarket, PartiesOk, Balanced, MakerChange;
    if o.Shapes(leaves) {
      AskMarketIff(o, leaves);
    }
  }

  // ---- bids ----

  predicate BidWalks(o: Order, leaves: seq<Leaf>)
    requires o.Shapes(leaves)
  {
    var best, n := o.BestPrices(leaves), o.pages - 1;
    && o.pages > 0 && PagesEmptied(o, leaves)
    && best.before.left <= o.price
    && NeverFalling(Prices(o, leaves, n))
    && (n > 0 ==> best.before.left <= PageLeaf(o, leaves, 0).PagePrice())
    && o.LastLeaf(leaves).SumsFit() && AllDepth(o, leaves) <= U128_MAX
  }

  /** A bid: the asks it takes come off the ask side and off the makers' base; what it leaves goes to the bid
      side, for the rest of the amount. */
  predicate BidMarket(o: Order, leaves: seq<Leaf>)
    requires o.Shapes(leaves)
  {
    var book, best, last := leaves[0], o.BestPrices(leaves), o.LastLeaf(leaves);
    var taken, rests := Taken(book.before.left, book.after.left), Taken(book.after.right, book.before.right);
    && best.IsSymbol(o.base, o.quote)
    && taken >= 0 && rests >= 0
    && MakerChange(leaves, o.makers, 1) + taken == 0
    && (rests > 0 ==> rests + taken == o.amount)
    && (taken > 0 ==> BidWalks(o, leaves))
    && (taken > 0 && rests == 0 ==>
          best.after.right == best.before.right && DepthRemoved(o, leaves) == o.TakerBase(leaves).Change() + BidBaseFee(o, leaves))
    && (taken > 0 && rests > 0 ==>
          && best.after.right == o.price && last.PagePrice() == o.price
          && AllDepth(o, leaves) + last.after.Total() == o.amount <= U128_MAX)
    && (taken == 0 ==> best.after.left == best.before.left)
    && (taken == 0 && rests > 0 ==>
          && last.IsPage(o.base, o.quote) && last.SumsFit()
          && last.PagePrice() == o.price
          && last.after.Total() - last.before.Total() == o.amount)
  }

  lemma BidSweepsRise(o: Order, leaves: seq<Leaf>, first: nat)
    requires o.Shapes(leaves) && o.pages > 0
    requires Sweeps(o, leaves, first, false, o.pages - 1) && o.LastLeaf(leaves).IsPage(o.base, o.quote)
    ensures PagesEmptied(o, leaves) && NeverFalling(Prices(o, leaves, o.pages - 1))
    ensures o.pages > 1 ==> first <= PageLeaf(o, leaves, 0).PagePrice()
  {
    hide Prices, Bound, Swept;
    var n := o.pages - 1;
    var ps := Prices(o, leaves, n);
    BidChains(o, leaves, first, n);
    forall i | 0 <= i < n
      ensures PageLeaf(o, leaves, i).IsPage(o.base, o.quote)
      ensures PageLeaf(o, leaves, i).after == Pair(0, 0) && PageLeaf(o, leaves, i).before.Total() <= U128_MAX
    {
      SweptPage(o, leaves, first, i);
      SweptFits(o, leaves, first, i);
    }
    forall i | 1 <= i < n ensures ps[i - 1] <= ps[i] {
      assert Floor(ps, first, i) <= ps[i];
    }
    if n > 0 {
      assert Floor(ps, first, 0) <= ps[0];
    }
    assert PageLeaf(o, leaves, n) == o.LastLeaf(leaves);
  }

  lemma SweptFits(o: Order, leaves: seq<Leaf>, first: nat, i: nat)
    requires o.Shapes(leaves) && i + 1 < o.pages && Sweeps(o, leaves, first, false, o.pages - 1)
    ensures PageLeaf(o, leaves, i).before.Total() <= U128_MAX
  {
    assert SweepsPage(o, leaves, first, false, i);
  }

  lemma RisingSweeps(o: Order, leaves: seq<Leaf>, first: nat)
    requires o.Shapes(leaves) && o.pages > 0
    requires PagesEmptied(o, leaves) && NeverFalling(Prices(o, leaves, o.pages - 1))
    requires o.pages > 1 ==> first <= PageLeaf(o, leaves, 0).PagePrice()
    ensures Sweeps(o, leaves, first, false, o.pages - 1) && o.LastLeaf(leaves).IsPage(o.base, o.quote)
  {
    hide Prices;
    var ps := Prices(o, leaves, o.pages - 1);
    forall i | 0 <= i < o.pages - 1 ensures SweepsPage(o, leaves, first, false, i) {
      if i > 0 {
        assert ps[i - 1] <= ps[i];
        assert ps[i] == PageLeaf(o, leaves, i).PagePrice() && ps[i - 1] == PageLeaf(o, leaves, i - 1).PagePrice();
      }
      assert PageLeaf(o, leaves, i).IsPage(o.base, o.quote);
    }
    assert PageLeaf(o, leaves, o.pages - 1) == o.LastLeaf(leaves);
  }

  lemma BidSweepsIff(o: Order, leaves: seq<Leaf>, first: nat)
    requires o.Shapes(leaves) && o.pages > 0
    ensures Sweeps(o, leaves, first, false, o.pages - 1) && o.LastLeaf(leaves).IsPage(o.base, o.quote)
            <==>
            (&& PagesEmptied(o, leaves) && NeverFalling(Prices(o, leaves, o.pages - 1))
             && (o.pages > 1 ==> first <= PageLeaf(o, leaves, 0).PagePrice()))
  {
    hide Sweeps, PagesEmptied, NeverFalling, Prices;
    if Sweeps(o, leaves, first, false, o.pages - 1) && o.LastLeaf(leaves).IsPage(o.base, o.quote) {
      BidSweepsRise(o, leaves, first);
    }
    if PagesEmptied(o, leaves) && NeverFalling(Prices(o, leaves, o.pages - 1)) && (o.pages > 1 ==> first <= PageLeaf(o, leaves, 0).PagePrice()) {
      RisingSweeps(o, leaves, first);
    }
  }

  lemma BidMarketIff(o: Order, leaves: seq<Leaf>)
    requires o.Shapes(leaves)
    ensures BidMovesBook(o, leaves) && BidMovesPages(o, leaves) <==> BidMarket(o, leaves)
  {
    hide Sweeps, Bound, PagesEmptied, NeverFalling, Prices, Depth, DepthRemoved, MakerChange, BidBaseFee;
    var first := o.BestPrices(leaves).before.left;
    if o.pages > 0 {
      DepthSplits(o, leaves);
      BidSweepsIff(o, leaves, first);
      if Sweeps(o, leaves, first, false, o.pages - 1) {
        RemovedSplits(o, leaves, first, false);
      }
      LastIsPage(o, leaves);
    }
  }

  /** Exactly these bids are accepted. */
  lemma BidAcceptedIff(o: Order, d: Account, reserves: Reserves, leaves: seq<Leaf>)
    ensures BidAccepted(o, d, reserves, leaves) <==>
              && o.Shapes(leaves) && PartiesOk(o, d, reserves, leaves, false)
              && 0 - MakerChange(leaves, o.makers, 1) <= U128_MAX && 0 <= 0 - MakerChange(leaves, o.makers, 1)
              && Balanced(o, leaves, BidBaseFee(o, leaves), BidQuoteFee(o, leaves))
              && BidMarket(o, leaves)
  {
    hide BidMovesBook, BidMovesPages, BidMarket, PartiesOk, Balanced, MakerChange;
    if o.Shapes(leaves) {
      BidMarketIff(o, leaves);
    }
  }
}
