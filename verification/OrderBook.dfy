/** What acceptance of a limit order implies for the book and for the balances in its leaves. */
module OrderBook {
  import opened FixedPoint
  import opened VerifierTypes
  import opened Orders

  // ---- price pages ----

  function PageChange(leaves: seq<Leaf>, from: nat, n: nat): int
    requires from + n <= |leaves|
  {
    if n == 0 then 0 else PageChange(leaves, from, n - 1) + leaves[from + n - 1].Change()
  }

  /** Base that left the swept pages, summed over every page leaf of the order. */
  function DepthRemoved(o: Order, leaves: seq<Leaf>): int
    requires o.Shapes(leaves)
  {
    -PageChange(leaves, 2 * o.makers + 4, o.pages)
  }

  function PageLeaf(o: Order, leaves: seq<Leaf>, i: nat): Leaf
    requires o.Shapes(leaves) && i < o.pages
  {
    leaves[2 * o.makers + 4 + i]
  }

  lemma {:induction false} SweptChange(o: Order, leaves: seq<Leaf>, first: nat, descending: bool, n: nat)
    requires o.Shapes(leaves) && n <= o.pages
    requires Sweeps(o, leaves, first, descending, n)
    ensures PageChange(leaves, 2 * o.makers + 4, n) + Depth(leaves, 2 * o.makers + 4, n) == 0
  {
    if n > 0 {
      assert SweepsPage(o, leaves, first, descending, n - 1);
      SweptChange(o, leaves, first, descending, n - 1);
    }
  }

  predicate TradingAsk(o: Order, leaves: seq<Leaf>) requires o.Shapes(leaves) {
    leaves[0].before.right != leaves[0].after.right
  }

  predicate TradingBid(o: Order, leaves: seq<Leaf>) requires o.Shapes(leaves) {
    leaves[0].before.left != leaves[0].after.left
  }

  /** No remainder goes onto the book. */
  predicate FilledAsk(o: Order, leaves: seq<Leaf>) requires o.Shapes(leaves) {
    TradingAsk(o, leaves) && leaves[0].before.left == leaves[0].after.left
  }

  predicate FilledBid(o: Order, leaves: seq<Leaf>) requires o.Shapes(leaves) {
    TradingBid(o, leaves) && leaves[0].before.right == leaves[0].after.right
  }

  function Prices(o: Order, leaves: seq<Leaf>, n: nat): (ps: seq<nat>)
    requires o.Shapes(leaves) && n <= o.pages
    ensures |ps| == n
    ensures forall i :: 0 <= i < n ==> ps[i] == PageLeaf(o, leaves, i).PagePrice()
  {
    if n == 0 then [] else Prices(o, leaves, n - 1) + [PageLeaf(o, leaves, n - 1).PagePrice()]
  }

  function Ceiling(ps: seq<nat>, first: nat, i: nat): nat
    requires i < |ps|
  {
    if i == 0 then first else ps[i - 1]
  }

  predicate Chained(ps: seq<nat>, first: nat) {
    forall i :: 0 <= i < |ps| ==> ps[i] < Ceiling(ps, first, i)
  }

  lemma {:induction false} ChainDescends(ps: seq<nat>, first: nat, i: nat, j: nat)
    requires Chained(ps, first) && i <= j < |ps|
    ensures ps[j] < first
    ensures i < j ==> ps[j] < ps[i]
  {
    assert ps[j] < Ceiling(ps, first, j);
    if 0 < j {
      ChainDescends(ps, first, if i < j then i else j - 1, j - 1);
    }
  }

  lemma AskChains(o: Order, leaves: seq<Leaf>, first: nat)
    requires o.Shapes(leaves) && o.pages > 0
    requires Sweeps(o, leaves, first, true, o.pages - 1)
    requires o.LastLeaf(leaves).PagePrice() < Bound(o, leaves, first, o.pages - 1)
    ensures Chained(Prices(o, leaves, o.pages), first)
  {
    var ps := Prices(o, leaves, o.pages);
    forall i | 0 <= i < o.pages
      ensures ps[i] < Ceiling(ps, first, i)
    {
      if i < o.pages - 1 {
        assert SweepsPage(o, leaves, first, true, i);
      }
      assert PageLeaf(o, leaves, i).PagePrice() < Bound(o, leaves, first, i);
    }
  }

  /** A trading ask walks the bid side down: strictly descending pages between the new and the old
      best bid, each but the last emptied. */
  lemma AskWalksDown(o: Order, d: Account, reserves: Reserves, leaves: seq<Leaf>)
    requires AskAccepted(o, d, reserves, leaves) && TradingAsk(o, leaves)
    ensures o.pages > 0 && o.price <= o.BestPrices(leaves).before.right
    ensures forall i, j :: 0 <= i < j < o.pages ==> Prices(o, leaves, o.pages)[j] < Prices(o, leaves, o.pages)[i]
    ensures forall i :: 0 <= i < o.pages ==>
                          o.BestPrices(leaves).after.right <= Prices(o, leaves, o.pages)[i] <= o.BestPrices(leaves).before.right
    ensures forall i :: 0 <= i < o.pages ==> PageLeaf(o, leaves, i).IsPage(o.base, o.quote)
    ensures forall i :: 0 <= i < o.pages - 1 ==> PageLeaf(o, leaves, i).after == Pair(0, 0)
  {
    hide PartiesOk, Balanced, AskMovesBook, MakerChange, SweptDepth;
    var ps, first, last := Prices(o, leaves, o.pages), o.BestPrices(leaves).before.right + 1, o.pages - 1;
    AskChains(o, leaves, first);
    forall i, j | 0 <= i < j < o.pages ensures ps[j] < ps[i] {
      ChainDescends(ps, first, i, j);
    }
    forall i | 0 <= i < o.pages ensures o.BestPrices(leaves).after.right <= ps[i] < first {
      ChainDescends(ps, first, i, last);
      ChainDescends(ps, first, i, i);
    }
    SweptPages(o, leaves, first);
  }

  lemma SweptPages(o: Order, leaves: seq<Leaf>, first: nat)
    requires o.Shapes(leaves) && o.pages > 0 && o.LastLeaf(leaves).IsPage(o.base, o.quote)
    requires Sweeps(o, leaves, first, true, o.pages - 1)
    ensures forall i :: 0 <= i < o.pages ==> PageLeaf(o, leaves, i).IsPage(o.base, o.quote)
    ensures forall i :: 0 <= i < o.pages - 1 ==> PageLeaf(o, leaves, i).after == Pair(0, 0)
  {
    forall i | 0 <= i < o.pages - 1
      ensures PageLeaf(o, leaves, i).IsPage(o.base, o.quote) && PageLeaf(o, leaves, i).after == Pair(0, 0)
    {
      assert SweepsPage(o, leaves, first, true, i);
    }
  }

  // ---- the ask side ----

  function Floor(ps: seq<nat>, first: nat, i: nat): nat
    requires i <= |ps|
  {
    if i == 0 then first else ps[i - 1]
  }

  predicate Rising(ps: seq<nat>, first: nat) {
    forall i :: 0 <= i < |ps| ==> Floor(ps, first, i) <= ps[i]
  }

  predicate Ascending(ps: seq<nat>) { forall i, j :: 0 <= i < j < |ps| ==> ps[i] < ps[j] }

  lemma TopOfAscending(ps: seq<nat>, best: nat)
    requires Ascending(ps)
    ensures (forall i :: 0 <= i < |ps| ==> ps[i] <= best) <==> (ps == [] || ps[|ps| - 1] <= best)
  {
    if ps != [] && ps[|ps| - 1] <= best {
      forall i | 0 <= i < |ps| ensures ps[i] <= best {
        assert i < |ps| - 1 ==> ps[i] < ps[|ps| - 1];
      }
    }
  }

  lemma {:induction false} ChainRises(ps: seq<nat>, first: nat, i: nat, j: nat)
    requires Rising(ps, first) && i <= j < |ps|
    ensures first <= ps[j] && ps[i] <= ps[j]
  {
    assert Floor(ps, first, j) <= ps[j];
    if 0 < j {
      ChainRises(ps, first, if i < j then i else j - 1, j - 1);
    }
  }

  lemma BoundIsFloor(o: Order, leaves: seq<Leaf>, first: nat, n: nat, i: nat)
    requires o.Shapes(leaves) && i <= n <= o.pages
    ensures Bound(o, leaves, first, i) == Floor(Prices(o, leaves, n), first, i)
  {
    hide Prices;
    if i > 0 {
      assert Prices(o, leaves, n)[i - 1] == PageLeaf(o, leaves, i - 1).PagePrice();
    }
  }

  lemma BidChains(o: Order, leaves: seq<Leaf>, first: nat, n: nat)
    requires o.Shapes(leaves) && n <= o.pages && Sweeps(o, leaves, first, false, n)
    ensures Rising(Prices(o, leaves, n), first)
  {
    hide Prices, Bound, Floor, Swept;
    var ps := Prices(o, leaves, n);
    forall i | 0 <= i < n ensures Floor(ps, first, i) <= ps[i] {
      assert SweepsPage(o, leaves, first, false, i);
      BoundIsFloor(o, leaves, first, n, i);
      assert ps[i] == PageLeaf(o, leaves, i).PagePrice();
    }
  }

  /** Two pages of one symbol under different keys have different prices. */
  lemma PagesDiffer(o: Order, leaves: seq<Leaf>, i: nat, j: nat)
    requires o.Shapes(leaves) && DistinctKeys(leaves) && i < j < o.pages
    requires PageLeaf(o, leaves, i).IsPage(o.base, o.quote) && PageLeaf(o, leaves, j).IsPage(o.base, o.quote)
    ensures PageLeaf(o, leaves, i).PagePrice() != PageLeaf(o, leaves, j).PagePrice()
  {
  }

  /** A trading bid walks the ask side up, from the old best ask and emptying as it goes, over every
      page but the last; the last one lies above them exactly when it is not below the final bound,
      which is not among the checks. */
  lemma BidWalksUp(o: Order, d: Account, reserves: Reserves, leaves: seq<Leaf>)
    requires BidAccepted(o, d, reserves, leaves) && TradingBid(o, leaves) && DistinctKeys(leaves)
    ensures o.pages > 0
    ensures var n, ps := o.pages - 1, Prices(o, leaves, o.pages - 1);
            && Ascending(ps)
            && (forall i :: 0 <= i < n ==> o.BestPrices(leaves).before.left <= ps[i])
            && (forall i :: 0 <= i < n ==> PageLeaf(o, leaves, i).after == Pair(0, 0))
    ensures var n, ps, p := o.pages - 1, Prices(o, leaves, o.pages - 1), o.LastLeaf(leaves).PagePrice();
            (o.BestPrices(leaves).before.left <= p && forall i :: 0 <= i < n ==> ps[i] < p)
            <==> Bound(o, leaves, o.BestPrices(leaves).before.left, n) <= p
  {
    BidSweeps(o, d, reserves, leaves);
    hide BidAccepted, Prices, Bound, Rising, Sweeps;
    var first, n := o.BestPrices(leaves).before.left, o.pages - 1;
    var ps, p := Prices(o, leaves, n), o.LastLeaf(leaves).PagePrice();
    BidChains(o, leaves, first, n);
    BoundIsFloor(o, leaves, first, n, n);
    forall i | 0 <= i < n
      ensures first <= ps[i] <= ps[n - 1] && PageLeaf(o, leaves, i).after == Pair(0, 0) && ps[i] != p
    {
      SweptPage(o, leaves, first, i);
      ChainRises(ps, first, i, n - 1);
      ChainRises(ps, first, i, i);
      PagesDiffer(o, leaves, i, n);
    }
    forall i, j | 0 <= i < j < n ensures ps[i] < ps[j] {
      SweptPage(o, leaves, first, i);
      SweptPage(o, leaves, first, j);
      ChainRises(ps, first, i, j);
      PagesDiffer(o, leaves, i, j);
    }
  }

  /** The pages of a trading bid stay within the new best ask exactly when its last two pages do. This is
      not among the checks either. */
  lemma BidStaysBelow(o: Order, d: Account, reserves: Reserves, leaves: seq<Leaf>)
    requires BidAccepted(o, d, reserves, leaves) && TradingBid(o, leaves) && DistinctKeys(leaves)
    ensures o.pages > 0
    ensures var n, ps, best := o.pages - 1, Prices(o, leaves, o.pages - 1), o.BestPrices(leaves).after.left;
            (o.LastLeaf(leaves).PagePrice() <= best && forall i :: 0 <= i < n ==> ps[i] <= best)
            <==> (o.LastLeaf(leaves).PagePrice() <= best && (n == 0 || ps[n - 1] <= best))
  {
    BidWalksUp(o, d, reserves, leaves);
    hide BidAccepted, Prices, Bound, Ascending;
    TopOfAscending(Prices(o, leaves, o.pages - 1), o.BestPrices(leaves).after.left);
  }

  lemma BidSweeps(o: Order, d: Account, reserves: Reserves, leaves: seq<Leaf>)
    requires BidAccepted(o, d, reserves, leaves) && TradingBid(o, leaves)
    ensures o.pages > 0 && Sweeps(o, leaves, o.BestPrices(leaves).before.left, false, o.pages - 1)
    ensures o.LastLeaf(leaves) == PageLeaf(o, leaves, o.pages - 1) && o.LastLeaf(leaves).IsPage(o.base, o.quote)
  {
    hide PartiesOk, Balanced, BidMovesBook, MakerChange, SweptDepth, Sweeps;
  }

  lemma SweptPage(o: Order, leaves: seq<Leaf>, first: nat, i: nat)
    requires o.Shapes(leaves) && i + 1 < o.pages && Sweeps(o, leaves, first, false, o.pages - 1)
    ensures PageLeaf(o, leaves, i).IsPage(o.base, o.quote) && PageLeaf(o, leaves, i).after == Pair(0, 0)
  {
    assert SweepsPage(o, leaves, first, false, i);
  }

  // ---- filled orders ----

  /** A filled ask: depth taken from the bid pages, the shrinkage of the bid side, the base given up
      by the seller and the base received by makers plus fee are one number. */
  lemma AskFillsMatch(o: Order, d: Account, reserves: Reserves, leaves: seq<Leaf>)
    requires AskAccepted(o, d, reserves, leaves) && FilledAsk(o, leaves)
    ensures DepthRemoved(o, leaves) == leaves[0].before.right - leaves[0].after.right
    ensures DepthRemoved(o, leaves) == -o.TakerBase(leaves).Change()
    ensures DepthRemoved(o, leaves) == MakerChange(leaves, o.makers, 1) + AskBaseFee(o, leaves)
    ensures o.TakerBase(leaves).before.right == o.TakerBase(leaves).after.right
  {
    SweptChange(o, leaves, o.BestPrices(leaves).before.right + 1, true, o.pages - 1);
  }

  /** The mirror image for a filled bid, whose sellers are the makers. */
  lemma BidFillsMatch(o: Order, d: Account, reserves: Reserves, leaves: seq<Leaf>)
    requires BidAccepted(o, d, reserves, leaves) && FilledBid(o, leaves)
    ensures DepthRemoved(o, leaves) == leaves[0].before.left - leaves[0].after.left
    ensures DepthRemoved(o, leaves) == -MakerChange(leaves, o.makers, 1)
    ensures DepthRemoved(o, leaves) == o.TakerBase(leaves).Change() + BidBaseFee(o, leaves)
  {
    SweptChange(o, leaves, o.BestPrices(leaves).before.left, false, o.pages - 1);
  }

  // ---- balances in the leaves ----

  /** Token balance over the first `n` leaves, before and after the order. */
  function HeldBefore(leaves: seq<Leaf>, n: nat, t: Token): nat
    requires n <= |leaves|
  {
    if n == 0 then 0
    else HeldBefore(leaves, n - 1, t) + if leaves[n - 1].Holds(t) then leaves[n - 1].before.Total() else 0
  }

  function HeldAfter(leaves: seq<Leaf>, n: nat, t: Token): nat
    requires n <= |leaves|
  {
    if n == 0 then 0
    else HeldAfter(leaves, n - 1, t) + if leaves[n - 1].Holds(t) then leaves[n - 1].after.Total() else 0
  }

  /** Book, best-price and page positions do not hold account keys. */
  predicate WellPlaced(o: Order, leaves: seq<Leaf>)
    requires o.Shapes(leaves)
  {
    && !leaves[0].key.AccountKey?
    && forall i :: 2 * o.makers + 3 <= i < |leaves| ==> !leaves[i].key.AccountKey?
  }

  lemma {:induction false} MakersHold(o: Order, d: Account, reserves: Reserves, leaves: seq<Leaf>, takerSells: bool, n: nat)
    requires o.Shapes(leaves) && WellPlaced(o, leaves) && o.base != o.quote && n <= o.makers
    requires MakersOk(o, d, reserves, leaves, takerSells, n)
    ensures HeldAfter(leaves, 2 * n + 1, o.base) - HeldBefore(leaves, 2 * n + 1, o.base) == MakerChange(leaves, n, 1)
    ensures HeldAfter(leaves, 2 * n + 1, o.quote) - HeldBefore(leaves, 2 * n + 1, o.quote) == MakerChange(leaves, n, 2)
  {
    if n > 0 {
      assert MakerOk(o, d, reserves, leaves, takerSells, n - 1);
      MakersHold(o, d, reserves, leaves, takerSells, n - 1);
    }
  }

  lemma {:induction false} TailHoldsNothing(leaves: seq<Leaf>, from: nat, n: nat, t: Token)
    requires from <= n <= |leaves|
    requires forall i :: from <= i < n ==> !leaves[i].key.AccountKey?
    ensures HeldBefore(leaves, n, t) == HeldBefore(leaves, from, t)
    ensures HeldAfter(leaves, n, t) == HeldAfter(leaves, from, t)
  {
    if from < n {
      TailHoldsNothing(leaves, from, n - 1, t);
    }
  }

  lemma PartiesConserve(o: Order, d: Account, reserves: Reserves, leaves: seq<Leaf>, takerSells: bool, baseFee: nat, quoteFee: nat)
    requires o.Shapes(leaves) && WellPlaced(o, leaves) && DistinctKeys(leaves)
    requires PartiesOk(o, d, reserves, leaves, takerSells) && Balanced(o, leaves, baseFee, quoteFee)
    ensures o.base != o.quote
    ensures HeldBefore(leaves, |leaves|, o.base) == HeldAfter(leaves, |leaves|, o.base) + baseFee
    ensures HeldBefore(leaves, |leaves|, o.quote) == HeldAfter(leaves, |leaves|, o.quote) + quoteFee
  {
    var m := 2 * o.makers;
    assert leaves[m + 1].key != leaves[m + 2].key;
    MakersHold(o, d, reserves, leaves, takerSells, o.makers);
    TailHoldsNothing(leaves, m + 3, |leaves|, o.base);
    TailHoldsNothing(leaves, m + 3, |leaves|, o.quote);
  }

  /** Whatever the number of makers, an accepted ask only moves balances and pays the fees. */
  lemma AskConserves(o: Order, d: Account, reserves: Reserves, leaves: seq<Leaf>)
    requires AskAccepted(o, d, reserves, leaves) && WellPlaced(o, leaves) && DistinctKeys(leaves)
    ensures HeldBefore(leaves, |leaves|, o.base)
            == HeldAfter(leaves, |leaves|, o.base) + AskClearing(o, leaves).baseFee
    ensures HeldBefore(leaves, |leaves|, o.quote)
            == HeldAfter(leaves, |leaves|, o.quote) + AskClearing(o, leaves).quoteFee
  {
    PartiesConserve(o, d, reserves, leaves, true, AskBaseFee(o, leaves), AskQuoteFee(o, leaves));
  }

  lemma BidConserves(o: Order, d: Account, reserves: Reserves, leaves: seq<Leaf>)
    requires BidAccepted(o, d, reserves, leaves) && WellPlaced(o, leaves) && DistinctKeys(leaves)
    ensures HeldBefore(leaves, |leaves|, o.base)
            == HeldAfter(leaves, |leaves|, o.base) + BidClearing(o, leaves).baseFee
    ensures HeldBefore(leaves, |leaves|, o.quote)
            == HeldAfter(leaves, |leaves|, o.quote) + BidClearing(o, leaves).quoteFee
  {
    PartiesConserve(o, d, reserves, leaves, false, BidBaseFee(o, leaves), BidQuoteFee(o, leaves));
  }

  /** Without makers a fee of at most one half pins the taker down to a single unit of fee. */
  lemma MakerlessAsk(o: Order, d: Account, reserves: Reserves, leaves: seq<Leaf>)
    requires AskAccepted(o, d, reserves, leaves) && o.makers == 0 && o.makerFee <= MILLION / 2
    ensures -1 <= o.TakerBase(leaves).Change() <= 0
    ensures o.TakerQuote(leaves).Change() == 0
  {
    HalfFeeTakesAll(o.makerFee, Abs(o.TakerBase(leaves).Change()));
    NoFeeOnNothing(o.takerFee);
  }

  lemma MakerlessBid(o: Order, d: Account, reserves: Reserves, leaves: seq<Leaf>)
    requires BidAccepted(o, d, reserves, leaves) && o.makers == 0 && o.makerFee <= MILLION / 2
    ensures o.TakerBase(leaves).Change() == 0
    ensures -1 <= o.TakerQuote(leaves).Change() <= 0
  {
    HalfFeeTakesAll(o.makerFee, Abs(o.TakerQuote(leaves).Change()));
    NoFeeOnNothing(o.takerFee);
  }
}
