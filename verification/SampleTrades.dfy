/** Concrete orders that pass every check, so that what is proved of accepted orders is about something. */
module SampleTrades {
  import opened MapSums
  import opened VerifierTypes
  import opened Orders
  import opened OrderBook

  const DEX: Account := 100
  const SELLER: Account := 7
  const BUYER: Account := 8
  const BASE: Token := 1
  const QUOTE: Token := 2

  /** Five base at ten quote each; 20% go to the maker fee and 10% to the taker fee. */
  predicate IsOrder(o: Order) { o == Order(10, 5, 200_000, 100_000, BASE, QUOTE, 1, 1) }

  /** What the exchange holds before the trade. */
  predicate IsLedger(r: Reserves) {
    && Get(r, AuthorizedKey(BUYER, QUOTE, DEX)) == 50 && Get(r, AuthorizedKey(SELLER, BASE, DEX)) == 5
    && Get(r, AuthorizedKey(BUYER, BASE, DEX)) == 0 && Get(r, AuthorizedKey(SELLER, QUOTE, DEX)) == 0
  }

  predicate IsAsk(l: seq<Leaf>) {
    && |l| == 7
    && l[0] == Leaf(BookKey(BASE, QUOTE), Pair(0, 5), Pair(0, 0))
    && l[1] == Leaf(AccountKey(BASE, BUYER), Pair(0, 0), Pair(4, 0))
    && l[2] == Leaf(AccountKey(QUOTE, BUYER), Pair(0, 50), Pair(0, 0))
    && l[3] == Leaf(AccountKey(BASE, SELLER), Pair(5, 0), Pair(0, 0))
    && l[4] == Leaf(AccountKey(QUOTE, SELLER), Pair(0, 0), Pair(45, 0))
    && l[5] == Leaf(BestPriceKey(BASE, QUOTE), Pair(0, 10), Pair(0, 0))
    && l[6] == Leaf(PageKey(BASE, QUOTE, 10), Pair(0, 5), Pair(0, 0))
  }

  /** The same trade with the buyer as the taker. */
  predicate IsBid(l: seq<Leaf>) {
    && |l| == 7
    && l[0] == Leaf(BookKey(BASE, QUOTE), Pair(5, 0), Pair(0, 0))
    && l[1] == Leaf(AccountKey(BASE, SELLER), Pair(0, 5), Pair(0, 0))
    && l[2] == Leaf(AccountKey(QUOTE, SELLER), Pair(0, 0), Pair(40, 0))
    && l[3] == Leaf(AccountKey(BASE, BUYER), Pair(0, 0), Pair(4, 0))
    && l[4] == Leaf(AccountKey(QUOTE, BUYER), Pair(50, 0), Pair(0, 0))
    && l[5] == Leaf(BestPriceKey(BASE, QUOTE), Pair(10, 0), Pair(0, 0))
    && l[6] == Leaf(PageKey(BASE, QUOTE, 10), Pair(5, 0), Pair(0, 0))
  }

  lemma TwoLeavesSum(l: seq<Leaf>)
    requires |l| > 2
    ensures MakerChange(l, 1, 1) == l[1].Change() && MakerChange(l, 1, 2) == l[2].Change()
  {
    assert MakerChange(l, 0, 1) == 0 && MakerChange(l, 0, 2) == 0;
  }

  lemma AnAskIsAccepted(o: Order, r: Reserves, l: seq<Leaf>)
    requires IsOrder(o) && IsLedger(r) && IsAsk(l)
    ensures AskAccepted(o, DEX, r, l) && FilledAsk(o, l) && WellPlaced(o, l) && DistinctKeys(l)
    ensures AskClearing(o, l).baseFee == 1 && AskClearing(o, l).quoteFee == 5
  {
    hide MakerChange, Depth, Get;
    TwoLeavesSum(l);
    NoDepth(l);
    assert MakerOk(o, DEX, r, l, true, 0);
  }

  lemma NoDepth(l: seq<Leaf>)
    requires |l| >= 6
    ensures Depth(l, 6, 0) == 0
  {
  }

  lemma ABidIsAccepted(o: Order, r: Reserves, l: seq<Leaf>)
    requires IsOrder(o) && IsLedger(r) && IsBid(l)
    ensures BidAccepted(o, DEX, r, l) && FilledBid(o, l) && WellPlaced(o, l) && DistinctKeys(l)
    ensures BidClearing(o, l).baseFee == 1 && BidClearing(o, l).quoteFee == 10
  {
    hide MakerChange, Depth, Get;
    TwoLeavesSum(l);
    NoDepth(l);
    assert MakerOk(o, DEX, r, l, false, 0);
  }

  /** The same bid filled from a page below the old best ask. */
  predicate IsStrayBid(l: seq<Leaf>) {
    && |l| == 7 && IsBid(l[..6] + [Leaf(PageKey(BASE, QUOTE, 10), Pair(5, 0), Pair(0, 0))])
    && l[6] == Leaf(PageKey(BASE, QUOTE, 3), Pair(5, 0), Pair(0, 0))
  }

  /** The last page of a filled bid may lie below the best ask: and above the new one: the code's remark that
      pages stay between the old and the new best ask is not enforced. */
  lemma ABidMayTakeAStrayPage(o: Order, r: Reserves, l: seq<Leaf>)
    requires IsOrder(o) && IsLedger(r) && IsStrayBid(l)
    ensures BidAccepted(o, DEX, r, l) && FilledBid(o, l) && DistinctKeys(l)
    ensures o.LastLeaf(l).PagePrice() < o.BestPrices(l).before.left
    ensures o.BestPrices(l).after.left < o.LastLeaf(l).PagePrice()
  {
    hide MakerChange, Depth, Get;
    var m := l[..6] + [Leaf(PageKey(BASE, QUOTE, 10), Pair(5, 0), Pair(0, 0))];
    assert forall i :: 0 <= i < 6 ==> l[i] == m[i];
    TwoLeavesSum(l);
    NoDepth(l);
    assert MakerOk(o, DEX, r, l, false, 0);
  }

  // ---- an order without makers ----

  predicate IsSmallOrder(o: Order) { o == Order(10, 1, 200_000, 100_000, BASE, QUOTE, 0, 1) }

  /** A seller of one unit whom nobody meets: the whole unit is the rounded-up fee. */
  predicate IsLonelyAsk(l: seq<Leaf>) {
    && |l| == 5
    && l[0] == Leaf(BookKey(BASE, QUOTE), Pair(0, 5), Pair(0, 4))
    && l[1] == Leaf(AccountKey(BASE, SELLER), Pair(5, 0), Pair(4, 0))
    && l[2] == Leaf(AccountKey(QUOTE, SELLER), Pair(0, 0), Pair(0, 0))
    && l[3] == Leaf(BestPriceKey(BASE, QUOTE), Pair(0, 10), Pair(0, 10))
    && l[4] == Leaf(PageKey(BASE, QUOTE, 10), Pair(0, 5), Pair(0, 4))
  }

  /** An accepted order without makers can lower the taker's total by one, which the ledger does not
      follow: the gap between ledger and tree grows by one. */
  lemma ALonelyAskIsAccepted(o: Order, r: Reserves, l: seq<Leaf>)
    requires IsSmallOrder(o) && IsLedger(r) && IsLonelyAsk(l)
    ensures AskAccepted(o, DEX, r, l) && WellPlaced(o, l) && DistinctKeys(l)
    ensures o.makers == 0 && o.TakerBase(l).Change() == -1 && |AskClearing(o, l).users| == 1
  {
    hide Depth, Get;
    assert MakerChange(l, 0, 1) == 0 && MakerChange(l, 0, 2) == 0;
    assert Depth(l, 4, 0) == 0 by { NothingDeep(l); }
  }

  lemma NothingDeep(l: seq<Leaf>)
    requires |l| >= 4
    ensures Depth(l, 4, 0) == 0
  {
  }
}
