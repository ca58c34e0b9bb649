/** Orders that rest on the book, wholly or for what is left of them: what acceptance says about them, and that
    every honest one is accepted. */
module RestingOrders {
  import opened FixedPoint
  import opened MapSums
  import opened VerifierTypes
  import opened Orders
  import opened OrderBook
  import opened OrderMarkets

  predicate RestingAsk(o: Order, leaves: seq<Leaf>) requires o.Shapes(leaves) {
    leaves[0].before.right == leaves[0].after.right && leaves[0].after.left != leaves[0].before.left
  }

  predicate RestingBid(o: Order, leaves: seq<Leaf>) requires o.Shapes(leaves) {
    leaves[0].before.left == leaves[0].after.left && leaves[0].after.right != leaves[0].before.right
  }

  // ---- what acceptance says ----

  /** An accepted ask that only rests: its page lies above the best bid and gains exactly the amount, which
      moves from the available to the frozen half of the seller's base; nobody's base total moves. */
  lemma RestingAskMoves(o: Order, d: Account, reserves: Reserves, leaves: seq<Leaf>)
    requires AskAccepted(o, d, reserves, leaves) && RestingAsk(o, leaves)
    ensures var b, best, page := o.TakerBase(leaves), o.BestPrices(leaves), o.LastLeaf(leaves);
            && leaves[0].before.left < leaves[0].after.left
            && best.after.right == best.before.right
            && page.IsPage(o.base, o.quote) && best.before.right < page.PagePrice()
            && page.after.Total() == page.before.Total() + o.amount
            && b.before.left == b.after.left + o.amount && b.after.right == b.before.right + o.amount
            && MakerChange(leaves, o.makers, 1) == 0
            && (MakerChange(leaves, o.makers, 2) == 0 ==> o.TakerQuote(leaves).Change() == 0)
  {
    hide AskAccepted, AskMarket, PartiesOk, MakerChange, DepthRemoved;
    AskAcceptedIff(o, d, reserves, leaves);
    AskMarketRests(o, leaves);
  }

  lemma AskMarketRests(o: Order, leaves: seq<Leaf>)
    requires o.Shapes(leaves) && AskMarket(o, leaves) && RestingAsk(o, leaves)
    ensures var b, best, page := o.TakerBase(leaves), o.BestPrices(leaves), o.LastLeaf(leaves);
            && leaves[0].before.left < leaves[0].after.left
            && best.after.right == best.before.right
            && page.IsPage(o.base, o.quote) && best.before.right < page.PagePrice()
            && page.after.Total() == page.before.Total() + o.amount
            && b.before.left == b.after.left + o.amount && b.after.right == b.before.right + o.amount
            && b.Change() == 0
  {
    hide AskWalks, DepthRemoved, AllDepth;
  }

  /** An accepted bid that only rests: its page has the bid's own price and gains exactly the amount, as does the
      bid side; the best ask stays, and the makers' base does not move. */
  lemma RestingBidMoves(o: Order, d: Account, reserves: Reserves, leaves: seq<Leaf>)
    requires BidAccepted(o, d, reserves, leaves) && RestingBid(o, leaves)
    ensures var best, page := o.BestPrices(leaves), o.LastLeaf(leaves);
            && leaves[0].after.right == leaves[0].before.right + o.amount
            && best.after.left == best.before.left
            && page.IsPage(o.base, o.quote) && page.PagePrice() == o.price
            && page.after.Total() == page.before.Total() + o.amount
            && MakerChange(leaves, o.makers, 1) == 0 && o.TakerBase(leaves).Change() == 0
  {
    hide BidAccepted, BidMarket, PartiesOk, MakerChange;
    BidAcceptedIff(o, d, reserves, leaves);
    BidMarketRests(o, leaves);
  }

  lemma BidMarketRests(o: Order, leaves: seq<Leaf>)
    requires o.Shapes(leaves) && BidMarket(o, leaves) && RestingBid(o, leaves)
    ensures var best, page := o.BestPrices(leaves), o.LastLeaf(leaves);
            && leaves[0].after.right == leaves[0].before.right + o.amount
            && best.after.left == best.before.left
            && page.IsPage(o.base, o.quote) && page.PagePrice() == o.price
            && page.after.Total() == page.before.Total() + o.amount
            && MakerChange(leaves, o.makers, 1) == 0
  {
    hide BidWalks, DepthRemoved, AllDepth, MakerChange;
  }

  /** An accepted ask that trades and leaves something: it trades down to its own price, where depth taken and
      depth left add up to the amount; the available base pays for all of it. */
  lemma PartialAskMoves(o: Order, d: Account, reserves: Reserves, leaves: seq<Leaf>)
    requires AskAccepted(o, d, reserves, leaves) && TradingAsk(o, leaves) && !FilledAsk(o, leaves)
    ensures var b, best, page := o.TakerBase(leaves), o.BestPrices(leaves), o.LastLeaf(leaves);
            && page.IsPage(o.base, o.quote) && page.PagePrice() == o.price == best.after.left
            && best.after.right <= o.price <= best.before.right
            && AllDepth(o, leaves) + page.after.Total() == o.amount
            && b.before.left == b.after.left + o.amount
            && b.before.Total() - b.after.Total() == leaves[0].before.right - leaves[0].after.right
            && leaves[0].before.left < leaves[0].after.left
  {
    hide AskAccepted, AskMarket, PartiesOk, MakerChange, Balanced, DepthRemoved, AllDepth;
    AskAcceptedIff(o, d, reserves, leaves);
    AskMarketPartly(o, leaves);
  }

  lemma AskMarketPartly(o: Order, leaves: seq<Leaf>)
    requires o.Shapes(leaves) && AskMarket(o, leaves) && TradingAsk(o, leaves) && !FilledAsk(o, leaves)
    ensures var b, best, page := o.TakerBase(leaves), o.BestPrices(leaves), o.LastLeaf(leaves);
            && page.IsPage(o.base, o.quote) && page.PagePrice() == o.price == best.after.left
            && best.after.right <= o.price <= best.before.right
            && AllDepth(o, leaves) + page.after.Total() == o.amount
            && b.before.left == b.after.left + o.amount
            && b.before.Total() - b.after.Total() == leaves[0].before.right - leaves[0].after.right
            && leaves[0].before.left < leaves[0].after.left
  {
    hide DepthRemoved, AllDepth, StrictlyFalling, PagesEmptied;
    assert AskWalks(o, leaves);
    LastIsPage(o, leaves);
  }

  /** An accepted bid that trades and leaves something: what it takes and what it leaves on the bid side add up to
      the amount, at its own price, which is at least the old best ask. */
  lemma PartialBidMoves(o: Order, d: Account, reserves: Reserves, leaves: seq<Leaf>)
    requires BidAccepted(o, d, reserves, leaves) && TradingBid(o, leaves) && !FilledBid(o, leaves)
    ensures var book, best, page := leaves[0], o.BestPrices(leaves), o.LastLeaf(leaves);
            && page.IsPage(o.base, o.quote) && page.PagePrice() == o.price == best.after.right
            && best.before.left <= o.price
            && AllDepth(o, leaves) + page.after.Total() == o.amount
            && (book.after.right - book.before.right) + (book.before.left - book.after.left) == o.amount
            && book.before.right < book.after.right && book.after.left < book.before.left
            && MakerChange(leaves, o.makers, 1) == book.after.left - book.before.left
  {
    hide BidAccepted, BidMarket, PartiesOk, MakerChange, Balanced, AllDepth;
    BidAcceptedIff(o, d, reserves, leaves);
    BidMarketPartly(o, leaves);
  }

  lemma BidMarketPartly(o: Order, leaves: seq<Leaf>)
    requires o.Shapes(leaves) && BidMarket(o, leaves) && TradingBid(o, leaves) && !FilledBid(o, leaves)
    ensures var book, best, page := leaves[0], o.BestPrices(leaves), o.LastLeaf(leaves);
            && page.IsPage(o.base, o.quote) && page.PagePrice() == o.price == best.after.right
            && best.before.left <= o.price
            && AllDepth(o, leaves) + page.after.Total() == o.amount
            && (book.after.right - book.before.right) + (book.before.left - book.after.left) == o.amount
            && book.before.right < book.after.right && book.after.left < book.before.left
            && MakerChange(leaves, o.makers, 1) == book.after.left - book.before.left
  {
    hide DepthRemoved, AllDepth, NeverFalling, PagesEmptied, MakerChange, BidBaseFee;
    assert BidWalks(o, leaves);
    LastIsPage(o, leaves);
  }

  // ---- every honest one is accepted ----

  /** What the tree holds before an order of one user on one symbol touching one page. */
  datatype Market = Market(base: Token, quote: Token, book: Pair, best: Pair, page: Pair, user: Account, baseHeld: Pair, quoteHeld: Pair)

  predicate Fitting(m: Market) {
    m.baseHeld.Total() <= U128_MAX && m.quoteHeld.Total() <= U128_MAX && m.page.Total() <= U128_MAX
  }

  /** The ledger is as close to the tree as the checks ask. */
  predicate Near(reserves: Reserves, d: Account, u: Account, t: Token, held: Pair) {
    Abs(Get(reserves, AuthorizedKey(u, t, d)) - held.Total()) <= 100_000_000_000
  }

  /** The amount joins the ask side, the page, and the frozen half of the seller's base. */
  function AskRests(m: Market, price: nat, amount: nat, bestAsk: nat): seq<Leaf>
    requires amount <= m.baseHeld.left
  {
    [Leaf(BookKey(m.base, m.quote), m.book, Pair(m.book.left + amount, m.book.right)),
     Leaf(AccountKey(m.base, m.user), m.baseHeld, Pair(m.baseHeld.left - amount, m.baseHeld.right + amount)),
     Leaf(AccountKey(m.quote, m.user), m.quoteHeld, m.quoteHeld),
     Leaf(BestPriceKey(m.base, m.quote), m.best, Pair(bestAsk, m.best.right)),
     Leaf(PageKey(m.base, m.quote, price), m.page, Pair(m.page.left + amount, m.page.right))]
  }

  lemma NoMakers(l: seq<Leaf>)
    requires |l| > 0
    ensures MakerChange(l, 0, 1) == 0 && MakerChange(l, 0, 2) == 0
  {
  }

  /** Every such ask above the best bid is accepted, also when there is no bid at all, and charges nothing. */
  lemma AskRestsAccepted(o: Order, d: Account, reserves: Reserves, m: Market, price: nat, bestAsk: nat)
    requires o.base == m.base && o.quote == m.quote && o.makers == 0 && o.pages == 1
    requires 0 < o.amount <= m.baseHeld.left && m.best.right < price
    requires Fitting(m) && m.page.Total() + o.amount <= U128_MAX
    requires Near(reserves, d, m.user, m.base, m.baseHeld) && Near(reserves, d, m.user, m.quote, m.quoteHeld)
    ensures AskAccepted(o, d, reserves, AskRests(m, price, o.amount, bestAsk))
    ensures var cl := AskClearing(o, AskRests(m, price, o.amount, bestAsk));
            cl.baseFee == 0 && cl.quoteFee == 0 && |cl.users| == 1
  {
    var l := AskRests(m, price, o.amount, bestAsk);
    NoMakers(l);
    NoFeeOnNothing(o.makerFee);
    NoFeeOnNothing(o.takerFee);
    hide MakerChange, Depth, Get, MulCeil;
  }

  /** The amount joins the bid side and the page; `cost` of the quote is frozen for it. */
  function BidRests(m: Market, price: nat, amount: nat, cost: nat, bestBid: nat): seq<Leaf>
    requires cost <= m.quoteHeld.left
  {
    [Leaf(BookKey(m.base, m.quote), m.book, Pair(m.book.left, m.book.right + amount)),
     Leaf(AccountKey(m.base, m.user), m.baseHeld, m.baseHeld),
     Leaf(AccountKey(m.quote, m.user), m.quoteHeld, Pair(m.quoteHeld.left - cost, m.quoteHeld.right + cost)),
     Leaf(BestPriceKey(m.base, m.quote), m.best, Pair(m.best.left, bestBid)),
     Leaf(PageKey(m.base, m.quote, price), m.page, Pair(m.page.left + amount, m.page.right))]
  }

  /** Every such bid at its own price is accepted, also when there is no ask at all, and charges nothing. */
  lemma BidRestsAccepted(o: Order, d: Account, reserves: Reserves, m: Market, cost: nat, bestBid: nat)
    requires o.base == m.base && o.quote == m.quote && o.makers == 0 && o.pages == 1
    requires 0 < o.amount && cost <= m.quoteHeld.left
    requires Fitting(m) && m.page.Total() + o.amount <= U128_MAX
    requires Near(reserves, d, m.user, m.base, m.baseHeld) && Near(reserves, d, m.user, m.quote, m.quoteHeld)
    ensures BidAccepted(o, d, reserves, BidRests(m, o.price, o.amount, cost, bestBid))
    ensures var cl := BidClearing(o, BidRests(m, o.price, o.amount, cost, bestBid));
            cl.baseFee == 0 && cl.quoteFee == 0 && |cl.users| == 1
  {
    var l := BidRests(m, o.price, o.amount, cost, bestBid);
    NoMakers(l);
    NoFeeOnNothing(o.makerFee);
    NoFeeOnNothing(o.takerFee);
    hide MakerChange, Depth, Get, MulCeil;
  }

  // ---- one maker, one page ----

  /** The other side of a trade: one maker with holdings and what the trade makes of them. */
  datatype Maker = Maker(who: Account, base: Pair, base': Pair, quote: Pair, quote': Pair)

  /** An ask of which `sold` meets the maker's bid at the ask's own price for `paid`, and the rest stays. */
  function AskTrades(o: Order, m: Market, k: Maker, sold: nat, rest: nat, paid: nat, best': Pair): seq<Leaf>
    requires sold <= m.book.right && sold + rest <= m.baseHeld.left && MulCeil(o.takerFee, paid) <= paid
  {
    [Leaf(BookKey(m.base, m.quote), m.book, Pair(m.book.left + rest, m.book.right - sold)),
     Leaf(AccountKey(m.base, k.who), k.base, k.base'),
     Leaf(AccountKey(m.quote, k.who), k.quote, k.quote'),
     Leaf(AccountKey(m.base, m.user), m.baseHeld, Pair(m.baseHeld.left - sold - rest, m.baseHeld.right + rest)),
     Leaf(AccountKey(m.quote, m.user), m.quoteHeld, Pair(m.quoteHeld.left + paid - MulCeil(o.takerFee, paid), m.quoteHeld.right)),
     Leaf(BestPriceKey(m.base, m.quote), m.best, best'),
     Leaf(PageKey(m.base, m.quote, o.price), m.page, Pair(rest, 0))]
  }

  lemma OneMaker(l: seq<Leaf>)
    requires |l| > 2
    ensures MakerChange(l, 1, 1) == l[1].Change() && MakerChange(l, 1, 2) == l[2].Change()
  {
    NoMakers(l);
  }

  lemma OneMutation(l: seq<Leaf>)
    requires |l| > 2
    ensures |MakerMutations(l, 1)| == 1
  {
    assert MakerMutations(l, 0) == [];
  }

  lemma NoSweptDepth(l: seq<Leaf>)
    requires |l| >= 6
    ensures Depth(l, 6, 0) == 0
  {
  }

  lemma AskTradesParties(o: Order, d: Account, reserves: Reserves, m: Market, k: Maker, sold: nat, rest: nat, paid: nat, best': Pair)
    requires o.base == m.base && o.quote == m.quote && o.makers == 1 && o.pages == 1
    requires 0 < sold <= m.book.right && 0 < rest && sold + rest == o.amount <= m.baseHeld.left && o.amount <= U128_MAX
    requires MulCeil(o.takerFee, paid) <= paid <= U128_MAX && MulCeil(o.makerFee, sold) <= sold
    requires m.page.Total() == sold
    requires o.price <= m.best.right < U128_MAX && best'.left == o.price && best'.right <= o.price
    requires k.base'.Total() == k.base.Total() + sold - MulCeil(o.makerFee, sold)
    requires k.quote'.Total() == k.quote.Total() - paid
    requires Fitting(m) && m.quoteHeld.Total() + paid <= U128_MAX
    requires k.base.Total() <= U128_MAX && k.base'.Total() <= U128_MAX && k.quote.Total() <= U128_MAX
    requires Near(reserves, d, m.user, m.base, m.baseHeld) && Near(reserves, d, m.user, m.quote, m.quoteHeld)
    requires Near(reserves, d, k.who, m.base, k.base) && Near(reserves, d, k.who, m.quote, k.quote)
    ensures o.Shapes(AskTrades(o, m, k, sold, rest, paid, best')) && PartiesOk(o, d, reserves, AskTrades(o, m, k, sold, rest, paid, best'), true)
  {
    var l := AskTrades(o, m, k, sold, rest, paid, best');
    hide Get, MulCeil, MakerChange;
    assert MakerOk(o, d, reserves, l, true, 0);
  }

  lemma AskTradesBalance(o: Order, d: Account, reserves: Reserves, m: Market, k: Maker, sold: nat, rest: nat, paid: nat, best': Pair)
    requires o.base == m.base && o.quote == m.quote && o.makers == 1 && o.pages == 1
    requires 0 < sold <= m.book.right && 0 < rest && sold + rest == o.amount <= m.baseHeld.left && o.amount <= U128_MAX
    requires MulCeil(o.takerFee, paid) <= paid <= U128_MAX && MulCeil(o.makerFee, sold) <= sold
    requires m.page.Total() == sold
    requires o.price <= m.best.right < U128_MAX && best'.left == o.price && best'.right <= o.price
    requires k.base'.Total() == k.base.Total() + sold - MulCeil(o.makerFee, sold)
    requires k.quote'.Total() == k.quote.Total() - paid
    requires Fitting(m) && m.quoteHeld.Total() + paid <= U128_MAX
    requires k.base.Total() <= U128_MAX && k.base'.Total() <= U128_MAX && k.quote.Total() <= U128_MAX
    requires Near(reserves, d, m.user, m.base, m.baseHeld) && Near(reserves, d, m.user, m.quote, m.quoteHeld)
    requires Near(reserves, d, k.who, m.base, k.base) && Near(reserves, d, k.who, m.quote, k.quote)
    ensures o.Shapes(AskTrades(o, m, k, sold, rest, paid, best')) && Fits(-MakerChange(AskTrades(o, m, k, sold, rest, paid, best'), 1, 2))
    ensures AskBaseFee(o, AskTrades(o, m, k, sold, rest, paid, best')) == MulCeil(o.makerFee, sold) && AskQuoteFee(o, AskTrades(o, m, k, sold, rest, paid, best')) == MulCeil(o.takerFee, paid)
    ensures Balanced(o, AskTrades(o, m, k, sold, rest, paid, best'), AskBaseFee(o, AskTrades(o, m, k, sold, rest, paid, best')), AskQuoteFee(o, AskTrades(o, m, k, sold, rest, paid, best')))
  {
    hide Get, MulCeil, MakerChange, Near;
    OneMaker(AskTrades(o, m, k, sold, rest, paid, best'));
  }

  lemma AskTradesBook(o: Order, d: Account, reserves: Reserves, m: Market, k: Maker, sold: nat, rest: nat, paid: nat, best': Pair)
    requires o.base == m.base && o.quote == m.quote && o.makers == 1 && o.pages == 1
    requires 0 < sold <= m.book.right && 0 < rest && sold + rest == o.amount <= m.baseHeld.left && o.amount <= U128_MAX
    requires MulCeil(o.takerFee, paid) <= paid <= U128_MAX && MulCeil(o.makerFee, sold) <= sold
    requires m.page.Total() == sold
    requires o.price <= m.best.right < U128_MAX && best'.left == o.price && best'.right <= o.price
    requires k.base'.Total() == k.base.Total() + sold - MulCeil(o.makerFee, sold)
    requires k.quote'.Total() == k.quote.Total() - paid
    requires Fitting(m) && m.quoteHeld.Total() + paid <= U128_MAX
    requires k.base.Total() <= U128_MAX && k.base'.Total() <= U128_MAX && k.quote.Total() <= U128_MAX
    requires Near(reserves, d, m.user, m.base, m.baseHeld) && Near(reserves, d, m.user, m.quote, m.quoteHeld)
    requires Near(reserves, d, k.who, m.base, k.base) && Near(reserves, d, k.who, m.quote, k.quote)
    ensures o.Shapes(AskTrades(o, m, k, sold, rest, paid, best')) && AskMovesBook(o, AskTrades(o, m, k, sold, rest, paid, best')) && AskMovesPages(o, AskTrades(o, m, k, sold, rest, paid, best'))
  {
    hide Get, MulCeil, MakerChange, Near, Depth;
    OneMaker(AskTrades(o, m, k, sold, rest, paid, best'));
    NoSweptDepth(AskTrades(o, m, k, sold, rest, paid, best'));
  }

  /** Every ask that is partly filled from the whole of one bid page is accepted; it pays the maker fee in base
      and the taker fee in quote. */
  lemma AskTradesAccepted(o: Order, d: Account, reserves: Reserves, m: Market, k: Maker, sold: nat, rest: nat, paid: nat, best': Pair)
    requires o.base == m.base && o.quote == m.quote && o.makers == 1 && o.pages == 1
    requires 0 < sold <= m.book.right && 0 < rest && sold + rest == o.amount <= m.baseHeld.left && o.amount <= U128_MAX
    requires MulCeil(o.takerFee, paid) <= paid <= U128_MAX && MulCeil(o.makerFee, sold) <= sold
    requires m.page.Total() == sold
    requires o.price <= m.best.right < U128_MAX && best'.left == o.price && best'.right <= o.price
    requires k.base'.Total() == k.base.Total() + sold - MulCeil(o.makerFee, sold)
    requires k.quote'.Total() == k.quote.Total() - paid
    requires Fitting(m) && m.quoteHeld.Total() + paid <= U128_MAX
    requires k.base.Total() <= U128_MAX && k.base'.Total() <= U128_MAX && k.quote.Total() <= U128_MAX
    requires Near(reserves, d, m.user, m.base, m.baseHeld) && Near(reserves, d, m.user, m.quote, m.quoteHeld)
    requires Near(reserves, d, k.who, m.base, k.base) && Near(reserves, d, k.who, m.quote, k.quote)
    ensures AskAccepted(o, d, reserves, AskTrades(o, m, k, sold, rest, paid, best'))
    ensures var cl := AskClearing(o, AskTrades(o, m, k, sold, rest, paid, best'));
            cl.baseFee == MulCeil(o.makerFee, sold) && cl.quoteFee == MulCeil(o.takerFee, paid) && |cl.users| == 2
  {
    AskTradesParties(o, d, reserves, m, k, sold, rest, paid, best');
    AskTradesBalance(o, d, reserves, m, k, sold, rest, paid, best');
    AskTradesBook(o, d, reserves, m, k, sold, rest, paid, best');
    hide AskTrades, PartiesOk, Balanced, AskMovesBook, AskMovesPages, MakerChange, AskBaseFee, AskQuoteFee, MulCeil, Near;
    OneMutation(AskTrades(o, m, k, sold, rest, paid, best'));
  }

  /** A bid of which `bought` meets the maker's ask at the bid's own price for `paid`, and the rest stays. */
  function BidTrades(o: Order, m: Market, k: Maker, bought: nat, rest: nat, paid: nat, frozen: nat, best': Pair): seq<Leaf>
    requires bought <= m.book.left && paid + frozen <= m.quoteHeld.left && MulCeil(o.takerFee, bought) <= bought
  {
    [Leaf(BookKey(m.base, m.quote), m.book, Pair(m.book.left - bought, m.book.right + rest)),
     Leaf(AccountKey(m.base, k.who), k.base, k.base'),
     Leaf(AccountKey(m.quote, k.who), k.quote, k.quote'),
     Leaf(AccountKey(m.base, m.user), m.baseHeld, Pair(m.baseHeld.left + bought - MulCeil(o.takerFee, bought), m.baseHeld.right)),
     Leaf(AccountKey(m.quote, m.user), m.quoteHeld, Pair(m.quoteHeld.left - paid - frozen, m.quoteHeld.right + frozen)),
     Leaf(BestPriceKey(m.base, m.quote), m.best, best'),
     Leaf(PageKey(m.base, m.quote, o.price), m.page, Pair(rest, 0))]
  }

  lemma BidTradesParties(o: Order, d: Account, reserves: Reserves, m: Market, k: Maker, bought: nat, rest: nat, paid: nat, frozen: nat, best': Pair)
    requires o.base == m.base && o.quote == m.quote && o.makers == 1 && o.pages == 1
    requires 0 < bought <= m.book.left && 0 < rest && bought + rest == o.amount <= U128_MAX && paid + frozen <= m.quoteHeld.left
    requires MulCeil(o.takerFee, bought) <= bought && MulCeil(o.makerFee, paid) <= paid
    requires m.page.Total() == bought
    requires m.best.left <= o.price == best'.right
    requires k.base'.Total() == k.base.Total() - bought
    requires k.quote'.Total() == k.quote.Total() + paid - MulCeil(o.makerFee, paid)
    requires Fitting(m) && m.baseHeld.Total() + bought <= U128_MAX
    requires k.base.Total() <= U128_MAX && k.quote.Total() <= U128_MAX && k.quote'.Total() <= U128_MAX
    requires Near(reserves, d, m.user, m.base, m.baseHeld) && Near(reserves, d, m.user, m.quote, m.quoteHeld)
    requires Near(reserves, d, k.who, m.base, k.base) && Near(reserves, d, k.who, m.quote, k.quote)
    ensures o.Shapes(BidTrades(o, m, k, bought, rest, paid, frozen, best')) && PartiesOk(o, d, reserves, BidTrades(o, m, k, bought, rest, paid, frozen, best'), false)
  {
    var l := BidTrades(o, m, k, bought, rest, paid, frozen, best');
    hide Get, MulCeil, MakerChange;
    assert MakerOk(o, d, reserves, l, false, 0);
  }

  lemma BidTradesBalance(o: Order, d: Account, reserves: Reserves, m: Market, k: Maker, bought: nat, rest: nat, paid: nat, frozen: nat, best': Pair)
    requires o.base == m.base && o.quote == m.quote && o.makers == 1 && o.pages == 1
    requires 0 < bought <= m.book.left && 0 < rest && bought + rest == o.amount <= U128_MAX && paid + frozen <= m.quoteHeld.left
    requires MulCeil(o.takerFee, bought) <= bought && MulCeil(o.makerFee, paid) <= paid
    requires m.page.Total() == bought
    requires m.best.left <= o.price == best'.right
    requires k.base'.Total() == k.base.Total() - bought
    requires k.quote'.Total() == k.quote.Total() + paid - MulCeil(o.makerFee, paid)
    requires Fitting(m) && m.baseHeld.Total() + bought <= U128_MAX
    requires k.base.Total() <= U128_MAX && k.quote.Total() <= U128_MAX && k.quote'.Total() <= U128_MAX
    requires Near(reserves, d, m.user, m.base, m.baseHeld) && Near(reserves, d, m.user, m.quote, m.quoteHeld)
    requires Near(reserves, d, k.who, m.base, k.base) && Near(reserves, d, k.who, m.quote, k.quote)
    ensures o.Shapes(BidTrades(o, m, k, bought, rest, paid, frozen, best')) && Fits(-MakerChange(BidTrades(o, m, k, bought, rest, paid, frozen, best'), 1, 1))
    ensures BidBaseFee(o, BidTrades(o, m, k, bought, rest, paid, frozen, best')) == MulCeil(o.takerFee, bought) && BidQuoteFee(o, BidTrades(o, m, k, bought, rest, paid, frozen, best')) == MulCeil(o.makerFee, paid)
    ensures Balanced(o, BidTrades(o, m, k, bought, rest, paid, frozen, best'), BidBaseFee(o, BidTrades(o, m, k, bought, rest, paid, frozen, best')), BidQuoteFee(o, BidTrades(o, m, k, bought, rest, paid, frozen, best')))
  {
    hide Get, MulCeil, MakerChange, Near;
    OneMaker(BidTrades(o, m, k, bought, rest, paid, frozen, best'));
  }

  lemma BidTradesBook(o: Order, d: Account, reserves: Reserves, m: Market, k: Maker, bought: nat, rest: nat, paid: nat, frozen: nat, best': Pair)
    requires o.base == m.base && o.quote == m.quote && o.makers == 1 && o.pages == 1
    requires 0 < bought <= m.book.left && 0 < rest && bought + rest == o.amount <= U128_MAX && paid + frozen <= m.quoteHeld.left
    requires MulCeil(o.takerFee, bought) <= bought && MulCeil(o.makerFee, paid) <= paid
    requires m.page.Total() == bought
    requires m.best.left <= o.price == best'.right
    requires k.base'.Total() == k.base.Total() - bought
    requires k.quote'.Total() == k.quote.Total() + paid - MulCeil(o.makerFee, paid)
    requires Fitting(m) && m.baseHeld.Total() + bought <= U128_MAX
    requires k.base.Total() <= U128_MAX && k.quote.Total() <= U128_MAX && k.quote'.Total() <= U128_MAX
    requires Near(reserves, d, m.user, m.base, m.baseHeld) && Near(reserves, d, m.user, m.quote, m.quoteHeld)
    requires Near(reserves, d, k.who, m.base, k.base) && Near(reserves, d, k.who, m.quote, k.quote)
    ensures o.Shapes(BidTrades(o, m, k, bought, rest, paid, frozen, best')) && BidMovesBook(o, BidTrades(o, m, k, bought, rest, paid, frozen, best')) && BidMovesPages(o, BidTrades(o, m, k, bought, rest, paid, frozen, best'))
  {
    hide Get, MulCeil, MakerChange, Near, Depth;
    OneMaker(BidTrades(o, m, k, bought, rest, paid, frozen, best'));
    NoSweptDepth(BidTrades(o, m, k, bought, rest, paid, frozen, best'));
  }

  /** Every bid that is partly filled from the whole of one ask page is accepted; it pays the taker fee in base
      and the maker fee in quote. */
  lemma BidTradesAccepted(o: Order, d: Account, reserves: Reserves, m: Market, k: Maker, bought: nat, rest: nat, paid: nat, frozen: nat, best': Pair)
    requires o.base == m.base && o.quote == m.quote && o.makers == 1 && o.pages == 1
    requires 0 < bought <= m.book.left && 0 < rest && bought + rest == o.amount <= U128_MAX && paid + frozen <= m.quoteHeld.left
    requires MulCeil(o.takerFee, bought) <= bought && MulCeil(o.makerFee, paid) <= paid
    requires m.page.Total() == bought
    requires m.best.left <= o.price == best'.right
    requires k.base'.Total() == k.base.Total() - bought
    requires k.quote'.Total() == k.quote.Total() + paid - MulCeil(o.makerFee, paid)
    requires Fitting(m) && m.baseHeld.Total() + bought <= U128_MAX
    requires k.base.Total() <= U128_MAX && k.quote.Total() <= U128_MAX && k.quote'.Total() <= U128_MAX
    requires Near(reserves, d, m.user, m.base, m.baseHeld) && Near(reserves, d, m.user, m.quote, m.quoteHeld)
    requires Near(reserves, d, k.who, m.base, k.base) && Near(reserves, d, k.who, m.quote, k.quote)
    ensures BidAccepted(o, d, reserves, BidTrades(o, m, k, bought, rest, paid, frozen, best'))
    ensures var cl := BidClearing(o, BidTrades(o, m, k, bought, rest, paid, frozen, best'));
            cl.baseFee == MulCeil(o.takerFee, bought) && cl.quoteFee == MulCeil(o.makerFee, paid) && |cl.users| == 2
  {
    BidTradesParties(o, d, reserves, m, k, bought, rest, paid, frozen, best');
    BidTradesBalance(o, d, reserves, m, k, bought, rest, paid, frozen, best');
    BidTradesBook(o, d, reserves, m, k, bought, rest, paid, frozen, best');
    hide BidTrades, PartiesOk, Balanced, BidMovesBook, BidMovesPages, MakerChange, BidBaseFee, BidQuoteFee, MulCeil, Near;
    OneMutation(BidTrades(o, m, k, bought, rest, paid, frozen, best'));
  }

  // ---- what the checks let through ----

  predicate IsQuoteGrab(l: seq<Leaf>) {
    && |l| == 7
    && l[0] == Leaf(BookKey(1, 2), Pair(0, 0), Pair(1, 0))
    && l[1] == Leaf(AccountKey(1, 8), Pair(0, 0), Pair(0, 0))
    && l[2] == Leaf(AccountKey(2, 8), Pair(5, 0), Pair(0, 0))
    && l[3] == Leaf(AccountKey(1, 7), Pair(1, 0), Pair(0, 1))
    && l[4] == Leaf(AccountKey(2, 7), Pair(0, 0), Pair(5, 0))
    && l[5] == Leaf(BestPriceKey(1, 2), Pair(0, 0), Pair(10, 0))
    && l[6] == Leaf(PageKey(1, 2, 10), Pair(0, 0), Pair(1, 0))
  }

  predicate FreeOfCharge(o: Order) { o == Order(10, 1, 0, 0, 1, 2, 1, 1) }

  predicate GrabLedger(reserves: Reserves, d: Account) {
    && Near(reserves, d, 7, 1, Pair(1, 0)) && Near(reserves, d, 7, 2, Pair(0, 0))
    && Near(reserves, d, 8, 1, Pair(0, 0)) && Near(reserves, d, 8, 2, Pair(5, 0))
  }

  lemma GrabParties(o: Order, d: Account, reserves: Reserves, l: seq<Leaf>)
    requires FreeOfCharge(o) && IsQuoteGrab(l) && GrabLedger(reserves, d)
    ensures o.Shapes(l) && PartiesOk(o, d, reserves, l, true)
  {
    hide Get;
    assert MakerOk(o, d, reserves, l, true, 0);
  }

  lemma GrabBook(o: Order, l: seq<Leaf>)
    requires FreeOfCharge(o) && IsQuoteGrab(l)
    ensures o.Shapes(l) && AskMovesBook(o, l) && AskMovesPages(o, l) && RestingAsk(o, l)
  {
    hide Depth;
  }

  lemma GrabBalance(o: Order, l: seq<Leaf>)
    requires FreeOfCharge(o) && IsQuoteGrab(l)
    ensures o.Shapes(l) && Balanced(o, l, AskBaseFee(o, l), AskQuoteFee(o, l))
    ensures MakerChange(l, 1, 2) == -5 && o.TakerQuote(l).Change() == 5
  {
    OneMaker(l);
    hide MakerChange;
  }

  /** A resting ask that lists a maker may take that maker's quote for nothing: no base moves, but five units of
      quote go from the maker to the seller. */
  lemma ARestingAskMayMoveQuote(o: Order, d: Account, reserves: Reserves, l: seq<Leaf>)
    requires FreeOfCharge(o) && IsQuoteGrab(l) && GrabLedger(reserves, d)
    ensures AskAccepted(o, d, reserves, l) && RestingAsk(o, l)
    ensures MakerChange(l, 1, 2) == -5 && o.TakerQuote(l).Change() == 5
  {
    hide PartiesOk, Balanced, AskMovesBook, AskMovesPages, MakerChange, IsQuoteGrab, GrabLedger, RestingAsk;
    GrabParties(o, d, reserves, l);
    GrabBook(o, l);
    GrabBalance(o, l);
  }
}
