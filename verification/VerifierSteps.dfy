/** The dispatchable calls and the block hook of the verifier pallet, as functions on its storage. */
module VerifierSteps {
  import opened Results
  import opened FixedPoint
  import opened MapSums
  import opened VerifierTypes
  import opened VerifierState
  import opened Orders

  datatype Command =
    | AskLimit(price: nat, amount: nat, makerFee: nat, takerFee: nat, base: Token, quote: Token)
    | BidLimit(price: nat, amount: nat, makerFee: nat, takerFee: nat, base: Token, quote: Token)
    | Cancel(base: Token, quote: Token)
    | TransferOut(token: Token, amount: nat)
    | TransferIn(token: Token, amount: nat)
    | RejectTransferOut(token: Token, amount: nat)
    | RejectTransferIn

  datatype Proof = Proof(eventId: nat, user: Account, cmd: Command, leaves: seq<Leaf>,
                         makerPages: nat, makerAccounts: nat)

  datatype Op =
    | Register(d: Account)
    | Evict(d: Account)
    | Launch(d: Account)
    | Stake(u: Account, d: Account, x: nat)
    | Unstake(u: Account, d: Account, x: nat)
    | ClaimShares(u: Account, d: Account)
    | AuthorizeTo(u: Account, d: Account, t: Token, x: nat)
    | RevokeFrom(u: Account, d: Account, t: Token, x: nat, callback: Option<nat>)
    | Verify(d: Account, proofs: seq<Proof>, stable: set<Token>)
    | NextBlock(order: seq<Account>)
    | OtherPallets(t: Token, u: Account, free: nat)

  // ---- dominators ----

  function DoRegister(c: Config, s: State, d: Account): Outcome
    requires c.grace > 0
  {
    if s.now < c.grace then Err(TooEarlyToRegister)
    else if d in s.dominators then Err(DominatorAlreadyExists)
    else Ok(s.SetDominator(d, Dominator(0, map[], s.now - s.now % c.grace, (0, s.now), Registered)))
  }

  function DoEvict(s: State, d: Account): Outcome {
    if d !in s.dominators then Err(DominatorNotFound)
    else Ok(s.SetDominator(d, s.dominators[d].(status := Evicted)))
  }

  function DoLaunch(s: State, d: Account): Outcome {
    if d !in s.dominators then Err(DominatorNotFound)
    else if s.dominators[d].status != Registered then Err(DominatorStatusInvalid)
    else Ok(s.SetDominator(d, s.dominators[d].(status := Inactive)))
  }

  // ---- staking ----

  function OnlineStatus(c: Config, staked: nat): Status {
    if staked >= c.onlineThreshold then Active else Inactive
  }

  function DoStake(c: Config, s: State, u: Account, d: Account, x: nat): Outcome
    requires c.seasonDuration > 0
  {
    if x < c.minStake then Err(LittleStakingAmount)
    else if d !in s.dominators then Err(DominatorNotFound)
    else
      var dom, was := s.dominators[d], s.StakingOf(d, u);
      if dom.status != Active && dom.status != Inactive then Err(DominatorStatusInvalid)
      else
        match Reserve(s, Staked, u, c.native, x, d)
        case Err(e) => Err(e)
        case Ok(s1) =>
          var season := CurrentSeason(c, s.now, dom.startFrom);
          var paid := if was.amount == 0 then Ok(s1) else TakeShares(s1, d, u, was.fromSeason, season, was.amount);
          match paid
          case Err(e) => Err(e)
          case Ok(s2) =>
            if !Fits(was.amount + x) || !Fits(dom.staked + x) then Err(Overflow)
            else
              Ok(s2.(stakings := s2.stakings[(d, u) := Staking(season, was.amount + x)])
                 .SetDominator(d, dom.(staked := dom.staked + x, status := OnlineStatus(c, dom.staked + x))))
  }

  function UnlockBlock(c: Config, now: nat): nat
    requires c.grace > 0
  {
    now - now % c.grace + UNSTAKE_DELAY
  }

  /** The inner part of `unstake_from`: moves the reserve, queues the release and pays what is due. */
  function MoveToPending(c: Config, s: State, u: Account, d: Account, x: nat): Outcome
    requires c.grace > 0
  {
    match Unreserve(c, s, Staked, u, c.native, x, d)
    case Err(e) => Err(e)
    case Ok(s1) =>
      match Reserve(s1, PendingUnstake, u, c.native, x, c.system)
      case Err(e) => Err(e)
      case Ok(s2) =>
        var k := (UnlockBlock(c, s.now), u);
        if !Fits(Get(s2.pending, k) + x) then Err(Overflow)
        else Ok(s2.(pending := s2.pending[k := Get(s2.pending, k) + x]).Log(TaoUnstaked(u, x, k.0, s.now)))
  }

  function DoUnstake(c: Config, s: State, u: Account, d: Account, x: nat): Outcome
    requires c.grace > 0 && c.seasonDuration > 0
  {
    if d !in s.dominators then Err(DominatorNotFound)
    else
      var dom := s.dominators[d];
      if dom.status == Registered then Err(DominatorStatusInvalid)
      else if dom.staked < x then Err(InsufficientBalance)
      else if (d, u) !in s.stakings then Err(InvalidStaking)
      else
        var was := s.stakings[(d, u)];
        if was.amount < x then Err(InsufficientBalance)
        else if was.amount != x && was.amount - x < c.minStake then Err(LittleStakingAmount)
        else
          match MoveToPending(c, s, u, d, x)
          case Err(e) => Err(e)
          case Ok(s1) =>
            var season := CurrentSeason(c, s.now, dom.startFrom);
            match TakeShares(s1, d, u, was.fromSeason, season, was.amount)
            case Err(e) => Err(e)
            case Ok(s2) =>
              var left := if was.amount == x then s2.stakings - {(d, u)}
                          else s2.stakings[(d, u) := Staking(season, was.amount - x)];
              var status := if dom.status == Evicted then Evicted else OnlineStatus(c, dom.staked - x);
              Ok(s2.(stakings := left).SetDominator(d, dom.(staked := dom.staked - x, status := status)))
  }

  function DoClaim(c: Config, s: State, u: Account, d: Account): Outcome
    requires c.seasonDuration > 0
  {
    if d !in s.dominators then Err(DominatorNotFound)
    else if s.dominators[d].status == Registered then Err(DominatorStatusInvalid)
    else if (d, u) !in s.stakings then Err(InvalidStaking)
    else
      var was, season := s.stakings[(d, u)], CurrentSeason(c, s.now, s.dominators[d].startFrom);
      match TakeShares(s, d, u, was.fromSeason, season, was.amount)
      case Err(e) => Err(e)
      case Ok(s1) => Ok(s1.(stakings := s1.stakings[(d, u) := was.(fromSeason := season)]))
  }

  // ---- receipts ----

  function DoAuthorize(s: State, u: Account, d: Account, t: Token, x: nat): (r: Outcome)
    ensures r.Ok? ==> r.value == s.(reserves := r.value.reserves, balances := r.value.balances,
                                    receipts := r.value.receipts, history := r.value.history)
  {
    if d !in s.dominators then Err(DominatorNotFound)
    else if s.dominators[d].status != Active then Err(DominatorInactive)
    else if (d, u) in s.receipts then Err(ReceiptAlreadyExists)
    else if s.BalanceOf(t, u).free < x then Err(InsufficientBalance)
    else
      match Reserve(s, Stashed, u, t, x, d)
      case Err(e) => Err(e)
      case Ok(s1) => Ok(OpenReceipt(s1, d, u, Authorize(t, x, s.now)))
  }

  function OpenReceipt(s: State, d: Account, u: Account, r: Receipt): State {
    s.(receipts := s.receipts[(d, u) := r]).Log(ReceiptOpened(d, u, r))
  }

  function ConsumeReceipt(s: State, d: Account, u: Account): State
    requires (d, u) in s.receipts
  {
    s.(receipts := s.receipts - {(d, u)}).Log(ReceiptConsumed(d, u, s.receipts[(d, u)]))
  }

  function DropReceipt(s: State, d: Account, u: Account): State {
    if (d, u) !in s.receipts then s
    else s.(receipts := s.receipts - {(d, u)}).Log(ReceiptDropped(d, u, s.receipts[(d, u)]))
  }

  /** Evicted dominators only: whatever is stashed joins the authorized amount. */
  function FoldStash(s: State, u: Account, d: Account, t: Token): (r: Outcome)
    ensures r.Ok? ==> r.value == s.(reserves := r.value.reserves)
  {
    var stash, auth := ReserveKey(Stashed, u, t, d), AuthorizedKey(u, t, d);
    var av := Get(s.reserves, stash);
    if av == 0 then Ok(s.DropReserve(stash))
    else if !Fits(Get(s.reserves, auth) + av) then Err(Overflow)
    else Ok(s.DropReserve(stash).SetReserve(auth, Get(s.reserves, auth) + av))
  }

  function DoRevoke(c: Config, s: State, u: Account, d: Account, t: Token, x: nat, callback: Option<nat>): (r: Outcome)
    ensures r.Ok? ==> r.value == s.(reserves := r.value.reserves, balances := r.value.balances,
                                    receipts := r.value.receipts, history := r.value.history)
  {
    if Get(s.reserves, AuthorizedKey(u, t, d)) < x then Err(InsufficientBalance)
    else if d !in s.dominators then Err(DominatorNotFound)
    else if s.dominators[d].status == Registered then Err(DominatorStatusInvalid)
    else if s.dominators[d].status == Evicted then
      match FoldStash(s, u, d, t)
      case Err(e) => Err(e)
      case Ok(s1) =>
        match Unreserve(c, s1, Authorized, u, t, x, d)
        case Err(e) => Err(e)
        case Ok(s2) => Ok(DropReceipt(s2, d, u))
    else if (d, u) in s.receipts then Err(ReceiptAlreadyExists)
    else Ok(OpenReceipt(s, d, u, Revoke(t, x, s.now, callback)))
  }

  // ---- proofs ----

  function ClearUsers(s: State, d: Account, base: Token, quote: Token, users: seq<Mutation>): (r: Outcome)
    ensures r.Ok? ==> r.value == s.(reserves := r.value.reserves, balances := r.value.balances)
  {
    if users == [] then Ok(s)
    else
      var n := |users| - 1;
      match ClearUsers(s, d, base, quote, users[..n])
      case Err(e) => Err(e)
      case Ok(s1) =>
        match Clear(s1, users[n].who, d, base, users[n].baseValue)
        case Err(e) => Err(e)
        case Ok(s2) => Clear(s2, users[n].who, d, quote, users[n].quoteValue)
  }

  function CreditFee(s: State, d: Account, t: Token, x: nat): (r: Outcome)
    ensures r.Ok? ==> r.value == s.(balances := r.value.balances)
  {
    var b := s.BalanceOf(t, d);
    if x == 0 then Ok(s)
    else if !Fits(b.free + x) then Err(Overflow)
    else Ok(s.SetBalance(t, d, b.free + x, b.reserved))
  }

  /** Settles an accepted order: balances follow the tree, fees go to stakers and to the dominator. */
  function Settle(s: State, d: Account, season: nat, base: Token, quote: Token, cl: Clearing): (r: Outcome)
    ensures r.Ok? ==> r.value == s.(reserves := r.value.reserves, balances := r.value.balances, bonuses := r.value.bonuses)
  {
    match if |cl.users| > 1 then ClearUsers(s, d, base, quote, cl.users) else Ok(s)
    case Err(e) => Err(e)
    case Ok(s1) =>
      match PutProfit(s1, d, season, quote, cl.quoteFee)
      case Err(e) => Err(e)
      case Ok(s2) => CreditFee(s2, d, base, cl.baseFee)
  }

  predicate FeesOk(c: Config, takerFee: nat, makerFee: nat) {
    makerFee <= c.maxMakerFee && takerFee <= c.maxTakerFee
  }

  function OrderOf(cmd: Command, p: Proof): Order
    requires cmd.AskLimit? || cmd.BidLimit?
  {
    Order(cmd.price, cmd.amount, Min(cmd.makerFee, MILLION), Min(cmd.takerFee, MILLION),
          cmd.base, cmd.quote, p.makerAccounts / 2, p.makerPages)
  }

  predicate OrderAccepted(c: Config, s: State, d: Account, p: Proof, stable: set<Token>)
    requires p.cmd.AskLimit? || p.cmd.BidLimit?
  {
    && FeesOk(c, p.cmd.takerFee, p.cmd.makerFee)
    && p.cmd.quote in stable
    && p.makerAccounts % 2 == 0
    && if p.cmd.AskLimit? then AskAccepted(OrderOf(p.cmd, p), d, s.reserves, p.leaves)
       else BidAccepted(OrderOf(p.cmd, p), d, s.reserves, p.leaves)
  }

  function OrderClearing(p: Proof): Clearing
    requires p.cmd.AskLimit? || p.cmd.BidLimit?
    requires OrderOf(p.cmd, p).Shapes(p.leaves)
  {
    if p.cmd.AskLimit? then AskClearing(OrderOf(p.cmd, p), p.leaves) else BidClearing(OrderOf(p.cmd, p), p.leaves)
  }

  predicate SameTotal(leaf: Leaf) { leaf.SumsFit() && leaf.Change() == 0 }

  predicate HeldBy(leaf: Leaf, t: Token, u: Account) { leaf.key == AccountKey(t, u) }

  predicate CancelAccepted(cmd: Command, u: Account, leaves: seq<Leaf>)
    requires cmd.Cancel?
  {
    && |leaves| == 5
    && leaves[0].IsSymbol(cmd.base, cmd.quote)
    && leaves[0].after.left <= leaves[0].before.left
    && leaves[0].after.right <= leaves[0].before.right
    && var askDelta, bidDelta := leaves[0].before.left - leaves[0].after.left, leaves[0].before.right - leaves[0].after.right;
    && Fits(askDelta + bidDelta) && askDelta + bidDelta != 0 && NoCommonBit(askDelta, bidDelta)
    && HeldBy(leaves[1], cmd.base, u) && SameTotal(leaves[1])
    && HeldBy(leaves[2], cmd.quote, u) && SameTotal(leaves[2])
    && leaves[4].IsPage(cmd.base, cmd.quote) && leaves[4].SumsFit()
    && var at, bestAsk, bestBid := leaves[4].PagePrice(), leaves[3].before.left, leaves[3].before.right;
    && (bestAsk <= at || at <= bestBid)
    && -leaves[4].Change() == if bestAsk <= at && bestAsk != 0 then askDelta else bidDelta
  }

  /** `a & b == 0` on unsigned integers. */
  predicate NoCommonBit(a: nat, b: nat) {
    a == 0 || b == 0 || (!(a % 2 == 1 && b % 2 == 1) && NoCommonBit(a / 2, b / 2))
  }

  predicate TransferInAccepted(cmd: Command, u: Account, leaves: seq<Leaf>)
    requires cmd.TransferIn?
  {
    && |leaves| == 1 && HeldBy(leaves[0], cmd.token, u)
    && leaves[0].after.left == leaves[0].before.left + cmd.amount
    && leaves[0].after.right == leaves[0].before.right
  }

  predicate TransferOutAccepted(cmd: Command, u: Account, leaves: seq<Leaf>)
    requires cmd.TransferOut?
  {
    && |leaves| == 1 && HeldBy(leaves[0], cmd.token, u)
    && leaves[0].before.left == leaves[0].after.left + cmd.amount
    && leaves[0].after.right == leaves[0].before.right
  }

  predicate RejectOutAccepted(cmd: Command, u: Account, leaves: seq<Leaf>)
    requires cmd.RejectTransferOut?
  {
    |leaves| == 1 && HeldBy(leaves[0], cmd.token, u) && leaves[0].before.left < cmd.amount
  }

  /** The open receipt of `u` at `d` asks for exactly this movement. */
  predicate Matches(s: State, d: Account, u: Account, authorize: bool, t: Token, x: nat) {
    && (d, u) in s.receipts
    && var r := s.receipts[(d, u)];
    r.Authorize? == authorize && r.token == t && r.amount == x
  }

  function ApplyTransferOut(c: Config, s: State, d: Account, u: Account, t: Token, x: nat): Outcome
    requires (d, u) in s.receipts
  {
    match Unreserve(c, s, Authorized, u, t, x, d)
    case Err(e) => Err(e)
    case Ok(s1) => Ok(ConsumeReceipt(s1, d, u))
  }

  /** Stash to authorized: the whole stash entry goes, the receipt's amount comes. */
  function ApplyTransferIn(s: State, d: Account, u: Account, t: Token, x: nat): Outcome
    requires (d, u) in s.receipts
  {
    var k := AuthorizedKey(u, t, d);
    if !Fits(Get(s.reserves, k) + x) then Err(Overflow)
    else Ok(ConsumeReceipt(s.DropReserve(ReserveKey(Stashed, u, t, d)).SetReserve(k, Get(s.reserves, k) + x), d, u))
  }

  function ApplyCommand(c: Config, s: State, d: Account, p: Proof): (r: Outcome)
    requires !p.cmd.AskLimit? && !p.cmd.BidLimit?
    ensures r.Ok? ==> r.value == s.(reserves := r.value.reserves, balances := r.value.balances,
                                    receipts := r.value.receipts, history := r.value.history)
  {
    var u, cmd := p.user, p.cmd;
    match cmd
    case Cancel(base, quote) =>
      if !CancelAccepted(cmd, u, p.leaves) then Err(ProofsUnsatisfied) else Ok(s)
    case TransferOut(t, x) =>
      if !Matches(s, d, u, false, t, x) then Err(ReceiptNotExists)
      else if !TransferOutAccepted(cmd, u, p.leaves) then Err(ProofsUnsatisfied)
      else ApplyTransferOut(c, s, d, u, t, x)
    case TransferIn(t, x) =>
      if !Matches(s, d, u, true, t, x) then Err(ReceiptNotExists)
      else if !TransferInAccepted(cmd, u, p.leaves) then Err(ProofsUnsatisfied)
      else ApplyTransferIn(s, d, u, t, x)
    case RejectTransferOut(t, x) =>
      if !Matches(s, d, u, false, t, x) then Err(ReceiptNotExists)
      else if !RejectOutAccepted(cmd, u, p.leaves) then Err(ProofsUnsatisfied)
      else Ok(DropReceipt(s, d, u))
    case RejectTransferIn =>
      if (d, u) in s.receipts && !s.receipts[(d, u)].Authorize? then Err(ReceiptNotExists)
      else Ok(DropReceipt(s, d, u))
  }

  /** Effect of an accepted command on everything but the tree. */
  function Apply(c: Config, s: State, d: Account, p: Proof, stable: set<Token>): (r: Outcome)
    requires c.seasonDuration > 0 && d in s.dominators
    ensures r.Ok? ==> r.value.(reserves := s.reserves, balances := s.balances, bonuses := s.bonuses,
                               receipts := s.receipts, history := s.history) == s
  {
    if p.cmd.AskLimit? || p.cmd.BidLimit? then ApplyOrder(c, s, d, p, stable) else ApplyCommand(c, s, d, p)
  }

  function ApplyOrder(c: Config, s: State, d: Account, p: Proof, stable: set<Token>): (r: Outcome)
    requires c.seasonDuration > 0 && d in s.dominators
    requires p.cmd.AskLimit? || p.cmd.BidLimit?
    ensures r.Ok? ==> r.value == s.(reserves := r.value.reserves, balances := r.value.balances, bonuses := r.value.bonuses)
  {
    if !FeesOk(c, p.cmd.takerFee, p.cmd.makerFee) then Err(FeesTooHigh)
    else if p.cmd.quote !in stable then Err(UnsupportedQuoteCurrency)
    else if !OrderAccepted(c, s, d, p, stable) then Err(ProofsUnsatisfied)
    else
      Settle(s, d, CurrentSeason(c, s.now, s.dominators[d].startFrom), p.cmd.base, p.cmd.quote, OrderClearing(p))
  }

  /** Rejections keep the old root. */
  predicate Advances(cmd: Command) { !cmd.RejectTransferOut? && !cmd.RejectTransferIn? }

  function VerifyOne(c: Config, s: State, d: Account, p: Proof, stable: set<Token>): (r: Outcome)
    requires c.seasonDuration > 0 && d in s.dominators
    ensures r.Ok? ==> d in r.value.dominators
  {
    var tree := s.dominators[d].tree;
    if !Proves(tree, p.leaves) then Err(ProofsUnsatisfied)
    else
      match Apply(c, s, d, p, stable)
      case Err(e) => Err(e)
      case Ok(s1) =>
        if !Advances(p.cmd) then Ok(s1)
        else Ok(s1.SetDominator(d, s.dominators[d].(tree := Updated(tree, p.leaves), sequence := (p.eventId, s.now))))
  }

  function VerifyAll(c: Config, s: State, d: Account, proofs: seq<Proof>, stable: set<Token>): (r: Outcome)
    requires c.seasonDuration > 0 && d in s.dominators
    ensures r.Ok? ==> d in r.value.dominators
  {
    if proofs == [] then Ok(s)
    else
      var n := |proofs| - 1;
      match VerifyAll(c, s, d, proofs[..n], stable)
      case Err(e) => Err(e)
      case Ok(s1) => VerifyOne(c, s1, d, proofs[n], stable)
  }

  function DoVerify(c: Config, s: State, d: Account, proofs: seq<Proof>, stable: set<Token>): Outcome
    requires c.seasonDuration > 0
  {
    if d !in s.dominators then Err(DominatorNotFound)
    else if s.dominators[d].status != Active then Err(DominatorInactive)
    else VerifyAll(c, s, d, proofs, stable)
  }

  // ---- the block hook ----

  predicate SeasonEnds(c: Config, dom: Dominator, now: nat)
    requires c.seasonDuration > 0
  {
    dom.startFrom < now && (now - dom.startFrom) % c.seasonDuration == 0
  }

  /** The seasons that end with the current block. */
  function Ending(c: Config, s: State): set<(Account, nat)>
    requires c.seasonDuration > 0
  {
    set d | d in s.dominators && SeasonEnds(c, s.dominators[d], s.now) ::
      (d, CurrentSeason(c, s.now, s.dominators[d].startFrom) - 1)
  }

  function Snapshots(c: Config, s: State): State
    requires c.seasonDuration > 0
  {
    var ending := Ending(c, s);
    s.(bonuses := map k | k in s.bonuses.Keys + ending ::
                    if k in ending && k.0 in s.dominators then s.BonusOf(k.0, k.1).(staked := s.dominators[k.0].staked)
                    else s.BonusOf(k.0, k.1))
  }

  /** Storage is drained in hash order: any duplicate-free listing of the stakers due now. */
  ghost predicate Enumerates(s: State, order: seq<Account>) {
    && (forall i, j :: 0 <= i < j < |order| ==> order[i] != order[j])
    && (forall u :: u in order <==> (s.now, u) in s.pending)
  }

  function Release(c: Config, s: State, u: Account): State {
    var x := Get(s.pending, (s.now, u));
    var s1 := match Unreserve(c, s, PendingUnstake, u, c.native, x, c.system)
              case Err(_) => s
              case Ok(v) => v.Log(TaoUnlocked(u, x, s.now));
    s1.(pending := s1.pending - {(s.now, u)})
  }

  function ReleaseAll(c: Config, s: State, order: seq<Account>): State {
    if order == [] then s else Release(c, ReleaseAll(c, s, order[..|order| - 1]), order[|order| - 1])
  }

  function DoNextBlock(c: Config, s: State, order: seq<Account>): State
    requires c.grace > 0 && c.seasonDuration > 0
  {
    var s1 := s.(now := s.now + 1);
    if s1.now % c.grace != 0 then s1 else ReleaseAll(c, Snapshots(c, s1), order)
  }

  // ---- runs ----

  /** Whether an operation can occur at all: hooks list exactly the stakers that are due. */
  ghost predicate Enabled(c: Config, s: State, op: Op)
    requires c.Valid()
  {
    op.NextBlock? && (s.now + 1) % c.grace == 0 ==> Enumerates(s.(now := s.now + 1), op.order)
  }

  function Step(c: Config, s: State, op: Op): Outcome
    requires c.Valid()
  {
    match op
    case Register(d) => DoRegister(c, s, d)
    case Evict(d) => DoEvict(s, d)
    case Launch(d) => DoLaunch(s, d)
    case Stake(u, d, x) => DoStake(c, s, u, d, x)
    case Unstake(u, d, x) => DoUnstake(c, s, u, d, x)
    case ClaimShares(u, d) => DoClaim(c, s, u, d)
    case AuthorizeTo(u, d, t, x) => DoAuthorize(s, u, d, t, x)
    case RevokeFrom(u, d, t, x, callback) => DoRevoke(c, s, u, d, t, x, callback)
    case Verify(d, proofs, stable) => DoVerify(c, s, d, proofs, stable)
    case NextBlock(order) => Ok(DoNextBlock(c, s, order))
    case OtherPallets(t, u, free) => Ok(s.SetBalance(t, u, free, s.BalanceOf(t, u).reserved))
  }

  /** A rejected call leaves storage as it was. */
  function After(c: Config, s: State, op: Op): State
    requires c.Valid()
  {
    var r := Step(c, s, op);
    if r.Ok? then r.value else s
  }

  /** The storage after a run of operations from genesis. */
  ghost function Run(c: Config, ops: seq<Op>): State
    requires c.Valid()
  {
    if ops == [] then INITIAL else After(c, Run(c, ops[..|ops| - 1]), ops[|ops| - 1])
  }

  ghost predicate Possible(c: Config, ops: seq<Op>)
    requires c.Valid()
  {
    ops == [] ||
    (Possible(c, ops[..|ops| - 1]) && Enabled(c, Run(c, ops[..|ops| - 1]), ops[|ops| - 1]))
  }
}
