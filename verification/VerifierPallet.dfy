/** The verifier pallet's storage and its calls in place, each proved against its step function. */
module VerifierPallet {
  import opened Results
  import opened FixedPoint
  import opened MapSums
  import opened VerifierTypes
  import opened VerifierState
  import opened VerifierSteps
  import opened Orders
  import opened Receipts
  import opened ReceiptProtocol
  import opened Eviction
  import opened Agreement
  import opened StakeLedgers
  import opened Unstaking
  import opened SeasonPayouts
  import opened PendingShares
  import opened ShareLoops

  class Verifier {
    const config: Config
    var now: nat
    var dominators: map<Account, Dominator>
    var receipts: map<(Account, Account), Receipt>
    var reserves: Reserves
    var stakings: map<(Account, Account), Staking>
    var bonuses: map<(Account, nat), Bonus>
    var pending: map<(nat, Account), nat>
    var balances: map<(Token, Account), Balance>
    var history: History
    ghost var trace: seq<Op>

    function Model(): State
      reads this
    {
      State(now, dominators, receipts, reserves, stakings, bonuses, pending, balances, history)
    }

    constructor (c: Config)
      requires c.Valid()
      ensures config == c && trace == [] && Valid()
    {
      config := c;
      now, dominators, receipts, reserves, stakings := 0, map[], map[], map[], map[];
      bonuses, pending, balances, history := map[], map[], map[], Genesis;
      trace := [];
    }

    /** Undoes a failed transactional call. */
    method Restore(s: State)
      modifies this
      ensures Model() == s
    {
      now, dominators, receipts, reserves, stakings := s.now, s.dominators, s.receipts, s.reserves, s.stakings;
      bonuses, pending, balances, history := s.bonuses, s.pending, s.balances, s.history;
    }

    // ---- dominators ----

    method Register(d: Account) returns (r: Result<(), Error>)
      requires config.Valid()
      modifies this
      ensures Reflects(DoRegister(config, old(Model()), d), old(Model()), r, Model())
    {
      if now < config.grace { return Err(TooEarlyToRegister); }
      if d in dominators { return Err(DominatorAlreadyExists); }
      dominators := dominators[d := Dominator(0, map[], now - now % config.grace, (0, now), Registered)];
      return Ok(());
    }

    method EvictDominator(d: Account) returns (r: Result<(), Error>)
      modifies this
      ensures Reflects(DoEvict(old(Model()), d), old(Model()), r, Model())
    {
      if d !in dominators { return Err(DominatorNotFound); }
      dominators := dominators[d := dominators[d].(status := Evicted)];
      return Ok(());
    }

    method LaunchDominator(d: Account) returns (r: Result<(), Error>)
      modifies this
      ensures Reflects(DoLaunch(old(Model()), d), old(Model()), r, Model())
    {
      if d !in dominators { return Err(DominatorNotFound); }
      if dominators[d].status != Registered { return Err(DominatorStatusInvalid); }
      dominators := dominators[d := dominators[d].(status := Inactive)];
      return Ok(());
    }

    // ---- reserves ----

    method ReserveFunds(id: ReserveId, u: Account, t: Token, x: nat, holder: Account) returns (r: Result<(), Error>)
      modifies this`reserves, this`balances
      ensures Reflects(Reserve(old(Model()), id, u, t, x, holder), old(Model()), r, Model())
    {
      if x == 0 { return Ok(()); }
      var k, b := ReserveKey(id, u, t, holder), Model().BalanceOf(t, u);
      if b.free < x { return Err(InsufficientBalance); }
      if !Fits(b.reserved + x) || !Fits(Get(reserves, k) + x) { return Err(Overflow); }
      balances := balances[(t, u) := Balance(b.free - x, b.reserved + x)];
      reserves := reserves[k := Get(reserves, k) + x];
      return Ok(());
    }

    method UnreserveFunds(id: ReserveId, u: Account, t: Token, x: nat, holder: Account) returns (r: Result<(), Error>)
      modifies this`reserves, this`balances
      ensures Reflects(Unreserve(config, old(Model()), id, u, t, x, holder), old(Model()), r, Model())
    {
      if x == 0 { return Ok(()); }
      var k, b := ReserveKey(id, u, t, holder), Model().BalanceOf(t, u);
      if b.reserved < x { return Err(InsufficientBalance); }
      if t != config.native && !Fits(b.free + x) { return Err(Overflow); }
      if k !in reserves || reserves[k] < x { return Err(InsufficientBalance); }
      balances := balances[(t, u) := Balance(b.free + x, b.reserved - x)];
      if reserves[k] > x {
        reserves := reserves[k := reserves[k] - x];
      } else {
        reserves := reserves - {k};
      }
      return Ok(());
    }

    method ClearFunds(u: Account, d: Account, t: Token, balance: nat) returns (r: Result<(), Error>)
      modifies this`reserves, this`balances
      ensures Reflects(Clear(old(Model()), u, d, t, balance), old(Model()), r, Model())
    {
      var k, b := AuthorizedKey(u, t, d), Model().BalanceOf(t, u);
      var rest := if Get(reserves, k) <= b.reserved then b.reserved - Get(reserves, k) else 0;
      if !Fits(rest + balance) { return Err(Overflow); }
      balances := balances[(t, u) := Balance(b.free, rest + balance)];
      reserves := reserves[k := balance];
      return Ok(());
    }

    method AddProfit(d: Account, season: nat, t: Token, x: nat) returns (r: Result<(), Error>)
      modifies this`bonuses
      ensures Reflects(PutProfit(old(Model()), d, season, t, x), old(Model()), r, Model())
    {
      if x == 0 { return Ok(()); }
      var b := Model().BonusOf(d, season);
      var p := if t in b.profit then b.profit[t] + x else x;
      if !Fits(p) { return Err(Overflow); }
      bonuses := bonuses[(d, season) := b.(profit := b.profit[t := p])];
      return Ok(());
    }

    // ---- shares ----

    /** Credits the shares token by token; the first that does not fit undoes them all. */
    method CreditShares(u: Account, shares: map<Token, nat>) returns (r: Result<(), Error>)
      modifies this`balances
      ensures var s := old(Model());
              if CreditFits(s, u, shares) then r.Ok? && balances == Credited(s, u, shares)
              else r == Err(Overflow) && balances == old(balances)
    {
      hide Credited, State.BalanceOf, CreditFits, Part;
      var before, todo := balances, shares.Keys;
      ghost var s := Model();
      ghost var done: map<Token, nat> := map[];
      NothingCredited(s, u);
      NothingDone(s, u, shares);
      r := Ok(());
      while todo != {} && r.Ok?
        invariant todo <= shares.Keys && done.Keys == shares.Keys - todo && Part(done, shares)
        invariant r.Ok? ==> balances == Credited(s, u, done) && CreditFits(s, u, done)
        invariant r.Err? ==> r.error == Overflow && !CreditFits(s, u, shares)
        decreases |todo|
      {
        ghost var some := AnyOf(todo);
        assert some in todo;
        var t :| t in todo;
        CreditStep(s, u, shares, done, t);
        var b := Model().BalanceOf(t, u);
        if Fits(b.free + shares[t]) {
          balances := balances[(t, u) := Balance(b.free + shares[t], b.reserved)];
        } else {
          r := Err(Overflow);
        }
        todo, done := todo - {t}, done[t := shares[t]];
      }
      if r.Err? {
        balances := before;
      } else {
        WholePart(done, shares);
      }
    }

    method PayShares(d: Account, u: Account, from: nat, to: nat, stake: nat) returns (r: Result<(), Error>)
      modifies this`balances, this`history
      ensures Reflects(TakeShares(old(Model()), d, u, from, to, stake), old(Model()), r, Model())
    {
      hide Shares, Credited, CreditFits, PaidHistory;
      var shares := CollectShares(Model(), d, from, to, stake);
      var recorded := PaidHistory(Model(), d, u, from, to, stake);
      r := CreditShares(u, shares);
      if r.Ok? { history := recorded; }
    }

    /** `pending_shares_of_dominator`. */
    method PendingSharesOf(d: Account, u: Account) returns (r: Result<nat, Error>)
      requires config.Valid()
      ensures r == if Fits(Pending(config, Model(), d, u)) then Ok(Pending(config, Model(), d, u)) else Err(Overflow)
    {
      hide SeasonTotals;
      var start := if d in dominators then dominators[d].startFrom else 0;
      if start == 0 { return Ok(0); }
      var season := CurrentSeason(config, now, start);
      var staking := Model().StakingOf(d, u);
      if staking.amount == 0 { return Ok(0); }
      r := TotalOfSeasons(Model(), d, staking.fromSeason, season, staking.amount);
    }

    // ---- staking ----

    method StakeOn(u: Account, d: Account, x: nat) returns (r: Result<(), Error>)
      requires config.Valid()
      modifies this
      ensures Reflects(DoStake(config, old(Model()), u, d, x), old(Model()), r, Model())
    {
      hide Reserve, TakeShares, CurrentSeason, OnlineStatus;
      if x < config.minStake { return Err(LittleStakingAmount); }
      if d !in dominators { return Err(DominatorNotFound); }
      var saved, dom, staking := Model(), dominators[d], Model().StakingOf(d, u);
      if dom.status != Active && dom.status != Inactive { return Err(DominatorStatusInvalid); }
      r := ReserveFunds(Staked, u, config.native, x, d);
      if r.Err? { return; }
      var season := CurrentSeason(config, now, dom.startFrom);
      if staking.amount != 0 { r := PayShares(d, u, staking.fromSeason, season, staking.amount); }
      if r.Ok? && (!Fits(staking.amount + x) || !Fits(dom.staked + x)) { r := Err(Overflow); }
      if r.Err? {
        Restore(saved);
        return;
      }
      WriteStake(d, u, Staking(season, staking.amount + x),
                 dom.(staked := dom.staked + x, status := OnlineStatus(config, dom.staked + x)));
    }

    /** Writes a staker's entry, unless nothing is left of it, and the dominator's record. */
    method WriteStake(d: Account, u: Account, staking: Staking, dom: Dominator)
      modifies this`stakings, this`dominators
      ensures stakings == if staking.amount == 0 then old(stakings) - {(d, u)} else old(stakings)[(d, u) := staking]
      ensures dominators == old(dominators)[d := dom]
    {
      if staking.amount == 0 {
        stakings := stakings - {(d, u)};
      } else {
        stakings := stakings[(d, u) := staking];
      }
      dominators := dominators[d := dom];
    }

    method Queue(u: Account, d: Account, x: nat) returns (r: Result<(), Error>)
      requires config.Valid()
      modifies this`reserves, this`balances, this`pending, this`history
      ensures Reflects(MoveToPending(config, old(Model()), u, d, x), old(Model()), r, Model())
    {
      hide Reserve, Unreserve;
      var held, purse := reserves, balances;
      r := UnreserveFunds(Staked, u, config.native, x, d);
      if r.Err? { return; }
      r := ReserveFunds(PendingUnstake, u, config.native, x, config.system);
      var k := (now - now % config.grace + UNSTAKE_DELAY, u);
      if r.Ok? && !Fits(Get(pending, k) + x) { r := Err(Overflow); }
      if r.Err? {
        reserves, balances := held, purse;
        return;
      }
      pending := pending[k := Get(pending, k) + x];
      history := Then(history, TaoUnstaked(u, x, k.0, now));
    }

    method UnstakeFrom(u: Account, d: Account, x: nat) returns (r: Result<(), Error>)
      requires config.Valid()
      modifies this
      ensures Reflects(DoUnstake(config, old(Model()), u, d, x), old(Model()), r, Model())
    {
      hide MoveToPending, TakeShares, CurrentSeason, OnlineStatus;
      if d !in dominators { return Err(DominatorNotFound); }
      var saved, dom := Model(), dominators[d];
      if dom.status == Registered { return Err(DominatorStatusInvalid); }
      if dom.staked < x { return Err(InsufficientBalance); }
      if (d, u) !in stakings { return Err(InvalidStaking); }
      var staking := stakings[(d, u)];
      if staking.amount < x { return Err(InsufficientBalance); }
      var remain := staking.amount - x;
      if remain != 0 && remain < config.minStake { return Err(LittleStakingAmount); }
      r := Queue(u, d, x);
      if r.Err? { return; }
      var season := CurrentSeason(config, now, dom.startFrom);
      r := PayShares(d, u, staking.fromSeason, season, staking.amount);
      if r.Err? {
        Restore(saved);
        return;
      }
      var status := if dom.status == Evicted then Evicted else OnlineStatus(config, dom.staked - x);
      WriteStake(d, u, Staking(season, remain), dom.(staked := dom.staked - x, status := status));
    }

    method Claim(u: Account, d: Account) returns (r: Result<(), Error>)
      requires config.Valid()
      modifies this
      ensures Reflects(DoClaim(config, old(Model()), u, d), old(Model()), r, Model())
    {
      hide TakeShares;
      if d !in dominators { return Err(DominatorNotFound); }
      if dominators[d].status == Registered { return Err(DominatorStatusInvalid); }
      if (d, u) !in stakings { return Err(InvalidStaking); }
      var staking, season := stakings[(d, u)], CurrentSeason(config, now, dominators[d].startFrom);
      r := PayShares(d, u, staking.fromSeason, season, staking.amount);
      if r.Ok? { stakings := stakings[(d, u) := staking.(fromSeason := season)]; }
    }

    // ---- receipts ----

    method Authorize(u: Account, d: Account, t: Token, x: nat) returns (r: Result<(), Error>)
      modifies this
      ensures Reflects(DoAuthorize(old(Model()), u, d, t, x), old(Model()), r, Model())
    {
      hide Reserve;
      if d !in dominators { return Err(DominatorNotFound); }
      if dominators[d].status != Active { return Err(DominatorInactive); }
      if (d, u) in receipts { return Err(ReceiptAlreadyExists); }
      if Model().BalanceOf(t, u).free < x { return Err(InsufficientBalance); }
      r := ReserveFunds(Stashed, u, t, x, d);
      if r.Ok? { Open(d, u, Receipt.Authorize(t, x, now)); }
    }

    method Open(d: Account, u: Account, receipt: Receipt)
      modifies this`receipts, this`history
      ensures Model() == OpenReceipt(old(Model()), d, u, receipt)
    {
      receipts := receipts[(d, u) := receipt];
      history := Then(history, ReceiptOpened(d, u, receipt));
    }

    method Drop(d: Account, u: Account)
      modifies this`receipts, this`history
      ensures Model() == DropReceipt(old(Model()), d, u)
    {
      if (d, u) in receipts {
        history := Then(history, ReceiptDropped(d, u, receipts[(d, u)]));
        receipts := receipts - {(d, u)};
      }
    }

    method Fold(u: Account, d: Account, t: Token) returns (r: Result<(), Error>)
      modifies this`reserves
      ensures Reflects(FoldStash(old(Model()), u, d, t), old(Model()), r, Model())
    {
      var stash, auth := ReserveKey(Stashed, u, t, d), AuthorizedKey(u, t, d);
      var av := Get(reserves, stash);
      if av != 0 && !Fits(Get(reserves, auth) + av) { return Err(Overflow); }
      reserves := reserves - {stash};
      if av != 0 { reserves := reserves[auth := Get(reserves, auth) + av]; }
      return Ok(());
    }

    method RevokeAuthority(u: Account, d: Account, t: Token, x: nat, callback: Option<nat>) returns (r: Result<(), Error>)
      modifies this
      ensures Reflects(DoRevoke(config, old(Model()), u, d, t, x, callback), old(Model()), r, Model())
    {
      hide FoldStash, Unreserve, DropReceipt, OpenReceipt;
      if Get(reserves, AuthorizedKey(u, t, d)) < x { return Err(InsufficientBalance); }
      if d !in dominators { return Err(DominatorNotFound); }
      if dominators[d].status == Registered { return Err(DominatorStatusInvalid); }
      if dominators[d].status == Evicted {
        var saved := Model();
        r := Fold(u, d, t);
        if r.Err? { return; }
        r := UnreserveFunds(Authorized, u, t, x, d);
        if r.Err? {
          Restore(saved);
          return;
        }
        Drop(d, u);
        return;
      }
      if (d, u) in receipts { return Err(ReceiptAlreadyExists); }
      Open(d, u, Revoke(t, x, now, callback));
      return Ok(());
    }

    // ---- proofs ----

    method ClearAll(d: Account, base: Token, quote: Token, users: seq<Mutation>) returns (r: Result<(), Error>)
      modifies this
      ensures Reflects(ClearUsers(old(Model()), d, base, quote, users), old(Model()), r, Model())
    {
      hide Clear;
      var saved := Model();
      for i := 0 to |users|
        invariant ClearUsers(saved, d, base, quote, users[..i]) == Ok(Model())
      {
        assert users[..i + 1][..i] == users[..i];
        r := ClearFunds(users[i].who, d, base, users[i].baseValue);
        if r.Ok? { r := ClearFunds(users[i].who, d, quote, users[i].quoteValue); }
        if r.Err? {
          ClearingStops(saved, d, base, quote, users, i + 1);
          Restore(saved);
          return;
        }
      }
      assert users[..|users|] == users;
      return Ok(());
    }

    method CreditDominator(d: Account, t: Token, x: nat) returns (r: Result<(), Error>)
      modifies this`balances
      ensures Reflects(CreditFee(old(Model()), d, t, x), old(Model()), r, Model())
    {
      if x == 0 { return Ok(()); }
      var b := Model().BalanceOf(t, d);
      if !Fits(b.free + x) { return Err(Overflow); }
      balances := balances[(t, d) := b.(free := b.free + x)];
      return Ok(());
    }

    method SettleOrder(d: Account, season: nat, base: Token, quote: Token, cl: Clearing) returns (r: Result<(), Error>)
      modifies this
      ensures Reflects(Settle(old(Model()), d, season, base, quote, cl), old(Model()), r, Model())
    {
      hide ClearUsers, PutProfit, CreditFee;
      var saved := Model();
      if |cl.users| > 1 {
        r := ClearAll(d, base, quote, cl.users);
        if r.Err? { return; }
      }
      r := AddProfit(d, season, quote, cl.quoteFee);
      if r.Ok? { r := CreditDominator(d, base, cl.baseFee); }
      if r.Err? { Restore(saved); }
    }

    method TakeOrder(d: Account, p: Proof, stable: set<Token>) returns (r: Result<(), Error>)
      requires config.Valid() && d in dominators && (p.cmd.AskLimit? || p.cmd.BidLimit?)
      modifies this
      ensures Reflects(ApplyOrder(config, old(Model()), d, p, stable), old(Model()), r, Model())
    {
      hide Settle, AskAccepted, BidAccepted, AskClearing, BidClearing, Order.Shapes;
      if !FeesOk(config, p.cmd.takerFee, p.cmd.makerFee) { return Err(FeesTooHigh); }
      if p.cmd.quote !in stable { return Err(UnsupportedQuoteCurrency); }
      if p.makerAccounts % 2 != 0 { return Err(ProofsUnsatisfied); }
      var o, checked := OrderOf(p.cmd, p), Err(ProofsUnsatisfied);
      if p.cmd.AskLimit? {
        checked := VerifyAskLimit(o, d, reserves, p.leaves);
      } else {
        checked := VerifyBidLimit(o, d, reserves, p.leaves);
      }
      if checked.Err? { return Err(ProofsUnsatisfied); }
      var season := CurrentSeason(config, now, dominators[d].startFrom);
      r := SettleOrder(d, season, p.cmd.base, p.cmd.quote, checked.value);
    }

    method TakeCommand(d: Account, p: Proof) returns (r: Result<(), Error>)
      requires !p.cmd.AskLimit? && !p.cmd.BidLimit?
      modifies this
      ensures Reflects(ApplyCommand(config, old(Model()), d, p), old(Model()), r, Model())
    {
      hide Unreserve, CancelAccepted, TransferInAccepted, TransferOutAccepted, RejectOutAccepted, DropReceipt;
      var u, cmd := p.user, p.cmd;
      if cmd.Cancel? {
        if !CancelAccepted(cmd, u, p.leaves) { return Err(ProofsUnsatisfied); }
      } else if cmd.TransferOut? {
        if !Matches(Model(), d, u, false, cmd.token, cmd.amount) { return Err(ReceiptNotExists); }
        if !TransferOutAccepted(cmd, u, p.leaves) { return Err(ProofsUnsatisfied); }
        r := UnreserveFunds(Authorized, u, cmd.token, cmd.amount, d);
        if r.Err? { return; }
        Consume(d, u);
      } else if cmd.TransferIn? {
        if !Matches(Model(), d, u, true, cmd.token, cmd.amount) { return Err(ReceiptNotExists); }
        if !TransferInAccepted(cmd, u, p.leaves) { return Err(ProofsUnsatisfied); }
        r := MoveStash(d, u, cmd.token, cmd.amount);
        return;
      } else if cmd.RejectTransferOut? {
        if !Matches(Model(), d, u, false, cmd.token, cmd.amount) { return Err(ReceiptNotExists); }
        if !RejectOutAccepted(cmd, u, p.leaves) { return Err(ProofsUnsatisfied); }
        Drop(d, u);
      } else {
        if (d, u) in receipts && !receipts[(d, u)].Authorize? { return Err(ReceiptNotExists); }
        Drop(d, u);
      }
      return Ok(());
    }

    method Consume(d: Account, u: Account)
      requires (d, u) in receipts
      modifies this`receipts, this`history
      ensures Model() == ConsumeReceipt(old(Model()), d, u)
    {
      history := Then(history, ReceiptConsumed(d, u, receipts[(d, u)]));
      receipts := receipts - {(d, u)};
    }

    method MoveStash(d: Account, u: Account, t: Token, x: nat) returns (r: Result<(), Error>)
      requires (d, u) in receipts
      modifies this
      ensures Reflects(ApplyTransferIn(old(Model()), d, u, t, x), old(Model()), r, Model())
    {
      var k := AuthorizedKey(u, t, d);
      if !Fits(Get(reserves, k) + x) { return Err(Overflow); }
      reserves := reserves - {ReserveKey(Stashed, u, t, d)};
      reserves := reserves[k := Get(reserves, k) + x];
      Consume(d, u);
      return Ok(());
    }

    /** One proof against the dominator's current root. */
    method VerifyAndUpdate(d: Account, p: Proof, stable: set<Token>) returns (r: Result<(), Error>)
      requires config.Valid() && d in dominators
      modifies this
      ensures Reflects(VerifyOne(config, old(Model()), d, p, stable), old(Model()), r, Model())
      ensures d in dominators
    {
      hide ApplyOrder, ApplyCommand, Proves, Updated;
      var dom := dominators[d];
      if !Proves(dom.tree, p.leaves) { return Err(ProofsUnsatisfied); }
      if p.cmd.AskLimit? || p.cmd.BidLimit? {
        r := TakeOrder(d, p, stable);
      } else {
        r := TakeCommand(d, p);
      }
      if r.Ok? && Advances(p.cmd) {
        dominators := dominators[d := dom.(tree := Updated(dom.tree, p.leaves), sequence := (p.eventId, now))];
      }
    }

    /** A batch goes through as a whole or not at all. */
    method VerifyBatch(d: Account, proofs: seq<Proof>, stable: set<Token>) returns (r: Result<(), Error>)
      requires config.Valid()
      modifies this
      ensures Reflects(DoVerify(config, old(Model()), d, proofs, stable), old(Model()), r, Model())
    {
      hide VerifyOne;
      if d !in dominators { return Err(DominatorNotFound); }
      if dominators[d].status != Active { return Err(DominatorInactive); }
      var saved := Model();
      for i := 0 to |proofs|
        invariant d in dominators && VerifyAll(config, saved, d, proofs[..i], stable) == Ok(Model())
      {
        assert proofs[..i + 1][..i] == proofs[..i];
        r := VerifyAndUpdate(d, proofs[i], stable);
        if r.Err? {
          BatchStops(config, saved, d, proofs, stable, i + 1);
          Restore(saved);
          return;
        }
      }
      assert proofs[..|proofs|] == proofs;
      return Ok(());
    }

    // ---- the block hook ----

    /** Writes the snapshot of every season that ends with this block. */
    method TakeSnapshots()
      requires config.Valid()
      modifies this`bonuses
      ensures Model() == Snapshots(config, old(Model()))
    {
      hide SnapshotsOf, SnapshotFor, Snapshots;
      var todo := dominators.Keys;
      ghost var s := Model();
      NoSnapshots(config, s);
      while todo != {}
        invariant todo <= dominators.Keys
        invariant bonuses == SnapshotsOf(config, s, dominators.Keys - todo)
        decreases |todo|
      {
        ghost var some := AnyOf(todo);
        assert some in todo;
        var d :| d in todo;
        ghost var done := dominators.Keys - todo;
        SnapshotStep(config, s, done, d);
        SnapshotOne(d);
        todo := todo - {d};
        assert dominators.Keys - todo == done + {d};
      }
      assert dominators.Keys - todo == s.dominators.Keys;
      AllSnapshots(config, s);
    }

    method SnapshotOne(d: Account)
      requires config.Valid() && d in dominators
      modifies this`bonuses
      ensures bonuses == SnapshotFor(config, old(Model()), d)
    {
      var start := dominators[d].startFrom;
      if start < now && (now - start) % config.seasonDuration == 0 {
        EndingSeason(config, now, start);
        var ended := (now - start) / config.seasonDuration - 1;
        bonuses := bonuses[(d, ended) := Model().BonusOf(d, ended).(staked := dominators[d].staked)];
      }
    }

    method ReleaseFunds(u: Account)
      modifies this
      ensures Model() == Release(config, old(Model()), u)
    {
      hide Unreserve;
      var x := Get(pending, (now, u));
      var r := UnreserveFunds(PendingUnstake, u, config.native, x, config.system);
      if r.Ok? { history := Then(history, TaoUnlocked(u, x, now)); }
      pending := pending - {(now, u)};
    }

    /** `order` lists the stakers due in this block, in storage order. */
    method OnInitialize(order: seq<Account>)
      requires config.Valid()
      modifies this
      ensures Model() == DoNextBlock(config, old(Model()), order)
    {
      hide Snapshots, Release;
      now := now + 1;
      if now % config.grace != 0 { return; }
      TakeSnapshots();
      ghost var s := Model();
      for i := 0 to |order|
        invariant Model() == ReleaseAll(config, s, order[..i])
      {
        assert order[..i + 1][..i] == order[..i];
        ReleaseFunds(order[i]);
      }
      assert order[..|order|] == order;
    }

    // ---- runs of the object ----

    /** The object stands where the calls made on it lead from genesis. */
    ghost predicate Valid()
      reads this
    {
      config.Valid() && Possible(config, trace) && Model() == Run(config, trace)
    }

    method Handle(op: Op) returns (r: Result<(), Error>)
      requires config.Valid()
      modifies this
      ensures Reflects(Step(config, old(Model()), op), old(Model()), r, Model())
    {
      hide DoRegister, DoEvict, DoLaunch, DoStake, DoUnstake, DoClaim, DoAuthorize, DoRevoke, DoVerify, DoNextBlock;
      match op
      case Register(d) => r := Register(d);
      case Evict(d) => r := EvictDominator(d);
      case Launch(d) => r := LaunchDominator(d);
      case Stake(u, d, x) => r := StakeOn(u, d, x);
      case Unstake(u, d, x) => r := UnstakeFrom(u, d, x);
      case ClaimShares(u, d) => r := Claim(u, d);
      case AuthorizeTo(u, d, t, x) => r := Authorize(u, d, t, x);
      case RevokeFrom(u, d, t, x, callback) => r := RevokeAuthority(u, d, t, x, callback);
      case Verify(d, proofs, stable) => r := VerifyBatch(d, proofs, stable);
      case NextBlock(order) => OnInitialize(order); r := Ok(());
      case OtherPallets(t, u, free) =>
        balances := balances[(t, u) := Model().BalanceOf(t, u).(free := free)];
        r := Ok(());
    }

    /** A recorded call or block: whatever came before, the object can be trusted; no eviction is lifted;
        and if all proofs so far were well-formed, the ledger follows the trees. */
    method Dispatch(op: Op) returns (r: Result<(), Error>)
      requires Valid() && Enabled(config, Model(), op)
      modifies this
      ensures Valid() && trace == old(trace) + [op]
      ensures Reflects(Step(config, old(Model()), op), old(Model()), r, Model())
      ensures Trusted(config, Model())
      ensures forall d :: IsEvicted(old(Model()), d) ==> IsEvicted(Model(), d)
      ensures (forall i :: 0 <= i < |trace| ==> Sound(trace[i], LOOSE)) ==> FollowsTrees(Model())
    {
      hide Step, Enabled, Trusted, IsEvicted, Sound, FollowsTrees;
      ghost var before := trace;
      r := Handle(op);
      assert (before + [op])[..|before|] == before;
      trace := before + [op];
      RunsAreTrusted(config, trace);
      forall d | IsEvicted(Run(config, before), d) ensures IsEvicted(Run(config, trace), d) {
        EvictionIsAbsorbing(config, before, [op], d);
      }
      if forall i :: 0 <= i < |trace| ==> Sound(trace[i], LOOSE) {
        RunsFollowTrees(config, trace);
      }
    }
  }

  /** What holds of the storage of every reachable object: entries are backed and receipts covered,
      receipts go in turn, stakes, seasons and unstakings agree with their records. */
  ghost predicate Trusted(c: Config, s: State)
    requires c.Valid()
  {
    && Backed(s)
    && (forall d, u :: InTurn(s, d, u))
    && (forall d :: TotalOk(c, s, d))
    && (forall d, u :: StakerOk(c, s, d, u))
    && (forall d, k, u :: SeasonOk(c, s, d, k, u))
    && (forall u, b :: OnTime(c, s, u, b))
    && (forall u :: QueueReserved(c, s, u))
  }

  lemma RunsAreTrusted(c: Config, ops: seq<Op>)
    requires c.Valid() && Possible(c, ops)
    ensures Trusted(c, Run(c, ops))
  {
    hide Run, Backed, InTurn, TotalOk, StakerOk, SeasonOk, OnTime, QueueReserved;
    var s := Run(c, ops);
    RunsAreBacked(c, ops);
    forall d, u ensures InTurn(s, d, u) { RunsFollowProtocol(c, ops, d, u); }
    forall d ensures TotalOk(c, s, d) { StakeTotalsAgree(c, ops, d); }
    forall d, u ensures StakerOk(c, s, d, u) { StakersAreReserved(c, ops, d, u); }
    forall d, k, u ensures SeasonOk(c, s, d, k, u) { SeasonsArePaidOnce(c, ops, d, k, u); }
    forall u, b ensures OnTime(c, s, u, b) { UnstakesAreReleasedOnTime(c, ops, u, b); }
    forall u ensures QueueReserved(c, s, u) { UnstakesAreReleasedOnTime(c, ops, u, 0); }
  }

  /** At every dominator that is not evicted the ledger is within the slack and one unit of the tree. */
  predicate FollowsTree(s: State, d: Account, u: Account, t: Token) {
    !IsEvicted(s, d) ==> Abs(Gap(s, d, u, t)) <= LOOSE
  }

  ghost predicate FollowsTrees(s: State) { forall d, u, t :: FollowsTree(s, d, u, t) }

  lemma RunsFollowTrees(c: Config, ops: seq<Op>)
    requires c.Valid() && forall i :: 0 <= i < |ops| ==> Sound(ops[i], LOOSE)
    ensures FollowsTrees(Run(c, ops))
  {
    hide Run, Gap;
    forall d, u, t ensures FollowsTree(Run(c, ops), d, u, t) {
      if !IsEvicted(Run(c, ops), d) {
        LedgerFollowsTree(c, ops, d, u, t);
      }
    }
  }

  // ---- snapshots, dominator by dominator ----

  predicate EndsAt(c: Config, s: State, done: set<Account>, k: (Account, nat))
    requires c.seasonDuration > 0
  {
    && k.0 in done && k.0 in s.dominators && SeasonEnds(c, s.dominators[k.0], s.now)
    && k.1 + 1 == CurrentSeason(c, s.now, s.dominators[k.0].startFrom)
  }

  /** The season records once the dominators in `done` are served. */
  function SnapshotsOf(c: Config, s: State, done: set<Account>): map<(Account, nat), Bonus>
    requires c.seasonDuration > 0
  {
    map k | k in s.bonuses.Keys + Ending(c, s) && (k in s.bonuses || EndsAt(c, s, done, k)) ::
      if EndsAt(c, s, done, k) then s.BonusOf(k.0, k.1).(staked := s.dominators[k.0].staked)
      else s.BonusOf(k.0, k.1)
  }

  lemma InEnding(c: Config, s: State, k: (Account, nat))
    requires c.Valid()
    ensures EndsAt(c, s, s.dominators.Keys, k) <==> k in Ending(c, s)
  {
    var d := k.0;
    if d in s.dominators && SeasonEnds(c, s.dominators[d], s.now) {
      EndingSeason(c, s.now, s.dominators[d].startFrom);
      assert (d, CurrentSeason(c, s.now, s.dominators[d].startFrom) - 1) in Ending(c, s);
    }
  }

  lemma NoSnapshots(c: Config, s: State)
    requires c.seasonDuration > 0
    ensures SnapshotsOf(c, s, s.dominators.Keys - s.dominators.Keys) == s.bonuses
  {
    var m := SnapshotsOf(c, s, s.dominators.Keys - s.dominators.Keys);
    forall k | k in s.bonuses ensures k in m && m[k] == s.bonuses[k] {
      assert k == (k.0, k.1);
    }
    assert m.Keys == s.bonuses.Keys;
  }

  lemma AllSnapshots(c: Config, s: State)
    requires c.Valid()
    ensures Snapshots(c, s) == s.(bonuses := SnapshotsOf(c, s, s.dominators.Keys))
  {
    hide Ending;
    var m, n := Snapshots(c, s).bonuses, SnapshotsOf(c, s, s.dominators.Keys);
    forall k ensures EndsAt(c, s, s.dominators.Keys, k) <==> k in Ending(c, s) { InEnding(c, s, k); }
    assert m.Keys == n.Keys;
    assert forall k :: k in m ==> m[k] == n[k];
  }

  /** Serving dominator `d` writes at most the record of its ended season. */
  function SnapshotFor(c: Config, s: State, d: Account): map<(Account, nat), Bonus>
    requires c.Valid() && d in s.dominators
  {
    var dom := s.dominators[d];
    if !SeasonEnds(c, dom, s.now) then s.bonuses
    else
      EndingSeason(c, s.now, dom.startFrom);
      var k := CurrentSeason(c, s.now, dom.startFrom) - 1;
      s.bonuses[(d, k) := s.BonusOf(d, k).(staked := dom.staked)]
  }

  lemma SnapshotStep(c: Config, s: State, done: set<Account>, d: Account)
    requires c.Valid() && d in s.dominators && d !in done
    ensures SnapshotsOf(c, s, done + {d}) == SnapshotFor(c, s.(bonuses := SnapshotsOf(c, s, done)), d)
  {
    hide SnapshotsOf;
    var dom := s.dominators[d];
    if SeasonEnds(c, dom, s.now) {
      EndingSeason(c, s.now, dom.startFrom);
      EndingStep(c, s, done, d, CurrentSeason(c, s.now, dom.startFrom) - 1);
    } else {
      SkippingStep(c, s, done, d);
    }
  }

  lemma SkippingStep(c: Config, s: State, done: set<Account>, d: Account)
    requires c.Valid() && d in s.dominators && !SeasonEnds(c, s.dominators[d], s.now)
    ensures SnapshotsOf(c, s, done + {d}) == SnapshotsOf(c, s, done)
  {
    hide Ending, CurrentSeason, State.BonusOf;
    SameMap(SnapshotsOf(c, s, done + {d}), SnapshotsOf(c, s, done));
  }

  lemma EndingStep(c: Config, s: State, done: set<Account>, d: Account, k: nat)
    requires c.Valid() && d in s.dominators && d !in done && SeasonEnds(c, s.dominators[d], s.now)
    requires k + 1 == CurrentSeason(c, s.now, s.dominators[d].startFrom)
    ensures var m := SnapshotsOf(c, s, done);
            SnapshotsOf(c, s, done + {d}) == m[(d, k) := s.(bonuses := m).BonusOf(d, k).(staked := s.dominators[d].staked)]
  {
    var m, n := SnapshotsOf(c, s, done), SnapshotsOf(c, s, done + {d});
    InEnding(c, s, (d, k));
    hide Ending, CurrentSeason, SeasonEnds;
    var put := m[(d, k) := s.(bonuses := m).BonusOf(d, k).(staked := s.dominators[d].staked)];
    assert forall j :: EndsAt(c, s, done + {d}, j) <==> EndsAt(c, s, done, j) || j == (d, k);
    SameMap(n, put);
  }

  /** The first failure decides the outcome. */
  lemma {:induction false} ClearingStops(s: State, d: Account, base: Token, quote: Token, users: seq<Mutation>, n: nat)
    requires n <= |users| && ClearUsers(s, d, base, quote, users[..n]).Err?
    ensures ClearUsers(s, d, base, quote, users) == ClearUsers(s, d, base, quote, users[..n])
  {
    hide Clear;
    if n < |users| {
      var m := |users| - 1;
      assert users[..m][..n] == users[..n];
      ClearingStops(s, d, base, quote, users[..m], n);
    } else {
      assert users[..n] == users;
    }
  }

  lemma {:induction false} BatchStops(c: Config, s: State, d: Account, proofs: seq<Proof>, stable: set<Token>, n: nat)
    requires c.seasonDuration > 0 && d in s.dominators
    requires n <= |proofs| && VerifyAll(c, s, d, proofs[..n], stable).Err?
    ensures VerifyAll(c, s, d, proofs, stable) == VerifyAll(c, s, d, proofs[..n], stable)
  {
    hide VerifyOne;
    if n < |proofs| {
      var m := |proofs| - 1;
      assert proofs[..m][..n] == proofs[..n];
      BatchStops(c, s, d, proofs[..m], stable, n);
    } else {
      assert proofs[..n] == proofs;
    }
  }
}
