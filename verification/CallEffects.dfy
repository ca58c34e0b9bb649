/** Which calls of the verifier pallet are accepted, and what receipts and orders they stand for. */
module CallEffects {
  import opened Results
  import opened FixedPoint
  import opened VerifierTypes
  import opened VerifierState
  import opened VerifierSteps
  import opened Orders
  import opened Entries
  import opened Agreement
  import opened Conservation

  function StatusOf(s: State, d: Account): Option<Status> {
    if d in s.dominators then Some(s.dominators[d].status) else None
  }

  /** Setting aside is possible exactly with the free amount and room for it. */
  lemma SetsAsideIff(s: State, id: ReserveId, u: Account, t: Token, x: nat, h: Account)
    ensures Reserve(s, id, u, t, x, h).Ok? <==>
              || x == 0
              || (&& x <= s.BalanceOf(t, u).free && s.BalanceOf(t, u).reserved + x <= U128_MAX
                  && Entry(s, ReserveKey(id, u, t, h)) + x <= U128_MAX)
  {
  }

  // ---- receipts ----

  /** Funds can be hosted exactly at an Active dominator, with no receipt open and the amount free. */
  lemma AuthorizeAcceptedIff(s: State, u: Account, d: Account, t: Token, x: nat)
    ensures DoAuthorize(s, u, d, t, x).Ok? <==>
              && StatusOf(s, d) == Some(Active) && (d, u) !in s.receipts && x <= s.BalanceOf(t, u).free
              && (x > 0 ==> s.BalanceOf(t, u).reserved + x <= U128_MAX && Entry(s, ReserveKey(Stashed, u, t, d)) + x <= U128_MAX)
  {
    hide Reserve;
    SetsAsideIff(s, Stashed, u, t, x, d);
  }

  /** That opens a receipt for just this deposit and moves the amount from free to reserved and into the stash. */
  lemma AuthorizeEffect(s: State, u: Account, d: Account, t: Token, x: nat, T: Token, v: Account)
    requires DoAuthorize(s, u, d, t, x).Ok?
    ensures var s', y := DoAuthorize(s, u, d, t, x).value, if T == t && v == u then x else 0;
            && s'.receipts == s.receipts[(d, u) := Authorize(t, x, s.now)]
            && Entry(s', ReserveKey(Stashed, u, t, d)) == Entry(s, ReserveKey(Stashed, u, t, d)) + x
            && s'.BalanceOf(T, v).free + y == s.BalanceOf(T, v).free
            && s'.BalanceOf(T, v).reserved == s.BalanceOf(T, v).reserved + y
  {
    hide Reserve;
    ReserveBalance(s, Stashed, u, t, x, d, v, T);
    ReserveEntry(s, Stashed, u, t, x, d, ReserveKey(Stashed, u, t, d));
    assert Reserve(s, Stashed, u, t, x, d).value.BalanceOf(T, v) == DoAuthorize(s, u, d, t, x).value.BalanceOf(T, v);
    ReserveHalves(s, u, t, x, d, T, v);
  }

  lemma ReserveHalves(s: State, u: Account, t: Token, x: nat, d: Account, T: Token, v: Account)
    requires Reserve(s, Stashed, u, t, x, d).Ok?
    ensures var s', y := Reserve(s, Stashed, u, t, x, d).value, if T == t && v == u then x else 0;
            && s'.BalanceOf(T, v).free + y == s.BalanceOf(T, v).free
            && s'.BalanceOf(T, v).reserved == s.BalanceOf(T, v).reserved + y
  {
    hide Reserve;
    SetsAsideIff(s, Stashed, u, t, x, d);
    ReserveBalance(s, Stashed, u, t, x, d, v, T);
  }

  /** At a launched dominator that is not evicted a withdrawal can be asked for exactly with no receipt open and the
      amount authorised; that opens a receipt for just this withdrawal and moves nothing. */
  lemma RevokeAcceptedIff(c: Config, s: State, u: Account, d: Account, t: Token, x: nat, callback: Option<nat>)
    requires StatusOf(s, d) == Some(Active) || StatusOf(s, d) == Some(Inactive)
    ensures DoRevoke(c, s, u, d, t, x, callback).Ok? <==> (d, u) !in s.receipts && x <= Entry(s, AuthorizedKey(u, t, d))
    ensures DoRevoke(c, s, u, d, t, x, callback).Ok? ==>
              var s', r := DoRevoke(c, s, u, d, t, x, callback).value, Revoke(t, x, s.now, callback);
              s' == s.(receipts := s.receipts[(d, u) := r], history := Then(s.history, ReceiptOpened(d, u, r)))
  {
  }

  /** Nothing can be revoked from an unknown or merely registered dominator. */
  lemma RevokeNeedsALaunch(c: Config, s: State, u: Account, d: Account, t: Token, x: nat, callback: Option<nat>)
    requires StatusOf(s, d) == None || StatusOf(s, d) == Some(Registered)
    ensures DoRevoke(c, s, u, d, t, x, callback).Err?
  {
  }

  // ---- dominators ----

  lemma RegisterAcceptedIff(c: Config, s: State, d: Account)
    requires c.Valid()
    ensures DoRegister(c, s, d).Ok? <==> d !in s.dominators && c.grace <= s.now
    ensures DoRegister(c, s, d).Ok? ==>
              var dom := DoRegister(c, s, d).value.dominators[d];
              dom.status == Registered && dom.staked == 0 && dom.tree == map[] && s.now < dom.startFrom + c.grace
  {
  }

  lemma EvictAcceptedIff(s: State, d: Account)
    ensures DoEvict(s, d).Ok? <==> d in s.dominators
    ensures DoEvict(s, d).Ok? ==> StatusOf(DoEvict(s, d).value, d) == Some(Evicted)
  {
  }

  lemma LaunchAcceptedIff(s: State, d: Account)
    ensures DoLaunch(s, d).Ok? <==> StatusOf(s, d) == Some(Registered)
    ensures DoLaunch(s, d).Ok? ==> StatusOf(DoLaunch(s, d).value, d) == Some(Inactive)
  {
  }

  // ---- staking ----

  predicate CanTake(s: State, d: Account, u: Account, from: nat, to: nat, stake: nat) {
    CreditFits(s, u, Shares(s, d, from, to, stake))
  }

  /** A stake is accepted exactly at a launched dominator that is not evicted, from the minimal stake on, with the
      amount free; shares that fall due have to fit. */
  lemma StakeAcceptedIff(c: Config, s: State, u: Account, d: Account, x: nat)
    requires c.Valid()
    ensures var was := s.StakingOf(d, u);
            DoStake(c, s, u, d, x).Ok? <==>
              && x >= c.minStake && (StatusOf(s, d) == Some(Active) || StatusOf(s, d) == Some(Inactive))
              && x <= s.BalanceOf(c.native, u).free && s.BalanceOf(c.native, u).reserved + x <= U128_MAX
              && Entry(s, ReserveKey(Staked, u, c.native, d)) + x <= U128_MAX
              && (was.amount == 0 || CanTake(Reserve(s, Staked, u, c.native, x, d).value, d, u, was.fromSeason,
                                             CurrentSeason(c, s.now, s.dominators[d].startFrom), was.amount))
              && was.amount + x <= U128_MAX && s.dominators[d].staked + x <= U128_MAX
  {
    hide Reserve, CreditFits, Shares, Credited, PaidHistory, CurrentSeason;
    SetsAsideIff(s, Staked, u, c.native, x, d);
  }

  /** An unstaking is accepted exactly at a launched or evicted dominator, up to the stake, leaving nothing or at
      least the minimal stake; the funds have to move and the shares that fall due have to fit. */
  lemma UnstakeAcceptedIff(c: Config, s: State, u: Account, d: Account, x: nat)
    requires c.Valid()
    ensures DoUnstake(c, s, u, d, x).Ok? <==>
              && d in s.dominators && s.dominators[d].status != Registered && (d, u) in s.stakings
              && x <= s.stakings[(d, u)].amount && x <= s.dominators[d].staked
              && (x == s.stakings[(d, u)].amount || c.minStake + x <= s.stakings[(d, u)].amount)
              && MoveToPending(c, s, u, d, x).Ok?
              && CanTake(MoveToPending(c, s, u, d, x).value, d, u, s.stakings[(d, u)].fromSeason,
                         CurrentSeason(c, s.now, s.dominators[d].startFrom), s.stakings[(d, u)].amount)
  {
    hide MoveToPending, CreditFits, Shares, Credited, PaidHistory, CurrentSeason;
  }

  lemma ClaimAcceptedIff(c: Config, s: State, u: Account, d: Account)
    requires c.Valid()
    ensures DoClaim(c, s, u, d).Ok? <==>
              && d in s.dominators && s.dominators[d].status != Registered && (d, u) in s.stakings
              && CanTake(s, d, u, s.stakings[(d, u)].fromSeason, CurrentSeason(c, s.now, s.dominators[d].startFrom),
                         s.stakings[(d, u)].amount)
  {
    hide CreditFits, Shares, Credited, PaidHistory, CurrentSeason;
  }

  // ---- orders ----

  /** An order reaches settlement exactly with both fees within their caps, a stable quote, whole maker pairs and
      leaves that pass; and settlement is then its outcome. */
  lemma OrderReachesSettlementIff(c: Config, s: State, d: Account, p: Proof, stable: set<Token>)
    requires c.Valid() && d in s.dominators && IsOrder(p)
    ensures ApplyOrder(c, s, d, p, stable).Ok? ==>
              && p.cmd.makerFee <= c.maxMakerFee && p.cmd.takerFee <= c.maxTakerFee && p.cmd.quote in stable
              && p.makerAccounts % 2 == 0
    ensures OrderAccepted(c, s, d, p, stable) ==>
              && OrderOf(p.cmd, p).Shapes(p.leaves)
              && ApplyOrder(c, s, d, p, stable)
                 == Settle(s, d, CurrentSeason(c, s.now, s.dominators[d].startFrom), p.cmd.base, p.cmd.quote, OrderClearing(p))
    ensures OrderAccepted(c, s, d, p, stable) <==>
              && p.cmd.makerFee <= c.maxMakerFee && p.cmd.takerFee <= c.maxTakerFee && p.cmd.quote in stable
              && p.makerAccounts == 2 * OrderOf(p.cmd, p).makers
              && (p.cmd.AskLimit? ==> AskAccepted(OrderOf(p.cmd, p), d, s.reserves, p.leaves))
              && (p.cmd.BidLimit? ==> BidAccepted(OrderOf(p.cmd, p), d, s.reserves, p.leaves))
  {
    hide Settle, PartiesOk, Balanced, AskMovesBook, AskMovesPages, BidMovesBook, BidMovesPages, AskClearing, BidClearing, CurrentSeason;
  }

  /** The order that is checked is the one the command states, within fee caps at its own fees. */
  lemma OrderIsTheCommand(c: Config, p: Proof)
    requires c.Valid() && IsOrder(p) && p.cmd.makerFee <= c.maxMakerFee && p.cmd.takerFee <= c.maxTakerFee
    ensures var o := OrderOf(p.cmd, p);
            && o.price == p.cmd.price && o.amount == p.cmd.amount && o.base == p.cmd.base && o.quote == p.cmd.quote
            && o.makerFee == p.cmd.makerFee && o.takerFee == p.cmd.takerFee && o.pages == p.makerPages
  {
  }

  /** Proofs count from an Active dominator only, one after the other, all or none. */
  lemma BatchAcceptedIff(c: Config, s: State, d: Account, proofs: seq<Proof>, stable: set<Token>)
    requires c.Valid()
    ensures DoVerify(c, s, d, proofs, stable).Ok? <==> StatusOf(s, d) == Some(Active) && VerifyAll(c, s, d, proofs, stable).Ok?
    ensures StatusOf(s, d) == Some(Active) && proofs == [] ==> DoVerify(c, s, d, proofs, stable) == Ok(s)
    ensures StatusOf(s, d) == Some(Active) && proofs != [] ==>
              var n := |proofs| - 1;
              var r := DoVerify(c, s, d, proofs[..n], stable);
              DoVerify(c, s, d, proofs, stable) == if r.Ok? then VerifyOne(c, r.value, d, proofs[n], stable) else r
  {
    hide VerifyOne;
    assert DoVerify(c, s, d, [], stable) == if StatusOf(s, d) == Some(Active) then Ok(s) else DoVerify(c, s, d, [], stable);
  }
}
