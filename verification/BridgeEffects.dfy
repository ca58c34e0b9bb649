/** Who pays and who receives in one bridge transfer, and when it is accepted. */
module BridgeEffects {
  import opened Results
  import opened FixedPoint
  import opened BridgeHandler
  import opened TokenEffects
  import S = TokenSupply

  /** The fee as one floor division; nothing while the oracle has no price. */
  function Fee(usd: nat, price: nat): nat {
    if price == 0 then 0 else FloorDiv(usd * QUINTILL, price)
  }

  lemma FeeIs(usd: nat, price: nat)
    ensures BridgingFee(usd, price) == Fee(usd, price)
  {
    if price > 0 {
      FeeIsOneDivision(usd, price);
    }
  }

  function FreeOf(s: State, t: T.Token, u: Account): nat { s.ledger.BalanceOf(t, u).free }

  lemma PayFree(s: State, from: Account, t: T.Token, x: nat, to: Account, t': T.Token, v: Account)
    requires from != to && Pay(s, from, t, x, to).Ok?
    ensures FreeOf(Pay(s, from, t, x, to).value, t', v)
            == FreeOf(s, t', v) + if t' != t then 0 else if v == to then x else if v == from then 0 - x else 0
    ensures Pay(s, from, t, x, to).value.ledger.tokens == s.ledger.tokens
  {
    hide T.TransferToken;
    TransferEffect(s.ledger, from, t, x, to, t', v);
  }

  lemma PayAcceptedIff(s: State, from: Account, x: nat, to: Account)
    requires from != to
    ensures Pay(s, from, T.NATIVE, x, to).Ok? <==>
              x == 0 || (x <= FreeOf(s, T.NATIVE, from) && FreeOf(s, T.NATIVE, to) + x <= U128_MAX)
  {
    hide T.TransferToken;
    TransferAcceptedIff(s.ledger, from, T.NATIVE, x, to);
  }

  // ---- locking ----

  predicate ThreeParties(c: Config, who: Account) { who != c.treasury && who != c.account && c.treasury != c.account }

  /** A lock takes exactly the amount from the sender: the fee goes to the treasury, the rest to the bridge
      account, and the rest is what is announced. */
  lemma LockEffect(c: Config, s: State, who: Account, amount: nat, dest: Chain, price: nat, t: T.Token, v: Account)
    requires ThreeParties(c, who) && DoLock(c, s, who, amount, dest, price).Ok?
    ensures var s', fee := DoLock(c, s, who, amount, dest, price).value, Fee(s.feeUsd, price);
            && 2 * fee < amount && dest in s.bridge.nonces
            && s'.log == s.log + [Out(T.NATIVE, amount - fee, dest, s.bridge.nonces[dest] + 1)]
            && FreeOf(s', t, v)
               == FreeOf(s, t, v)
                  + if t != T.NATIVE then 0
                    else if v == who then 0 - amount
                    else if v == c.treasury then fee
                    else if v == c.account then amount - fee else 0
  {
    hide Pay, BridgingFee, FreeOf;
    FeeIs(s.feeUsd, price);
    var fee := BridgingFee(s.feeUsd, price);
    var s1 := Pay(s, who, T.NATIVE, fee, c.treasury).value;
    var s2 := Pay(s1, who, T.NATIVE, amount - fee, c.account).value;
    PayFree(s, who, T.NATIVE, fee, c.treasury, t, v);
    PayFree(s1, who, T.NATIVE, amount - fee, c.account, t, v);
    assert FreeOf(DoLock(c, s, who, amount, dest, price).value, t, v) == FreeOf(s2, t, v) by {
      SameLedger(DoLock(c, s, who, amount, dest, price).value, s2, t, v);
    }
  }

  lemma SameLedger(s: State, s': State, t: T.Token, v: Account)
    requires s.ledger == s'.ledger
    ensures FreeOf(s, t, v) == FreeOf(s', t, v)
  {
  }

  /** Which locks are accepted: within the limit if there is one, more than twice the fee, and paid for. */
  lemma LockAcceptedIff(c: Config, s: State, who: Account, amount: nat, dest: Chain, price: nat)
    requires ThreeParties(c, who) && dest in s.bridge.nonces
    ensures var fee, held := Fee(s.feeUsd, price), FreeOf(s, T.NATIVE, c.account);
            DoLock(c, s, who, amount, dest, price).Ok? <==>
              && (s.nativeCheck ==> held + amount <= c.nativeMax / 3 && held + amount <= U128_MAX)
              && 2 * fee < amount && 2 * fee <= U128_MAX && amount <= FreeOf(s, T.NATIVE, who)
              && (fee == 0 || FreeOf(s, T.NATIVE, c.treasury) + fee <= U128_MAX)
              && held + amount - fee <= U128_MAX
  {
    hide Pay, BridgingFee;
    FeeIs(s.feeUsd, price);
    var fee := BridgingFee(s.feeUsd, price);
    PayAcceptedIff(s, who, fee, c.treasury);
    if Pay(s, who, T.NATIVE, fee, c.treasury).Ok? && fee <= amount {
      var s1 := Pay(s, who, T.NATIVE, fee, c.treasury).value;
      PayFree(s, who, T.NATIVE, fee, c.treasury, T.NATIVE, who);
      PayFree(s, who, T.NATIVE, fee, c.treasury, T.NATIVE, c.account);
      PayAcceptedIff(s1, who, amount - fee, c.account);
    }
  }

  // ---- burning ----

  /** A burn takes the fee, as a payment to the treasury, and the scaled rest from the sender; the rest
      leaves issuance and is announced in the token's own decimals. */
  lemma BurnAssetsEffect(c: Config, s: State, who: Account, amount: nat, r: Resource, dest: Chain, price: nat, t: T.Token, v: Account)
    requires who != c.treasury && S.LedgerOk(s.ledger) && DoBurnAssets(c, s, who, amount, r, dest, price).Ok?
    ensures (r.chain, r.id) in s.assets && s.assets[(r.chain, r.id)] in s.ledger.tokens
    ensures s.ledger.tokens[s.assets[(r.chain, r.id)]].Bridged?
    ensures var s', fee, e := DoBurnAssets(c, s, who, amount, r, dest, price).value, Fee(s.feeUsd, price), s.assets[(r.chain, r.id)];
            && 2 * fee < amount && dest in s.bridge.nonces
            && s'.log == s.log + [Out(e, amount - fee, dest, s.bridge.nonces[dest] + 1)]
            && var burned := T.Unified(amount - fee, s.ledger.tokens[e].decimals);
            && s'.ledger.Issuance(e) + burned == s.ledger.Issuance(e)
            && FreeOf(s', t, v)
               == FreeOf(s, t, v) + if t != e then 0 else if v == who then 0 - fee - burned else if v == c.treasury then fee else 0
  {
    hide Pay, BridgingFee, FreeOf, T.DoBurn, T.Unified, S.LedgerOk;
    FeeIs(s.feeUsd, price);
    var e, fee := s.assets[(r.chain, r.id)], BridgingFee(s.feeUsd, price);
    var s1 := Pay(s, who, e, fee, c.treasury).value;
    PayFree(s, who, e, fee, c.treasury, t, v);
    PaidLedger(s, who, e, fee, c.treasury);
    BurnableIsBridged(s1.ledger, e, who, amount - fee);
    BurnEffect(s1.ledger, e, who, amount - fee, t, v);
    BurnEffect(s1.ledger, e, who, amount - fee, e, v);
    var l := T.DoBurn(s1.ledger, e, who, amount - fee).value;
    assert FreeOf(s1.(ledger := l), t, v) == l.BalanceOf(t, v).free by { FreeIs(s1.(ledger := l), t, v); }
    FreeIs(s1, t, v);
    SameLedger(DoBurnAssets(c, s, who, amount, r, dest, price).value, s1.(ledger := l), t, v);
  }

  lemma FreeIs(s: State, t: T.Token, v: Account)
    ensures FreeOf(s, t, v) == s.ledger.BalanceOf(t, v).free
  {
  }

  lemma PaidLedger(s: State, from: Account, t: T.Token, x: nat, to: Account)
    requires Pay(s, from, t, x, to).Ok? && S.LedgerOk(s.ledger)
    ensures S.LedgerOk(Pay(s, from, t, x, to).value.ledger)
    ensures forall e :: Pay(s, from, t, x, to).value.ledger.Issuance(e) == s.ledger.Issuance(e)
  {
    hide S.LedgerOk;
    S.StepLedger(s.ledger, T.Transfer(from, t, x, to));
    TransferKeepsTokens(s.ledger, from, t, x, to);
  }

  lemma TransferKeepsTokens(l: T.State, from: Account, t: T.Token, x: nat, to: Account)
    requires T.TransferToken(l, from, t, x, to).Ok?
    ensures T.TransferToken(l, from, t, x, to).value.tokens == l.tokens
    ensures T.Step(l, T.Transfer(from, t, x, to)) == T.TransferToken(l, from, t, x, to)
  {
    hide T.TransferToken;
  }

  lemma BurnableIsBridged(l: T.State, t: T.Token, u: Account, x: nat)
    requires S.LedgerOk(l) && T.DoBurn(l, t, u, x).Ok?
    ensures t in l.tokens && l.tokens[t].Bridged?
  {
    hide T.Unified;
    assert S.IssuanceOk(l, t);
  }

  // ---- routing ----

  /** What is announced is the native token exactly for resources with the native chain and id, whatever
      their dex byte, and otherwise the token the resource stands for. */
  lemma OutgoingTokenIs(c: Config, s: State, who: Account, amount: nat, r: Resource, dest: Chain, price: nat)
    requires TransferOut(c, s, who, amount, r, dest, price).Ok?
    ensures var log, native := TransferOut(c, s, who, amount, r, dest, price).value.log,
                               r.chain == c.nativeResource.chain && r.id == c.nativeResource.id;
            && |log| == |s.log| + 1
            && log[|s.log|].Out? && log[|s.log|].chain == dest
            && (native ==> log[|s.log|].token == T.NATIVE)
            && (!native ==> (r.chain, r.id) in s.assets && log[|s.log|].token == s.assets[(r.chain, r.id)])
  {
    hide Pay, BridgingFee, T.DoBurn;
  }

  lemma IncomingTokenIs(c: Config, s: State, to: Account, amount: nat, r: Resource, accepts: bool, newcomer: bool)
    requires TransferIn(c, s, to, amount, r, accepts, newcomer).Ok?
    ensures var log, native := TransferIn(c, s, to, amount, r, accepts, newcomer).value.log,
                               r.chain == c.nativeResource.chain && r.id == c.nativeResource.id;
            && (native ==> log == s.log + [In(T.NATIVE, amount)])
            && (!native ==> (r.chain, r.id) in s.assets && log == s.log + [In(s.assets[(r.chain, r.id)], amount)])
  {
    hide Pay, T.DoMint, Host, Donate;
  }

  // ---- arrivals ----

  /** A release takes the amount from the bridge account and gives it to the recipient. */
  lemma UnlockEffect(c: Config, s: State, to: Account, amount: nat, t: T.Token, v: Account)
    requires to != c.account && DoUnlock(c, s, to, amount).Ok?
    ensures FreeOf(DoUnlock(c, s, to, amount).value, t, v)
            == FreeOf(s, t, v) + if t != T.NATIVE then 0 else if v == to then amount else if v == c.account then 0 - amount else 0
  {
    hide Pay, FreeOf;
    PayFree(s, c.account, T.NATIVE, amount, to, t, v);
    SameLedger(DoUnlock(c, s, to, amount).value, Pay(s, c.account, T.NATIVE, amount, to).value, t, v);
  }

  /** A mint gives the recipient the scaled amount. */
  lemma MintAssetsEffect(s: State, to: Account, amount: nat, r: Resource, t: T.Token, v: Account)
    requires amount != 0 && S.LedgerOk(s.ledger) && DoMintAssets(s, to, amount, r).Ok?
    ensures (r.chain, r.id) in s.assets && s.assets[(r.chain, r.id)] in s.ledger.tokens
    ensures s.ledger.tokens[s.assets[(r.chain, r.id)]].Bridged?
    ensures var e := s.assets[(r.chain, r.id)];
            FreeOf(DoMintAssets(s, to, amount, r).value, t, v)
            == FreeOf(s, t, v) + if t == e && v == to then T.Unified(amount, s.ledger.tokens[e].decimals) else 0
  {
    hide T.DoMint, T.Unified, S.LedgerOk;
    var e := s.assets[(r.chain, r.id)];
    MintableIsBridged(s.ledger, e, to, amount);
    MintEffect(s.ledger, e, to, amount, t, v);
  }

  lemma MintableIsBridged(l: T.State, t: T.Token, u: Account, x: nat)
    requires x != 0 && S.LedgerOk(l) && T.DoMint(l, t, u, x).Ok?
    ensures t in l.tokens && l.tokens[t].Bridged?
  {
    hide T.Unified;
    assert S.IssuanceOk(l, t);
  }

  /** With a dominator associated and willing, the scaled arrival is reserved if the recipient has it free;
      otherwise nothing happens. */
  lemma HostEffect(s: State, to: Account, t: T.Token, amount: nat, dex: nat, accepts: bool, e: T.Token, v: Account)
    requires Host(s, to, t, amount, dex, accepts).Ok?
    ensures dex !in s.associated || !accepts ==> Host(s, to, t, amount, dex, accepts).value == s
    ensures dex in s.associated && t != T.NATIVE ==> t in s.ledger.tokens
    ensures dex in s.associated && accepts ==>
              var x := if t == T.NATIVE || s.ledger.tokens[t].FND10? then amount else T.Unified(amount, s.ledger.tokens[t].decimals);
              var y := if T.Reserve(s.ledger, t, to, x).Ok? && e == t && v == to then x else 0;
              var s' := Host(s, to, t, amount, dex, accepts).value;
              && FreeOf(s', e, v) + y == FreeOf(s, e, v)
              && s'.ledger.BalanceOf(e, v).reserved == s.ledger.BalanceOf(e, v).reserved + y
  {
    hide T.Reserve, T.Unified;
    if dex in s.associated && accepts {
      var x := if t == T.NATIVE || s.ledger.tokens[t].FND10? then amount else T.Unified(amount, s.ledger.tokens[t].decimals);
      if T.Reserve(s.ledger, t, to, x).Ok? {
        ReserveEffect(s.ledger, t, to, x, e, v);
      }
    }
  }

  /** A newcomer gets the donation from the donor, if the donor can pay it; nobody else gets anything. */
  lemma DonateEffect(c: Config, s: State, to: Account, newcomer: bool, t: T.Token, v: Account)
    requires to != c.donor
    ensures var paid := newcomer && Pay(s, c.donor, T.NATIVE, c.donation, to).Ok?;
            FreeOf(Donate(c, s, to, newcomer), t, v)
            == FreeOf(s, t, v)
               + if !paid || t != T.NATIVE then 0 else if v == to then c.donation else if v == c.donor then 0 - c.donation else 0
  {
    hide Pay, FreeOf;
    if Pay(s, c.donor, T.NATIVE, c.donation, to).Ok? {
      PayFree(s, c.donor, T.NATIVE, c.donation, to, t, v);
    }
  }
}
