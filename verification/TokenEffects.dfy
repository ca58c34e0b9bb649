/** What one call of the multi-asset ledger does to every account, half by half, and when it is accepted. */
module TokenEffects {
  import opened Results
  import opened FixedPoint
  import opened Tokens

  /** An account on the ledger: every native account is, any other has to hold something. */
  predicate Known(s: State, t: Token, u: Account) { t == NATIVE || (t, u) in s.balances }

  // ---- transfers ----

  /** Between two accounts a transfer goes through exactly when the payer is known and has the free amount
      and the payee's balance can take it. */
  lemma TransferAcceptedIff(s: State, from: Account, t: Token, x: nat, to: Account)
    requires from != to
    ensures TransferToken(s, from, t, x, to).Ok? <==>
              || x == 0
              || (Known(s, t, from) && x <= s.BalanceOf(t, from).free && s.BalanceOf(t, to).free + x <= U128_MAX)
  {
  }

  /** The payer's free balance falls and the payee's grows by the amount; nothing else moves. */
  lemma TransferEffect(s: State, from: Account, t: Token, x: nat, to: Account, T: Token, v: Account)
    requires from != to && TransferToken(s, from, t, x, to).Ok?
    ensures var s', b := TransferToken(s, from, t, x, to).value, s.BalanceOf(T, v);
            && s'.tokens == s.tokens
            && s'.BalanceOf(T, v).reserved == b.reserved
            && s'.BalanceOf(T, v).free == b.free + if T != t then 0 else if v == to then x else if v == from then 0 - x else 0
  {
    if x != 0 && t != NATIVE {
      StoredElsewhere(s.Put(t, to, Balance(s.BalanceOf(t, to).free + x, s.BalanceOf(t, to).reserved)), t, from,
                      Balance(s.balances[(t, from)].free - x, s.balances[(t, from)].reserved), T, v);
    }
  }

  /** Writing back an account changes that account only, and a removed account reads as empty. */
  lemma StoredElsewhere(s: State, t: Token, u: Account, b: Balance, T: Token, v: Account)
    ensures s.(balances := Store(s.balances, t, u, b)).BalanceOf(T, v) == if T == t && v == u then b else s.BalanceOf(T, v)
  {
  }

  // ---- reserves ----

  lemma ReserveAcceptedIff(s: State, t: Token, u: Account, x: nat)
    ensures Reserve(s, t, u, x).Ok? <==>
              || x == 0
              || (Known(s, t, u) && x <= s.BalanceOf(t, u).free && s.BalanceOf(t, u).reserved + x <= U128_MAX)
  {
  }

  /** Reserving moves the amount from the free to the reserved half of one account. */
  lemma ReserveEffect(s: State, t: Token, u: Account, x: nat, T: Token, v: Account)
    requires Reserve(s, t, u, x).Ok?
    ensures var s', b, y := Reserve(s, t, u, x).value, s.BalanceOf(T, v), if T == t && v == u then x else 0;
            && s'.tokens == s.tokens
            && s'.BalanceOf(T, v).free + y == b.free && s'.BalanceOf(T, v).reserved == b.reserved + y
  {
  }

  lemma UnreserveAcceptedIff(s: State, t: Token, u: Account, x: nat)
    ensures Unreserve(s, t, u, x).Ok? <==>
              || x == 0
              || (Known(s, t, u) && x <= s.BalanceOf(t, u).reserved && (t == NATIVE || s.BalanceOf(t, u).free + x <= U128_MAX))
  {
  }

  lemma UnreserveEffect(s: State, t: Token, u: Account, x: nat, T: Token, v: Account)
    requires Unreserve(s, t, u, x).Ok?
    ensures var s', b, y := Unreserve(s, t, u, x).value, s.BalanceOf(T, v), if T == t && v == u then x else 0;
            && s'.tokens == s.tokens
            && s'.BalanceOf(T, v).free == b.free + y && s'.BalanceOf(T, v).reserved + y == b.reserved
  {
  }

  // ---- repatriation ----

  /** Between two accounts, repatriation goes through exactly when the giver has the amount in reserve and
      the receiving half can take it. */
  lemma RepatriateAcceptedIff(s: State, t: Token, from: Account, to: Account, x: nat, status: Status)
    requires from != to
    ensures Repatriate(s, t, from, to, x, status).Ok? <==>
              && Known(s, t, from) && x <= s.BalanceOf(t, from).reserved
              && (status == Free ==> s.BalanceOf(t, to).free + x <= U128_MAX)
              && (status == Reserved ==> s.BalanceOf(t, to).reserved + x <= U128_MAX)
  {
  }

  /** The giver's reserved balance falls by the amount; the receiver's free or reserved balance grows by it,
      as the status says; every other half and every other account stays. */
  lemma RepatriateEffect(s: State, t: Token, from: Account, to: Account, x: nat, status: Status, T: Token, v: Account)
    requires from != to && Repatriate(s, t, from, to, x, status).Ok?
    ensures var s', b := Repatriate(s, t, from, to, x, status).value, s.BalanceOf(T, v);
            && s'.tokens == s.tokens
            && s'.BalanceOf(T, v).free == b.free + (if T == t && v == to && status == Free then x else 0)
            && s'.BalanceOf(T, v).reserved
               == b.reserved + if T != t then 0 else if v == from then 0 - x else if v == to && status == Reserved then x else 0
  {
    if t != NATIVE {
      var b, b' := s.balances[(t, from)], s.BalanceOf(t, to);
      var given := if status == Free then Balance(b'.free + x, b'.reserved) else Balance(b'.free, b'.reserved + x);
      StoredElsewhere(s.Put(t, to, given), t, from, Balance(b.free, b.reserved - x), T, v);
    }
  }

  /** Two reserved units repatriated to somebody new as free: two free units there, none left here. */
  lemma RepatriationReachesTheFreeHalf(s: State, u: Account, v: Account)
    requires u != v && (1, u) in s.balances && s.balances[(1, u)] == Balance(0, 2) && (1, v) !in s.balances
    ensures var r := Repatriate(s, 1, u, v, 2, Free);
            r.Ok? && r.value.BalanceOf(1, v) == Balance(2, 0) && r.value.BalanceOf(1, u) == Balance(0, 0)
  {
    hide Repatriate;
    RepatriateAcceptedIff(s, 1, u, v, 2, Free);
    RepatriateEffect(s, 1, u, v, 2, Free, 1, u);
    RepatriateEffect(s, 1, u, v, 2, Free, 1, v);
  }

  // ---- minting and burning ----

  /** The amounts by which decimals scale: none at 18, times ten below, a tenth above. */
  lemma ScalingSteps(x: nat)
    ensures Unified(x, 18) == x && Unified(x, 17) == 10 * x && Unified(x, 19) == x / 10
    ensures Unified(x, 6) == x * 1_000_000_000_000 && Unified(x, 24) == x / 1_000_000
  {
    assert Pow10(0) == 1 && Pow10(1) == 10;
    assert Pow10(6) == 1_000_000;
    assert Pow10(12) == 1_000_000_000_000 by { assert Pow10(9) == 1_000_000_000; }
  }

  /** A mint goes to the free half of the beneficiary and to issuance, and nowhere else. */
  lemma MintEffect(s: State, t: Token, u: Account, x: nat, T: Token, v: Account)
    requires x != 0 && DoMint(s, t, u, x).Ok? && s.tokens[t].Bridged?
    ensures var s', b, y := DoMint(s, t, u, x).value, s.BalanceOf(T, v), Unified(x, s.tokens[t].decimals);
            && s'.BalanceOf(T, v).free == b.free + (if T == t && v == u then y else 0)
            && s'.BalanceOf(T, v).reserved == b.reserved
            && s'.Issuance(T) == s.Issuance(T) + (if T == t then y else 0) && y > 0
  {
    hide Unified;
  }

  lemma MintAcceptedIff(s: State, t: Token, u: Account, x: nat)
    requires x != 0 && t in s.tokens && s.tokens[t].Bridged?
    ensures var y := Unified(x, s.tokens[t].decimals);
            DoMint(s, t, u, x).Ok? <==> y > 0 && s.Issuance(t) + y <= U128_MAX && s.BalanceOf(t, u).free + y <= U128_MAX
  {
    hide Unified;
  }

  /** A burn takes from the free half of the holder and from issuance, and from nowhere else. */
  lemma BurnEffect(s: State, t: Token, u: Account, x: nat, T: Token, v: Account)
    requires DoBurn(s, t, u, x).Ok? && s.tokens[t].Bridged?
    ensures var s', b, y := DoBurn(s, t, u, x).value, s.BalanceOf(T, v), Unified(x, s.tokens[t].decimals);
            && s'.BalanceOf(T, v).free + (if T == t && v == u then y else 0) == b.free
            && s'.BalanceOf(T, v).reserved == b.reserved
            && s'.Issuance(T) + (if T == t then y else 0) == s.Issuance(T) && y > 0
  {
    hide Unified, Store;
    var b, y := s.balances[(t, u)], Unified(x, s.tokens[t].decimals);
    StoredElsewhere(s, t, u, Balance(b.free - y, b.reserved), T, v);
  }

  lemma BurnAcceptedIff(s: State, t: Token, u: Account, x: nat)
    requires t in s.tokens && s.tokens[t].Bridged? && t != NATIVE
    ensures var y := Unified(x, s.tokens[t].decimals);
            DoBurn(s, t, u, x).Ok? <==>
              x != 0 && 0 < y <= U128_MAX && y <= s.Issuance(t) && (t, u) in s.balances && y <= s.BalanceOf(t, u).free
  {
    hide Unified;
  }

  /** A new token takes the next id; which tokens may be created. */
  lemma CreateAcceptedIff(s: State, info: XToken)
    ensures Create(s, info).Ok? <==>
              && 2 <= |info.symbol| <= 8 && (forall i :: 0 <= i < |info.symbol| ==> info.symbol[i] < 128)
              && (info.Bridged? ==>
                    && info.decimals <= 24
                    && (info.kind == NEP141 ==> 2 < |info.contract| < 120 && info.contract !in s.byName)
                    && (info.kind != NEP141 ==> |info.contract| == 20))
    ensures Create(s, info).Ok? ==>
              var s' := Create(s, info).value;
              && s'.nextId == s.nextId + 1 && s.nextId in s'.tokens && s'.tokens[s.nextId].total == 0
              && (info.Bridged? && info.kind == NEP141 ==> info.contract in s'.byName && s'.byName[info.contract] == s.nextId)
  {
  }
}
