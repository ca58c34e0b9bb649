/** Supply of the multi-asset ledger: what accounts hold never exceeds what was issued. */
module TokenSupply {
  import opened Results
  import opened FixedPoint
  import opened MapSums
  import opened Tokens

  function HeldWeight(T: Token, k: (Token, Account), b: Balance): nat {
    if k.0 == T then b.Total() else 0
  }

  function HeldIn(T: Token): ((Token, Account), Balance) -> nat {
    (k, b) => HeldWeight(T, k, b)
  }

  /** Everything accounts hold of token `T`, free and reserved. */
  ghost function Supply(m: Balances, T: Token): nat {
    Weigh(m, HeldIn(T))
  }

  function Held(m: Balances, t: Token, u: Account): nat {
    if (t, u) in m then m[(t, u)].Total() else 0
  }

  lemma PutSupply(m: Balances, t: Token, u: Account, b: Balance, T: Token)
    ensures Supply(m[(t, u) := b], T) == Supply(m, T) + if T == t then b.Total() - Held(m, t, u) else 0
    ensures T == t ==> Held(m, t, u) <= Supply(m, T)
  {
    WeighPut(m, HeldIn(T), (t, u), b);
  }

  lemma StoreSupply(m: Balances, t: Token, u: Account, b: Balance, T: Token)
    ensures Supply(Store(m, t, u, b), T) == Supply(m, T) + if T == t then b.Total() - Held(m, t, u) else 0
  {
    if b.Total() > 0 {
      PutSupply(m, t, u, b, T);
    } else if (t, u) in m {
      WeighDrop(m, HeldIn(T), (t, u));
    } else {
      assert m - {(t, u)} == m;
    }
  }

  lemma WeighNone(m: Balances, T: Token)
    requires forall k :: k in m ==> k.0 != T
    ensures Supply(m, T) == 0
  {
    WeighNothing(m, HeldIn(T));
  }

  /** Nothing is issued under an unused id, and FND10 tokens are never issued at all. */
  predicate IssuanceOk(s: State, T: Token) {
    && s.nextId > 0 && NATIVE !in s.tokens
    && (T >= s.nextId ==> T !in s.tokens)
    && (T in s.tokens && s.tokens[T].FND10? ==> s.tokens[T].total == 0)
    && Fits(s.Issuance(T))
  }

  ghost predicate SupplyWithin(s: State, T: Token) {
    T != NATIVE ==> Supply(s.balances, T) <= s.Issuance(T)
  }

  ghost predicate SupplyExact(s: State, T: Token) {
    T != NATIVE ==> Supply(s.balances, T) == s.Issuance(T)
  }

  // ---- how each operation moves supply and issuance ----

  lemma CreateIssuance(s: State, info: XToken, T: Token)
    requires Create(s, info).Ok? && IssuanceOk(s, T) && IssuanceOk(s, s.nextId)
    ensures IssuanceOk(Create(s, info).value, T)
    ensures Create(s, info).value.Issuance(T) == s.Issuance(T)
    ensures Create(s, info).value.balances == s.balances
  {
  }

  /** What a mint or burn of `x` moves, in unified units. */
  function Moved(s: State, t: Token, x: nat): nat
    requires t in s.tokens
  {
    if s.tokens[t].FND10? then 0 else Unified(x, s.tokens[t].decimals)
  }

  lemma MintSupply(s: State, t: Token, u: Account, x: nat, T: Token)
    requires x != 0 && DoMint(s, t, u, x).Ok? && IssuanceOk(s, T) && IssuanceOk(s, t)
    ensures t in s.tokens && !s.tokens[t].FND10?
    ensures var s', v := DoMint(s, t, u, x).value, if T == t then Moved(s, t, x) else 0;
            && IssuanceOk(s', T)
            && Supply(s'.balances, T) == Supply(s.balances, T) + v
            && s'.Issuance(T) == s.Issuance(T) + v
  {
    hide Supply, Unified;
    var b := s.BalanceOf(t, u);
    PutSupply(s.balances, t, u, b.(free := b.free + Moved(s, t, x)), T);
  }

  lemma BurnSupply(s: State, t: Token, u: Account, x: nat, T: Token)
    requires DoBurn(s, t, u, x).Ok? && IssuanceOk(s, T) && IssuanceOk(s, t)
    ensures t in s.tokens && !s.tokens[t].FND10?
    ensures var s', v := DoBurn(s, t, u, x).value, if T == t then Moved(s, t, x) else 0;
            && IssuanceOk(s', T)
            && Supply(s'.balances, T) == Supply(s.balances, T) - v
            && s'.Issuance(T) == s.Issuance(T) - v
  {
    hide Supply, Unified, Store;
    var b := s.balances[(t, u)];
    StoreSupply(s.balances, t, u, b.(free := b.free - Moved(s, t, x)), T);
  }

  /** Between two accounts a transfer conserves supply; paid to oneself it destroys the amount. */
  lemma TransferSupply(s: State, from: Account, t: Token, x: nat, to: Account, T: Token)
    requires TransferToken(s, from, t, x, to).Ok? && T != NATIVE
    ensures var s' := TransferToken(s, from, t, x, to).value;
            && s'.tokens == s.tokens && s'.nextId == s.nextId
            && Supply(s'.balances, T) == Supply(s.balances, T) - if T == t && from == to then x else 0
  {
    hide Supply, Store;
    if x != 0 {
      var b, b' := s.BalanceOf(t, from), s.BalanceOf(t, to);
      var paid := s.balances[(t, to) := b'.(free := b'.free + x)];
      PutSupply(s.balances, t, to, b'.(free := b'.free + x), T);
      if t != NATIVE {
        StoreSupply(paid, t, from, b.(free := b.free - x), T);
      } else if from != to {
        var owed := s.balances[(t, from) := b.(free := b.free - x)];
        PutSupply(s.balances, t, from, b.(free := b.free - x), T);
        PutSupply(owed, t, to, b'.(free := b'.free + x), T);
      }
    }
  }

  lemma ReserveSupply(s: State, t: Token, u: Account, x: nat, T: Token)
    requires Reserve(s, t, u, x).Ok?
    ensures var s' := Reserve(s, t, u, x).value;
            s'.tokens == s.tokens && s'.nextId == s.nextId && Supply(s'.balances, T) == Supply(s.balances, T)
  {
    hide Supply;
    if x != 0 {
      var b := s.BalanceOf(t, u);
      PutSupply(s.balances, t, u, Balance(b.free - x, b.reserved + x), T);
    }
  }

  lemma UnreserveSupply(s: State, t: Token, u: Account, x: nat, T: Token)
    requires Unreserve(s, t, u, x).Ok?
    ensures var s' := Unreserve(s, t, u, x).value;
            s'.tokens == s.tokens && s'.nextId == s.nextId && Supply(s'.balances, T) == Supply(s.balances, T)
  {
    hide Supply;
    if x != 0 {
      var b := s.BalanceOf(t, u);
      PutSupply(s.balances, t, u, Balance(b.free + x, b.reserved - x), T);
    }
  }

  lemma RepatriateSupply(s: State, t: Token, from: Account, to: Account, x: nat, status: Status, T: Token)
    requires Repatriate(s, t, from, to, x, status).Ok? && T != NATIVE
    ensures var s' := Repatriate(s, t, from, to, x, status).value;
            s'.tokens == s.tokens && s'.nextId == s.nextId && Supply(s'.balances, T) == Supply(s.balances, T)
  {
    hide Supply, Store, Reserve, Unreserve, NativeRepatriate;
    if t == NATIVE {
      NativeRepatriateSupply(s, from, to, x, status, T);
    } else if from != to {
      var b, given := s.balances[(t, from)], Given(s.BalanceOf(t, to), x, status);
      PutSupply(s.balances, t, to, given, T);
      StoreSupply(s.balances[(t, to) := given], t, from, b.(reserved := b.reserved - x), T);
    } else if status == Free {
      UnreserveSupply(s, t, from, x, T);
    } else {
      ReserveSupply(s, t, from, x, T);
    }
  }

  lemma NativeRepatriateSupply(s: State, from: Account, to: Account, x: nat, status: Status, T: Token)
    requires NativeRepatriate(s, from, to, x, status).Ok? && T != NATIVE
    ensures var s' := NativeRepatriate(s, from, to, x, status).value;
            s'.tokens == s.tokens && s'.nextId == s.nextId && Supply(s'.balances, T) == Supply(s.balances, T)
  {
    hide Supply, Unreserve;
    if from != to {
      var b, given := s.BalanceOf(NATIVE, from), Given(s.BalanceOf(NATIVE, to), x, status);
      PutSupply(s.balances, NATIVE, from, b.(reserved := b.reserved - x), T);
      PutSupply(s.balances[(NATIVE, from) := b.(reserved := b.reserved - x)], NATIVE, to, given, T);
    } else if status == Free {
      UnreserveSupply(s, NATIVE, from, x, T);
    }
  }

  /** Repatriating reserved funds to oneself as reserved: the native token stays as it is, any other
      token moves as much again from free to reserved, so nothing changes exactly for zero. */
  lemma RepatriatingToOneself(s: State, t: Token, u: Account, x: nat)
    requires Repatriate(s, t, u, u, x, Reserved).Ok?
    ensures var s', b := Repatriate(s, t, u, u, x, Reserved).value, s.BalanceOf(t, u);
            && (s' == s <==> t == NATIVE || x == 0)
            && (t != NATIVE ==> x <= b.free && s'.BalanceOf(t, u) == Balance(b.free - x, b.reserved + x))
  {
    var s', b := Repatriate(s, t, u, u, x, Reserved).value, s.BalanceOf(t, u);
    assert t == NATIVE ==> s' == s;
    if t != NATIVE && x != 0 {
      assert s'.BalanceOf(t, u) != b;
    }
  }

  /** Three free and two reserved units, two of them repatriated to their owner: one free unit is left. */
  lemma RepatriationReservesAgain(s: State, u: Account)
    requires (1, u) in s.balances && s.balances[(1, u)] == Balance(3, 2)
    ensures var r := Repatriate(s, 1, u, u, 2, Reserved);
            r.Ok? && r.value.BalanceOf(1, u) == Balance(1, 4)
  {
  }

  // ---- every run ----

  /** A transfer of the token to the account it comes from. */
  predicate PaysItself(op: Op) {
    op.Transfer? && op.t != NATIVE && op.from == op.to
  }

  ghost predicate LedgerOk(s: State) {
    forall T :: IssuanceOk(s, T) && SupplyWithin(s, T)
  }

  lemma StepSupply(s: State, op: Op, T: Token)
    requires T != NATIVE && Step(s, op).Ok? && forall E :: IssuanceOk(s, E)
    ensures var s' := Step(s, op).value;
            && IssuanceOk(s', T)
            && Supply(s'.balances, T) - s'.Issuance(T)
               == Supply(s.balances, T) - s.Issuance(T) - if PaysItself(op) && op.t == T then op.x else 0
  {
    hide Create, DoMint, DoBurn, TransferToken, Reserve, Unreserve, Repatriate, Supply;
    assert IssuanceOk(s, T);
    if op.CreateToken? {
      CreateIssuance(s, op.info, T);
    } else if op.Mint? {
      if op.x == 0 {
        assert DoMint(s, op.t, op.u, 0) == Ok(s) by { MintNothing(s, op.t, op.u); }
      } else {
        MintSupply(s, op.t, op.u, op.x, T);
      }
    } else if op.Burn? {
      BurnSupply(s, op.t, op.u, op.x, T);
    } else if op.Transfer? {
      TransferSupply(s, op.from, op.t, op.x, op.to, T);
    } else if op.ReserveToken? {
      ReserveSupply(s, op.t, op.u, op.x, T);
    } else if op.UnreserveToken? {
      UnreserveSupply(s, op.t, op.u, op.x, T);
    } else {
      RepatriateSupply(s, op.t, op.from, op.to, op.x, op.status, T);
    }
  }

  lemma MintNothing(s: State, t: Token, u: Account)
    ensures DoMint(s, t, u, 0) == Ok(s)
  {
  }

  lemma NativeIssuance(s: State, op: Op)
    requires Step(s, op).Ok? && forall E :: IssuanceOk(s, E)
    ensures IssuanceOk(Step(s, op).value, NATIVE)
  {
    hide Store, Unified;
    assert IssuanceOk(s, NATIVE) && IssuanceOk(s, s.nextId);
    if op.Mint? || op.Burn? {
      assert IssuanceOk(s, op.t);
    }
  }

  lemma StepLedger(s: State, op: Op)
    requires LedgerOk(s)
    ensures LedgerOk(After(s, op))
  {
    hide Step, IssuanceOk, Supply;
    if Step(s, op).Ok? {
      var s' := After(s, op);
      NativeIssuance(s, op);
      forall T ensures IssuanceOk(s', T) && SupplyWithin(s', T) {
        assert IssuanceOk(s, T) && SupplyWithin(s, T);
        if T != NATIVE {
          StepSupply(s, op, T);
        }
      }
    }
  }

  lemma FreshLedger()
    ensures LedgerOk(INITIAL)
  {
    forall T ensures SupplyWithin(INITIAL, T) { assert Weigh(INITIAL.balances, HeldIn(T)) == 0; }
  }

  /** Over every run, what accounts hold of a non-native token never exceeds its issuance. */
  lemma {:induction false} SupplyNeverExceedsIssuance(ops: seq<Op>)
    ensures LedgerOk(Run(INITIAL, ops))
  {
    hide After, LedgerOk;
    if ops == [] {
      FreshLedger();
    } else {
      SupplyNeverExceedsIssuance(ops[..|ops| - 1]);
      StepLedger(Run(INITIAL, ops[..|ops| - 1]), ops[|ops| - 1]);
    }
  }

  /** What self-payments of `T` destroyed along a run. */
  ghost function Destroyed(ops: seq<Op>, T: Token): nat {
    if ops == [] then 0
    else
      var s, op := Run(INITIAL, ops[..|ops| - 1]), ops[|ops| - 1];
      Destroyed(ops[..|ops| - 1], T) + if Step(s, op).Ok? && PaysItself(op) && op.t == T then op.x else 0
  }

  /** Over every run issuance exceeds supply by exactly what transfers to oneself destroyed. */
  lemma {:induction false} IssuanceIsSupplyAndDestroyed(ops: seq<Op>, T: Token)
    requires T != NATIVE
    ensures var s := Run(INITIAL, ops); s.Issuance(T) == Supply(s.balances, T) + Destroyed(ops, T)
  {
    hide Step, Supply, IssuanceOk;
    if ops == [] {
      assert Supply(INITIAL.balances, T) == 0 by { NothingHeld(T); }
    } else {
      var s, op := Run(INITIAL, ops[..|ops| - 1]), ops[|ops| - 1];
      IssuanceIsSupplyAndDestroyed(ops[..|ops| - 1], T);
      SupplyNeverExceedsIssuance(ops[..|ops| - 1]);
      if Step(s, op).Ok? {
        StepSupply(s, op, T);
      }
    }
  }

  lemma NothingHeld(T: Token)
    ensures Supply(INITIAL.balances, T) == 0
  {
    assert Weigh(INITIAL.balances, HeldIn(T)) == 0;
  }

  lemma {:induction false} NothingDestroyed(ops: seq<Op>, T: Token)
    requires forall i :: 0 <= i < |ops| ==> !PaysItself(ops[i])
    ensures Destroyed(ops, T) == 0
  {
    if ops != [] {
      NothingDestroyed(ops[..|ops| - 1], T);
    }
  }

  /** When all transfers have distinct endpoints, supply equals issuance. */
  lemma SupplyEqualsIssuance(ops: seq<Op>, T: Token)
    requires forall i :: 0 <= i < |ops| ==> !PaysItself(ops[i])
    ensures SupplyExact(Run(INITIAL, ops), T)
  {
    hide Run, Supply;
    if T != NATIVE {
      NothingDestroyed(ops, T);
      IssuanceIsSupplyAndDestroyed(ops, T);
    }
  }

  // ---- unreachable overflows ----

  lemma TwoHolders(m: Balances, t: Token, u: Account, v: Account)
    requires u != v
    ensures Held(m, t, u) + Held(m, t, v) <= Supply(m, t)
  {
    hide Supply;
    PutSupply(m, t, u, Balance(0, 0), t);
    PutSupply(m[(t, u) := Balance(0, 0)], t, v, Balance(0, 0), t);
  }

  /** In a sound ledger no addition to an account overflows, except in a transfer to oneself. */
  lemma NoOverflow(s: State, op: Op)
    requires LedgerOk(s) && !PaysItself(op)
    requires op.CreateToken? || op.Mint? || op.Burn? || op.t != NATIVE
    ensures Step(s, op) != Err(Overflow)
  {
    hide Supply, Store, Unified, IssuanceOk;
    if !op.CreateToken? {
      var t := op.t;
      assert IssuanceOk(s, t) && SupplyWithin(s, t);
      Issued(s, t);
      if op.Transfer? || op.RepatriateReserved? {
        if op.from != op.to {
          TwoHolders(s.balances, t, op.from, op.to);
        } else {
          PutSupply(s.balances, t, op.from, Balance(0, 0), t);
        }
      } else {
        PutSupply(s.balances, t, op.u, Balance(0, 0), t);
      }
    }
  }

  lemma Issued(s: State, t: Token)
    requires IssuanceOk(s, t)
    ensures Fits(s.Issuance(t)) && NATIVE !in s.tokens
    ensures t in s.tokens && s.tokens[t].FND10? ==> s.tokens[t].total == 0
  {
  }

  /** The Overflow branches on account additions cannot fire in any reachable state. */
  lemma OverflowIsUnreachable(ops: seq<Op>, op: Op)
    requires !PaysItself(op)
    requires op.CreateToken? || op.Mint? || op.Burn? || op.t != NATIVE
    ensures Step(Run(INITIAL, ops), op) != Err(Overflow)
  {
    hide Run, Step, LedgerOk;
    SupplyNeverExceedsIssuance(ops);
    NoOverflow(Run(INITIAL, ops), op);
  }

  /** Paying oneself loses the amount, or overflows when the doubled balance does not fit. */
  lemma PayingOneself(s: State, u: Account, t: Token, x: nat)
    requires t != NATIVE && x != 0 && (t, u) in s.balances && x <= s.balances[(t, u)].free
    ensures var r, b := TransferToken(s, u, t, x, u), s.balances[(t, u)];
            && (r == Err(Overflow) <==> !Fits(b.free + x))
            && (r.Ok? ==> r.value.BalanceOf(t, u) == b.(free := b.free - x))
  {
  }
}
