/** Accounts of the bridge: issuance, native intake and nonces over any sequence of transfers. */
module BridgeAccounting {
  import opened BridgeHandler
  import V = BridgeVoting
  import S = TokenSupply

  // ---- what the log says ----

  /** Scaled amounts in minus scaled amounts emitted out, for a token with the given decimals. */
  function Net(log: seq<Movement>, t: T.Token, decimals: nat): int {
    if log == [] then 0
    else
      var m := log[|log| - 1];
      Net(log[..|log| - 1], t, decimals)
      + if m.token != t then 0
        else if m.In? then T.Unified(m.amount, decimals)
        else 0 - T.Unified(m.amount, decimals)
  }

  /** Native units emitted minus native units released. */
  function Intake(log: seq<Movement>): int {
    if log == [] then 0
    else
      var m := log[|log| - 1];
      Intake(log[..|log| - 1]) + if m.token != T.NATIVE then 0 else if m.Out? then m.amount else 0 - m.amount
  }

  lemma LogGrows(log: seq<Movement>, m: Movement, t: T.Token, decimals: nat)
    ensures Net(log + [m], t, decimals)
            == Net(log, t, decimals)
               + if m.token != t then 0
                 else if m.In? then T.Unified(m.amount, decimals) else 0 - T.Unified(m.amount, decimals)
    ensures Intake(log + [m])
            == Intake(log) + if m.token != T.NATIVE then 0 else if m.Out? then m.amount else 0 - m.amount
  {
    assert (log + [m])[..|log|] == log;
  }

  predicate IsBridged(l: T.State, t: T.Token, decimals: nat) {
    t in l.tokens && l.tokens[t].Bridged? && l.tokens[t].decimals == decimals
  }

  /** Issuance follows the log; a token that cannot be bridged has neither. */
  predicate FlowOk(s: State, t: T.Token, decimals: nat) {
    if t in s.ledger.tokens && s.ledger.tokens[t].Bridged?
    then s.ledger.tokens[t].decimals == decimals ==> s.ledger.Issuance(t) == Net(s.log, t, decimals)
    else Net(s.log, t, decimals) == 0
  }

  // ---- ledger effects ----

  predicate SameTokens(l: T.State, l': T.State) { l'.tokens == l.tokens && l'.nextId == l.nextId }

  lemma PayTokens(s: State, from: Account, t: T.Token, x: nat, to: Account)
    requires Pay(s, from, t, x, to).Ok? && S.LedgerOk(s.ledger)
    ensures SameTokens(s.ledger, Pay(s, from, t, x, to).value.ledger)
    ensures S.LedgerOk(Pay(s, from, t, x, to).value.ledger)
  {
    hide T.TransferToken, S.LedgerOk;
    S.StepLedger(s.ledger, T.Transfer(from, t, x, to));
    S.TransferSupply(s.ledger, from, t, x, to, 1);
  }

  lemma HostTokens(s: State, to: Account, t: T.Token, amount: nat, dex: nat, accepts: bool)
    requires Host(s, to, t, amount, dex, accepts).Ok? && S.LedgerOk(s.ledger)
    ensures SameTokens(s.ledger, Host(s, to, t, amount, dex, accepts).value.ledger)
    ensures S.LedgerOk(Host(s, to, t, amount, dex, accepts).value.ledger)
  {
    hide T.Reserve, S.LedgerOk, T.Unified;
    if dex in s.associated {
      var x := if t == T.NATIVE || s.ledger.tokens[t].FND10? then amount else T.Unified(amount, s.ledger.tokens[t].decimals);
      S.StepLedger(s.ledger, T.ReserveToken(t, to, x));
      if T.Reserve(s.ledger, t, to, x).Ok? {
        S.ReserveSupply(s.ledger, t, to, x, 1);
      }
    }
  }

  lemma DonateTokens(c: Config, s: State, to: Account, newcomer: bool)
    requires S.LedgerOk(s.ledger)
    ensures SameTokens(s.ledger, Donate(c, s, to, newcomer).ledger)
    ensures S.LedgerOk(Donate(c, s, to, newcomer).ledger)
  {
    hide Pay, S.LedgerOk;
    if Pay(s, c.donor, T.NATIVE, c.donation, to).Ok? {
      PayTokens(s, c.donor, T.NATIVE, c.donation, to);
    }
  }

  /** Flow depends on the tokens and the log only. */
  lemma FlowFrame(s: State, s': State, t: T.Token, decimals: nat)
    requires FlowOk(s, t, decimals) && SameTokens(s.ledger, s'.ledger) && s'.log == s.log
    ensures FlowOk(s', t, decimals)
  {
  }

  lemma LockFlow(c: Config, s: State, who: Account, amount: nat, dest: Chain, price: nat, t: T.Token, decimals: nat)
    requires DoLock(c, s, who, amount, dest, price).Ok? && S.LedgerOk(s.ledger)
    requires t != T.NATIVE && FlowOk(s, t, decimals)
    ensures var s' := DoLock(c, s, who, amount, dest, price).value;
            S.LedgerOk(s'.ledger) && FlowOk(s', t, decimals)
  {
    hide Pay, BridgingFee, S.LedgerOk, T.Unified, Net;
    var fee := BridgingFee(s.feeUsd, price);
    var s1 := Pay(s, who, T.NATIVE, fee, c.treasury).value;
    var s2 := Pay(s1, who, T.NATIVE, amount - fee, c.account).value;
    PayTokens(s, who, T.NATIVE, fee, c.treasury);
    PayTokens(s1, who, T.NATIVE, amount - fee, c.account);
    LogGrows(s.log, Out(T.NATIVE, amount - fee, dest, s.bridge.nonces[dest] + 1), t, decimals);
  }

  lemma BurnLedger(l: T.State, t: T.Token, u: Account, x: nat, T0: T.Token)
    requires T.DoBurn(l, t, u, x).Ok? && S.LedgerOk(l)
    ensures S.LedgerOk(T.DoBurn(l, t, u, x).value)
    ensures t in l.tokens && l.tokens[t].Bridged?
    ensures var l' := T.DoBurn(l, t, u, x).value;
            && l'.Issuance(T0) == l.Issuance(T0) - (if T0 == t then T.Unified(x, l.tokens[t].decimals) else 0)
            && forall d :: IsBridged(l', T0, d) <==> IsBridged(l, T0, d)
  {
    hide S.LedgerOk, S.IssuanceOk;
    S.StepLedger(l, T.Burn(t, u, x));
    assert S.IssuanceOk(l, t) && S.IssuanceOk(l, T0) by { SoundIssuance(l, t); SoundIssuance(l, T0); }
    S.BurnSupply(l, t, u, x, T0);
    hide T.Unified;
  }

  lemma SoundIssuance(l: T.State, t: T.Token)
    requires S.LedgerOk(l)
    ensures S.IssuanceOk(l, t)
  {
  }

  lemma MintLedger(l: T.State, t: T.Token, u: Account, x: nat, T0: T.Token)
    requires x != 0 && T.DoMint(l, t, u, x).Ok? && S.LedgerOk(l)
    ensures S.LedgerOk(T.DoMint(l, t, u, x).value)
    ensures t in l.tokens && l.tokens[t].Bridged?
    ensures var l' := T.DoMint(l, t, u, x).value;
            && l'.Issuance(T0) == l.Issuance(T0) + (if T0 == t then T.Unified(x, l.tokens[t].decimals) else 0)
            && forall d :: IsBridged(l', T0, d) <==> IsBridged(l, T0, d)
  {
    hide S.LedgerOk, S.IssuanceOk;
    S.StepLedger(l, T.Mint(t, u, x));
    assert S.IssuanceOk(l, t) && S.IssuanceOk(l, T0) by { SoundIssuance(l, t); SoundIssuance(l, T0); }
    S.MintSupply(l, t, u, x, T0);
    hide T.Unified;
  }

  /** How the flow of `t` follows one movement that changes its issuance alike. */
  lemma FlowMoves(s: State, s': State, m: Movement, t: T.Token, decimals: nat)
    requires FlowOk(s, t, decimals) && s'.log == s.log + [m]
    requires m.token in s.ledger.tokens && s.ledger.tokens[m.token].Bridged?
    requires forall d :: IsBridged(s'.ledger, t, d) <==> IsBridged(s.ledger, t, d)
    requires var x := T.Unified(m.amount, s.ledger.tokens[m.token].decimals);
             s'.ledger.Issuance(t) == s.ledger.Issuance(t) + if t != m.token then 0 else if m.In? then x else 0 - x
    ensures FlowOk(s', t, decimals)
  {
    hide T.Unified, Net;
    LogGrows(s.log, m, t, decimals);
    if t in s.ledger.tokens && s.ledger.tokens[t].Bridged? {
      assert IsBridged(s.ledger, t, s.ledger.tokens[t].decimals);
    }
    if t in s'.ledger.tokens && s'.ledger.tokens[t].Bridged? {
      assert IsBridged(s'.ledger, t, s'.ledger.tokens[t].decimals);
    }
  }

  lemma BurnFlow(c: Config, s: State, who: Account, amount: nat, r: Resource, dest: Chain, price: nat, t: T.Token, decimals: nat)
    requires DoBurnAssets(c, s, who, amount, r, dest, price).Ok? && S.LedgerOk(s.ledger) && FlowOk(s, t, decimals)
    ensures var s' := DoBurnAssets(c, s, who, amount, r, dest, price).value;
            S.LedgerOk(s'.ledger) && FlowOk(s', t, decimals)
  {
    hide Pay, BridgingFee, S.LedgerOk, T.DoBurn, FlowOk;
    var e, fee := s.assets[(r.chain, r.id)], BridgingFee(s.feeUsd, price);
    var s1 := Pay(s, who, e, fee, c.treasury).value;
    PayTokens(s, who, e, fee, c.treasury);
    FlowFrame(s, s1, t, decimals);
    BurnLedger(s1.ledger, e, who, amount - fee, t);
    var s' := DoBurnAssets(c, s, who, amount, r, dest, price).value;
    FlowMoves(s1, s', Out(e, amount - fee, dest, s.bridge.nonces[dest] + 1), t, decimals);
  }

  lemma MintFlow(s: State, to: Account, amount: nat, r: Resource, t: T.Token, decimals: nat)
    requires DoMintAssets(s, to, amount, r).Ok? && S.LedgerOk(s.ledger) && FlowOk(s, t, decimals)
    ensures var s' := DoMintAssets(s, to, amount, r).value;
            S.LedgerOk(s'.ledger) && FlowOk(s', t, decimals)
  {
    hide S.LedgerOk, T.DoMint, FlowOk;
    var e := s.assets[(r.chain, r.id)];
    var s' := DoMintAssets(s, to, amount, r).value;
    if amount == 0 {
      S.MintNothing(s.ledger, e, to);
      NothingMoves(s, s', In(e, 0), t, decimals);
    } else {
      MintLedger(s.ledger, e, to, amount, t);
      FlowMoves(s, s', In(e, amount), t, decimals);
    }
  }

  lemma NothingMoves(s: State, s': State, m: Movement, t: T.Token, decimals: nat)
    requires FlowOk(s, t, decimals) && s'.ledger == s.ledger && s'.log == s.log + [m]
    requires m.token != t || m.amount == 0
    ensures FlowOk(s', t, decimals)
  {
    LogGrows(s.log, m, t, decimals);
    assert T.Unified(0, decimals) == 0;
  }

  lemma UnlockFlow(c: Config, s: State, to: Account, amount: nat, t: T.Token, decimals: nat)
    requires DoUnlock(c, s, to, amount).Ok? && S.LedgerOk(s.ledger) && t != T.NATIVE && FlowOk(s, t, decimals)
    ensures var s' := DoUnlock(c, s, to, amount).value;
            S.LedgerOk(s'.ledger) && FlowOk(s', t, decimals)
  {
    hide Pay, S.LedgerOk, FlowOk;
    PayTokens(s, c.account, T.NATIVE, amount, to);
    var s1 := Pay(s, c.account, T.NATIVE, amount, to).value;
    FlowFrame(s, s1, t, decimals);
    NothingMoves(s1, DoUnlock(c, s, to, amount).value, In(T.NATIVE, amount), t, decimals);
  }

  lemma InFlow(c: Config, s: State, to: Account, amount: nat, r: Resource, accepts: bool, newcomer: bool, t: T.Token, decimals: nat)
    requires TransferIn(c, s, to, amount, r, accepts, newcomer).Ok?
    requires S.LedgerOk(s.ledger) && t != T.NATIVE && FlowOk(s, t, decimals)
    ensures var s' := TransferIn(c, s, to, amount, r, accepts, newcomer).value;
            S.LedgerOk(s'.ledger) && FlowOk(s', t, decimals)
  {
    hide DoUnlock, DoMintAssets, Host, Donate, S.LedgerOk, FlowOk;
    var e := if IsNative(c, r) || (r.chain, r.id) !in s.assets then T.NATIVE else s.assets[(r.chain, r.id)];
    var s1 := (if IsNative(c, r) then DoUnlock(c, s, to, amount) else DoMintAssets(s, to, amount, r)).value;
    if IsNative(c, r) {
      UnlockFlow(c, s, to, amount, t, decimals);
    } else {
      MintFlow(s, to, amount, r, t, decimals);
    }
    HostTokens(s1, to, e, amount, r.dex, accepts);
    var s2 := Host(s1, to, e, amount, r.dex, accepts).value;
    FlowFrame(s1, s2, t, decimals);
    DonateTokens(c, s2, to, newcomer);
    FlowFrame(s2, Donate(c, s2, to, newcomer), t, decimals);
  }

  lemma LedgerFlow(s: State, op: T.Op, t: T.Token, decimals: nat)
    requires !op.Mint? && !op.Burn? && T.Step(s.ledger, op).Ok? && S.LedgerOk(s.ledger) && FlowOk(s, t, decimals)
    ensures var s' := s.(ledger := T.Step(s.ledger, op).value);
            S.LedgerOk(s'.ledger) && FlowOk(s', t, decimals)
  {
    S.StepLedger(s.ledger, op);
    SoundIssuance(s.ledger, s.ledger.nextId);
    hide S.LedgerOk, T.Store, Net;
  }

  // ---- every run ----

  function After(c: Config, s: State, op: Op): State
    requires Ready(s)
  {
    var r := Step(c, s, op);
    if r.Ok? then r.value else s
  }

  function Run(c: Config, s: State, ops: seq<Op>): (s': State)
    requires Ready(s)
    ensures Ready(s')
  {
    if ops == [] then s
    else
      var s1 := Run(c, s, ops[..|ops| - 1]);
      StaysReady(c, s1, ops[|ops| - 1]);
      After(c, s1, ops[|ops| - 1])
  }

  lemma StaysReady(c: Config, s: State, op: Op)
    requires Ready(s)
    ensures Ready(After(c, s, op))
  {
    hide Pay, Host, Donate, T.DoMint, T.DoBurn, T.Step, B.Step, BridgingFee;
    if op.BridgeOp? {
      V.StepCount(c.bridge, s.bridge, op.call);
    }
  }

  lemma StepFlow(c: Config, s: State, op: Op, t: T.Token, decimals: nat)
    requires Ready(s) && S.LedgerOk(s.ledger) && t != T.NATIVE && FlowOk(s, t, decimals)
    ensures S.LedgerOk(After(c, s, op).ledger) && FlowOk(After(c, s, op), t, decimals)
  {
    hide S.LedgerOk, FlowOk, DoLock, DoBurnAssets, TransferIn, T.Step, B.Step;
    if Step(c, s, op).Ok? {
      if op.SendOut? {
        if IsNative(c, op.r) {
          LockFlow(c, s, op.who, op.amount, op.dest, op.price, t, decimals);
        } else {
          BurnFlow(c, s, op.who, op.amount, op.r, op.dest, op.price, t, decimals);
        }
      } else if op.BringIn? {
        InFlow(c, s, op.to, op.amount, op.r, op.accepts, op.newcomer, t, decimals);
      } else if op.LedgerOp? {
        LedgerFlow(s, op.op, t, decimals);
      } else {
        FlowFrame(s, After(c, s, op), t, decimals);
      }
    }
  }

  /** Nothing bridged yet, and no token but possibly the native one in existence. */
  predicate Fresh(s: State) {
    && s.log == [] && s.ledger.nextId > 0 && s.ledger.tokens == map[]
    && (forall k :: k in s.ledger.balances ==> k.0 == T.NATIVE)
  }

  lemma FreshFlow(s: State, t: T.Token, decimals: nat)
    requires Fresh(s)
    ensures S.LedgerOk(s.ledger) && FlowOk(s, t, decimals)
  {
    forall e: T.Token ensures S.SupplyWithin(s.ledger, e) {
      if e != T.NATIVE {
        S.WeighNone(s.ledger.balances, e);
      }
    }
  }

  /** Bridge accounting: across any sequence of bridge transfers and other calls that neither mint nor
      burn, a token's issuance is the scaled sum of amounts in minus the scaled sum emitted out. */
  lemma {:induction false} IssuanceIsNetFlow(c: Config, s: State, ops: seq<Op>, t: T.Token, decimals: nat)
    requires Ready(s) && Fresh(s) && t != T.NATIVE
    ensures S.LedgerOk(Run(c, s, ops).ledger) && FlowOk(Run(c, s, ops), t, decimals)
  {
    hide S.LedgerOk, FlowOk, After, Fresh, Ready;
    if ops == [] {
      FreshFlow(s, t, decimals);
    } else {
      IssuanceIsNetFlow(c, s, ops[..|ops| - 1], t, decimals);
      StepFlow(c, Run(c, s, ops[..|ops| - 1]), ops[|ops| - 1], t, decimals);
    }
  }

  // ---- native intake ----

  function Purse(l: T.State, a: Account): nat { l.BalanceOf(T.NATIVE, a).free }

  lemma PayPurse(s: State, from: Account, t: T.Token, x: nat, to: Account, a: Account)
    requires Pay(s, from, t, x, to).Ok?
    ensures Purse(Pay(s, from, t, x, to).value.ledger, a)
            == Purse(s.ledger, a)
               + if t != T.NATIVE || from == to then 0 else if a == to then x else if a == from then 0 - x else 0
  {
  }

  lemma HostPurse(s: State, to: Account, t: T.Token, amount: nat, dex: nat, accepts: bool, a: Account)
    requires a != to && Host(s, to, t, amount, dex, accepts).Ok?
    ensures Purse(Host(s, to, t, amount, dex, accepts).value.ledger, a) == Purse(s.ledger, a)
  {
    hide T.Unified;
  }

  lemma MintPurse(l: T.State, t: T.Token, u: Account, x: nat, a: Account)
    requires T.DoMint(l, t, u, x).Ok? && T.NATIVE !in l.tokens
    ensures Purse(T.DoMint(l, t, u, x).value, a) == Purse(l, a)
  {
    hide T.Unified;
  }

  lemma BurnPurse(l: T.State, t: T.Token, u: Account, x: nat, a: Account)
    requires T.DoBurn(l, t, u, x).Ok? && T.NATIVE !in l.tokens
    ensures Purse(T.DoBurn(l, t, u, x).value, a) == Purse(l, a)
  {
    hide T.Unified;
  }

  /** Whether a token operation leaves the native free balance of `a` alone. */
  predicate Spares(op: T.Op, a: Account) {
    match op
    case Transfer(from, t, x, to) => t != T.NATIVE || (from != a && to != a)
    case ReserveToken(t, u, x) => t != T.NATIVE || u != a
    case UnreserveToken(t, u, x) => t != T.NATIVE || u != a
    case RepatriateReserved(t, from, to, x, status) => t != T.NATIVE || (from != a && to != a)
    case _ => true
  }

  /** The bridge account takes part in bridge transfers only as the bridge. */
  predicate KeepsApart(c: Config, op: Op) {
    match op
    case SendOut(who, _, _, _, _) => who != c.account
    case BringIn(to, _, _, _, _) => to != c.account
    case LedgerOp(call) => Spares(call, c.account)
    case _ => true
  }

  predicate Apart(c: Config) { c.treasury != c.account && c.donor != c.account }

  ghost predicate IntakeOk(c: Config, s: State, start: int) {
    S.LedgerOk(s.ledger) && Purse(s.ledger, c.account) == start + Intake(s.log)
  }

  lemma LockIntake(c: Config, s: State, who: Account, amount: nat, dest: Chain, price: nat)
    requires Apart(c) && who != c.account && DoLock(c, s, who, amount, dest, price).Ok?
    ensures var s' := DoLock(c, s, who, amount, dest, price).value;
            Purse(s'.ledger, c.account) - Purse(s.ledger, c.account) == Intake(s'.log) - Intake(s.log)
  {
    hide Pay, BridgingFee, Intake, Purse;
    var fee := BridgingFee(s.feeUsd, price);
    var s1 := Pay(s, who, T.NATIVE, fee, c.treasury).value;
    PayPurse(s, who, T.NATIVE, fee, c.treasury, c.account);
    PayPurse(s1, who, T.NATIVE, amount - fee, c.account, c.account);
    LogGrows(s.log, Out(T.NATIVE, amount - fee, dest, s.bridge.nonces[dest] + 1), 0, 0);
  }

  lemma BurnIntake(c: Config, s: State, who: Account, amount: nat, r: Resource, dest: Chain, price: nat)
    requires Apart(c) && who != c.account && S.LedgerOk(s.ledger) && DoBurnAssets(c, s, who, amount, r, dest, price).Ok?
    ensures var s' := DoBurnAssets(c, s, who, amount, r, dest, price).value;
            Purse(s'.ledger, c.account) - Purse(s.ledger, c.account) == Intake(s'.log) - Intake(s.log)
  {
    hide Pay, BridgingFee, Intake, Purse, T.DoBurn, S.LedgerOk;
    var t, fee := s.assets[(r.chain, r.id)], BridgingFee(s.feeUsd, price);
    var s1 := Pay(s, who, t, fee, c.treasury).value;
    PayTokens(s, who, t, fee, c.treasury);
    PayPurse(s, who, t, fee, c.treasury, c.account);
    SoundIssuance(s1.ledger, t);
    BurnPurse(s1.ledger, t, who, amount - fee, c.account);
    BurnLedger(s1.ledger, t, who, amount - fee, t);
    LogGrows(s.log, Out(t, amount - fee, dest, s.bridge.nonces[dest] + 1), 0, 0);
  }

  lemma MintIntake(s: State, to: Account, amount: nat, r: Resource, a: Account)
    requires S.LedgerOk(s.ledger) && DoMintAssets(s, to, amount, r).Ok?
    ensures var s' := DoMintAssets(s, to, amount, r).value;
            Purse(s'.ledger, a) - Purse(s.ledger, a) == Intake(s'.log) - Intake(s.log)
  {
    hide Intake, Purse, T.DoMint, S.LedgerOk;
    var t := s.assets[(r.chain, r.id)];
    SoundIssuance(s.ledger, t);
    MintPurse(s.ledger, t, to, amount, a);
    LogGrows(s.log, In(t, amount), 0, 0);
    if amount != 0 {
      MintLedger(s.ledger, t, to, amount, t);
    }
  }

  lemma UnlockIntake(c: Config, s: State, to: Account, amount: nat)
    requires to != c.account && DoUnlock(c, s, to, amount).Ok?
    ensures var s' := DoUnlock(c, s, to, amount).value;
            Purse(s'.ledger, c.account) - Purse(s.ledger, c.account) == Intake(s'.log) - Intake(s.log)
  {
    hide Intake, Purse, Pay;
    PayPurse(s, c.account, T.NATIVE, amount, to, c.account);
    LogGrows(s.log, In(T.NATIVE, amount), 0, 0);
  }

  lemma DonatePurse(c: Config, s: State, to: Account, newcomer: bool)
    requires Apart(c) && to != c.account
    ensures Purse(Donate(c, s, to, newcomer).ledger, c.account) == Purse(s.ledger, c.account)
  {
    hide Pay, Purse;
    if Pay(s, c.donor, T.NATIVE, c.donation, to).Ok? {
      PayPurse(s, c.donor, T.NATIVE, c.donation, to, c.account);
    }
  }

  lemma InIntake(c: Config, s: State, to: Account, amount: nat, r: Resource, accepts: bool, newcomer: bool)
    requires Apart(c) && to != c.account && S.LedgerOk(s.ledger)
    requires TransferIn(c, s, to, amount, r, accepts, newcomer).Ok?
    ensures var s' := TransferIn(c, s, to, amount, r, accepts, newcomer).value;
            Purse(s'.ledger, c.account) - Purse(s.ledger, c.account) == Intake(s'.log) - Intake(s.log)
  {
    hide DoUnlock, DoMintAssets, Host, Donate, S.LedgerOk, Intake, Purse;
    var e := if IsNative(c, r) || (r.chain, r.id) !in s.assets then T.NATIVE else s.assets[(r.chain, r.id)];
    var s1 := (if IsNative(c, r) then DoUnlock(c, s, to, amount) else DoMintAssets(s, to, amount, r)).value;
    if IsNative(c, r) {
      UnlockIntake(c, s, to, amount);
    } else {
      MintIntake(s, to, amount, r, c.account);
    }
    HostPurse(s1, to, e, amount, r.dex, accepts, c.account);
    DonatePurse(c, Host(s1, to, e, amount, r.dex, accepts).value, to, newcomer);
  }

  lemma SparedPurse(l: T.State, op: T.Op, a: Account)
    requires Spares(op, a) && !op.Mint? && !op.Burn? && T.Step(l, op).Ok?
    ensures Purse(T.Step(l, op).value, a) == Purse(l, a)
  {
  }

  lemma StepIntake(c: Config, s: State, op: Op, start: int)
    requires Ready(s) && Apart(c) && KeepsApart(c, op) && IntakeOk(c, s, start)
    ensures Purse(After(c, s, op).ledger, c.account) == start + Intake(After(c, s, op).log)
  {
    hide S.LedgerOk, DoLock, DoBurnAssets, TransferIn, T.Step, B.Step, Purse, Intake;
    if Step(c, s, op).Ok? {
      if op.SendOut? {
        if IsNative(c, op.r) {
          LockIntake(c, s, op.who, op.amount, op.dest, op.price);
        } else {
          BurnIntake(c, s, op.who, op.amount, op.r, op.dest, op.price);
        }
      } else if op.BringIn? {
        InIntake(c, s, op.to, op.amount, op.r, op.accepts, op.newcomer);
      } else if op.LedgerOp? {
        SparedPurse(s.ledger, op.op, c.account);
      }
    }
  }

  /** The bridge account's native balance grows by exactly what is emitted and falls by exactly what
      is released. */
  lemma {:induction false} NativeIntakeIsEmittedMinusReleased(c: Config, s: State, ops: seq<Op>)
    requires Ready(s) && Fresh(s) && Apart(c) && forall i :: 0 <= i < |ops| ==> KeepsApart(c, ops[i])
    ensures Purse(Run(c, s, ops).ledger, c.account) == Purse(s.ledger, c.account) + Intake(Run(c, s, ops).log)
  {
    hide After, Ready, S.LedgerOk, FlowOk, Apart, KeepsApart, Purse;
    if ops == [] {
      assert s.log == [];
    } else {
      hide Fresh;
      NativeIntakeIsEmittedMinusReleased(c, s, ops[..|ops| - 1]);
      IssuanceIsNetFlow(c, s, ops[..|ops| - 1], 1, 0);
      StepIntake(c, Run(c, s, ops[..|ops| - 1]), ops[|ops| - 1], Purse(s.ledger, c.account));
    }
  }

  // ---- nonces ----

  lemma StepNonces(c: Config, s: State, op: Op, id: Chain)
    requires Ready(s) && V.NoncesOk(s.bridge, id)
    ensures V.NoncesOk(After(c, s, op).bridge, id)
  {
    hide Pay, Host, Donate, T.DoMint, T.DoBurn, T.Step, B.Step, B.Emit, BridgingFee, V.NoncesOk;
    if op.BridgeOp? {
      V.StepNonces(c.bridge, s.bridge, op.call, id);
    } else if op.SendOut? && B.Emit(s.bridge, op.dest).Ok? {
      V.EmitNonces(s.bridge, op.dest, id);
    }
  }

  /** Whatever is sent, each chain sees the nonces 1, 2, 3, ... without gaps. */
  lemma {:induction false} AnnouncedWithoutGaps(c: Config, s: State, ops: seq<Op>, id: Chain)
    requires Ready(s) && V.NoncesOk(s.bridge, id)
    ensures V.NoncesOk(Run(c, s, ops).bridge, id)
  {
    hide After, Ready, V.NoncesOk;
    if ops != [] {
      AnnouncedWithoutGaps(c, s, ops[..|ops| - 1], id);
      StepNonces(c, Run(c, s, ops[..|ops| - 1]), ops[|ops| - 1], id);
    }
  }
}
