/** The bridge handler working on the token ledger and the bridge pallet in place. */
module BridgeDesk {
  import opened Results
  import opened FixedPoint
  import opened BridgeHandler
  import G = BridgePallet
  import P = TokenPallet
  import opened BridgeAccounting

  class Desk {
    const config: Config
    const ledger: P.Ledger
    const bridge: G.Bridge
    var assets: map<(Chain, Bytes), T.Token>
    var associated: map<nat, Account>
    var nativeCheck: bool
    var feeUsd: nat
    ghost var log: seq<Movement>
    ghost const start: State
    ghost var trace: seq<Op>

    ghost function Model(): State
      reads this, ledger, bridge
    {
      State(ledger.Model(), bridge.Model(), assets, associated, nativeCheck, feeUsd, log)
    }

    /** Issued totals are u128 values. */
    ghost predicate TotalsFit()
      reads this, ledger
    {
      forall t :: t in ledger.tokens ==> Fits(ledger.tokens[t].total)
    }

    /** Opens the desk over a ledger and a bridge in which nothing was bridged yet. */
    constructor (c: Config, l: P.Ledger, b: G.Bridge, fee: nat)
      requires b.config == c.bridge && B.CountOk(b.Model()) && Fresh(State(l.Model(), b.Model(), map[], map[], false, fee, []))
      ensures config == c && ledger == l && bridge == b && trace == [] && Valid()
      ensures start == State(l.Model(), b.Model(), map[], map[], false, fee, [])
    {
      config, ledger, bridge := c, l, b;
      assets, associated, nativeCheck, feeUsd, log := map[], map[], false, fee, [];
      start, trace := State(l.Model(), b.Model(), map[], map[], false, fee, []), [];
    }

    /** The desk stands where the calls made on it lead from its opening. */
    ghost predicate Valid()
      reads this, ledger, bridge
    {
      bridge.config == config.bridge && Ready(start) && Fresh(start) && Model() == Run(config, start, trace)
    }

    function CalculateFee(price: nat): nat
      reads this
    {
      BridgingFee(feeUsd, price)
    }

    method AnnounceOut(t: T.Token, x: nat, dest: Chain) returns (r: Result<(), Error>)
      requires B.CountOk(bridge.Model())
      modifies this`log, bridge
      ensures Reflects(Announce(old(Model()), t, x, dest), old(Model()), r, Model())
      ensures B.CountOk(bridge.Model())
    {
      var sent := bridge.BumpNonce(dest);
      if sent.Err? { return Err(Bridge(sent.error)); }
      log := log + [Out(t, x, dest, bridge.nonces[dest])];
      return Ok(());
    }

    method Lock(who: Account, amount: nat, dest: Chain, price: nat) returns (r: Result<(), Error>)
      requires B.CountOk(bridge.Model())
      modifies this`log, ledger, bridge
      ensures Reflects(DoLock(config, old(Model()), who, amount, dest, price), old(Model()), r, Model())
    {
      hide T.TransferToken, BridgingFee, B.Emit;
      if nativeCheck {
        var held := ledger.AccountOf(T.NATIVE, config.account).free;
        if !Fits(held + amount) { return Err(ArithmeticOverflow); }
        if held + amount > config.nativeMax / 3 { return Err(OverTransferLimit); }
      }
      var fee := CalculateFee(price);
      if !Fits(fee + fee) { return Err(ArithmeticOverflow); }
      if amount <= fee + fee { return Err(LessThanBridgingThreshold); }
      var before := ledger.balances;
      var paid := ledger.PayToken(who, T.NATIVE, fee, config.treasury);
      if paid.Err? { return Err(Ledger(paid.error)); }
      paid := ledger.PayToken(who, T.NATIVE, amount - fee, config.account);
      if paid.Err? {
        ledger.balances := before;
        return Err(Ledger(paid.error));
      }
      r := AnnounceOut(T.NATIVE, amount - fee, dest);
      if r.Err? { ledger.balances := before; }
    }

    method BurnAssets(who: Account, amount: nat, res: Resource, dest: Chain, price: nat) returns (r: Result<(), Error>)
      requires B.CountOk(bridge.Model()) && TotalsFit() && Fits(amount)
      modifies this`log, ledger, bridge
      ensures Reflects(DoBurnAssets(config, old(Model()), who, amount, res, dest, price), old(Model()), r, Model())
    {
      hide T.TransferToken, T.DoBurn, BridgingFee, B.Emit;
      if (res.chain, res.id) !in assets { return Err(InvalidResourceId); }
      var t, fee := assets[(res.chain, res.id)], CalculateFee(price);
      if !Fits(fee + fee) { return Err(ArithmeticOverflow); }
      if amount <= fee + fee { return Err(LessThanBridgingThreshold); }
      var before, tokens := ledger.balances, ledger.tokens;
      var paid := ledger.PayToken(who, t, fee, config.treasury);
      if paid.Err? { return Err(Ledger(paid.error)); }
      var burned := ledger.BurnFrom(t, who, amount - fee);
      if burned.Err? {
        ledger.balances := before;
        return Err(Ledger(burned.error));
      }
      r := AnnounceOut(t, amount - fee, dest);
      if r.Err? { ledger.balances, ledger.tokens := before, tokens; }
    }

    method Send(who: Account, amount: nat, res: Resource, dest: Chain, price: nat) returns (r: Result<(), Error>)
      requires B.CountOk(bridge.Model()) && TotalsFit() && Fits(amount)
      modifies this`log, ledger, bridge
      ensures Reflects(TransferOut(config, old(Model()), who, amount, res, dest, price), old(Model()), r, Model())
    {
      hide DoLock, DoBurnAssets;
      if dest !in bridge.nonces { return Err(InvalidTransfer); }
      if IsNative(config, res) {
        r := Lock(who, amount, dest, price);
      } else {
        r := BurnAssets(who, amount, res, dest, price);
      }
    }

    method Unlock(to: Account, amount: nat) returns (r: Result<(), Error>)
      modifies this`log, ledger
      ensures Reflects(DoUnlock(config, old(Model()), to, amount), old(Model()), r, Model())
    {
      hide T.TransferToken;
      var paid := ledger.PayToken(config.account, T.NATIVE, amount, to);
      if paid.Err? { return Err(Ledger(paid.error)); }
      log := log + [In(T.NATIVE, amount)];
      return Ok(());
    }

    method MintAssets(to: Account, amount: nat, res: Resource) returns (r: Result<(), Error>)
      requires TotalsFit() && Fits(amount)
      modifies this`log, ledger
      ensures Reflects(DoMintAssets(old(Model()), to, amount, res), old(Model()), r, Model())
    {
      hide T.DoMint;
      if (res.chain, res.id) !in assets { return Err(InvalidResourceId); }
      var minted := ledger.MintInto(assets[(res.chain, res.id)], to, amount);
      if minted.Err? { return Err(Ledger(minted.error)); }
      log := log + [In(assets[(res.chain, res.id)], amount)];
      return Ok(());
    }

    /** `accepts` stands for the verifier's own conditions on hosting. */
    method HostFor(to: Account, t: T.Token, amount: nat, dex: nat, accepts: bool) returns (r: Result<(), Error>)
      requires Fits(amount)
      modifies ledger
      ensures Reflects(Host(old(Model()), to, t, amount, dex, accepts), old(Model()), r, Model())
    {
      hide T.Reserve, T.Unified;
      if dex !in associated { return Ok(()); }
      var x := amount;
      if t != T.NATIVE {
        if t !in ledger.tokens { return Err(InvalidResourceId); }
        if ledger.tokens[t].Bridged? {
          var scaled := T.UnifyDecimals(amount, ledger.tokens[t].decimals);
          if scaled.Err? { return Err(ArithmeticOverflow); }
          x := scaled.value;
        }
      }
      if accepts {
        var _ := ledger.ReserveToken(t, to, x);
      }
      return Ok(());
    }

    method Welcome(to: Account, newcomer: bool)
      modifies ledger
      ensures Model() == Donate(config, old(Model()), to, newcomer)
    {
      hide T.TransferToken;
      if newcomer {
        var _ := ledger.PayToken(config.donor, T.NATIVE, config.donation, to);
      }
    }

    method Bring(to: Account, amount: nat, res: Resource, accepts: bool, newcomer: bool) returns (r: Result<(), Error>)
      requires TotalsFit() && Fits(amount)
      modifies this`log, ledger
      ensures Reflects(TransferIn(config, old(Model()), to, amount, res, accepts, newcomer), old(Model()), r, Model())
    {
      hide DoUnlock, DoMintAssets, Host, Donate;
      var balances, tokens := ledger.balances, ledger.tokens;
      ghost var past := log;
      ghost var was := Model();
      ArrivalFrame(config, was, to, amount, res);
      var t := T.NATIVE;
      if IsNative(config, res) {
        r := Unlock(to, amount);
      } else {
        if (res.chain, res.id) in assets { t := assets[(res.chain, res.id)]; }
        r := MintAssets(to, amount, res);
      }
      if r.Err? { return; }
      r := HostFor(to, t, amount, res.dex, accepts);
      if r.Err? {
        ledger.balances, ledger.tokens, log := balances, tokens, past;
        return;
      }
      Welcome(to, newcomer);
    }

    /** Any call on the desk, its ledger or its bridge. */
    method Handle(op: Op) returns (r: Result<(), Error>)
      requires bridge.config == config.bridge && B.CountOk(bridge.Model()) && TotalsFit()
      requires op.SendOut? || op.BringIn? ==> Fits(op.amount)
      modifies this`assets, this`associated, this`nativeCheck, this`log, ledger, bridge
      ensures Reflects(Step(config, old(Model()), op), old(Model()), r, Model())
    {
      hide TransferOut, TransferIn, T.Step, B.Step;
      match op
      case SendOut(who, amount, res, dest, price) => r := Send(who, amount, res, dest, price);
      case BringIn(to, amount, res, accepts, newcomer) => r := Bring(to, amount, res, accepts, newcomer);
      case LedgerOp(call) =>
        if call.Mint? || call.Burn? { return Err(OnlyThroughBridge); }
        var done := ledger.Handle(call);
        r := if done.Ok? then Ok(()) else Err(Ledger(done.error));
      case BridgeOp(call) =>
        var done := bridge.Handle(call);
        r := if done.Ok? then Ok(()) else Err(Bridge(done.error));
      case AssociateToken(chain, id, t) => assets := assets[(chain, id) := t]; r := Ok(());
      case AssociateDominator(dex, d) => associated := associated[dex := d]; r := Ok(());
      case NativeLimit(on) => nativeCheck := on; r := Ok(());
    }

    /** A recorded call: whatever was called before, every token's issuance is its net flow over the
        bridge, and as long as the bridge account is kept apart its native balance is the net intake. */
    method Dispatch(op: Op) returns (r: Result<(), Error>)
      requires Valid() && (op.SendOut? || op.BringIn? ==> Fits(op.amount))
      modifies this, ledger, bridge
      ensures Valid() && trace == old(trace) + [op]
      ensures Reflects(Step(config, old(Model()), op), old(Model()), r, Model())
      ensures S.LedgerOk(ledger.Model()) && forall t, decimals :: t != T.NATIVE ==> FlowOk(Model(), t, decimals)
      ensures Apart(config) && (forall i :: 0 <= i < |trace| ==> KeepsApart(config, trace[i])) ==>
                Purse(ledger.Model(), config.account) == Purse(start.ledger, config.account) + Intake(log)
    {
      hide Step, S.LedgerOk, FlowOk, Fresh, KeepsApart, Purse, Intake;
      ghost var before := trace;
      IssuanceIsNetFlow(config, start, before, 1, 0);
      P.TotalsFit(ledger.Model());
      r := Handle(op);
      assert (before + [op])[..|before|] == before;
      trace := before + [op];
      IssuanceIsNetFlow(config, start, trace, 1, 0);
      forall t, decimals | t != T.NATIVE ensures FlowOk(Model(), t, decimals) { IssuanceIsNetFlow(config, start, trace, t, decimals); }
      if Apart(config) && forall i :: 0 <= i < |trace| ==> KeepsApart(config, trace[i]) {
        NativeIntakeIsEmittedMinusReleased(config, start, trace);
      }
    }
  }

  /** What an arrival may change, so that it can be undone. */
  lemma ArrivalFrame(c: Config, s: State, to: Account, amount: nat, res: Resource)
    ensures var o := if IsNative(c, res) then DoUnlock(c, s, to, amount) else DoMintAssets(s, to, amount, res);
            o.Ok? ==>
              && o.value == s.(ledger := o.value.ledger, log := o.value.log)
              && o.value.ledger == s.ledger.(tokens := o.value.ledger.tokens, balances := o.value.ledger.balances)
  {
    hide T.DoMint, T.TransferToken;
  }
}
