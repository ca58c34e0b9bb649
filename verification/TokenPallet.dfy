/** The token pallet's storage and its operations in place, each proved against the ledger function. */
module TokenPallet {
  import opened Results
  import opened FixedPoint
  import opened Tokens
  import opened TokenSupply

  class Ledger {
    var nextId: Token
    var tokens: map<Token, XToken>
    var byName: map<Bytes, Token>
    var balances: Balances
    ghost var trace: seq<Op>

    ghost function Model(): State
      reads this
    {
      State(nextId, tokens, byName, balances)
    }

    constructor ()
      ensures Valid() && trace == []
    {
      nextId, tokens, byName, balances, trace := 1, map[], map[], map[], [];
    }

    function AccountOf(t: Token, u: Account): Balance
      reads this
    {
      if (t, u) in balances then balances[(t, u)] else Balance(0, 0)
    }

    method CreateToken(info: XToken) returns (r: Result<Token, Error>)
      modifies this`nextId, this`tokens, this`byName
      ensures match Create(old(Model()), info)
              case Ok(s) => Model() == s && r == Ok(old(nextId))
              case Err(e) => Model() == old(Model()) && r == Err(e)
    {
      match info {
        case Bridged(kind, symbol, contract, _, stable, decimals) =>
          if decimals > MAX_DECIMALS { return Err(InvalidDecimals); }
          if !NameOk(symbol) { return Err(InvalidTokenName); }
          if kind == NEP141 {
            if !(2 < |contract| < 120) || contract in byName { return Err(ContractError); }
            byName := byName[contract := nextId];
          } else if |contract| != 20 {
            return Err(ContractError);
          }
        case FND10(symbol, _) =>
          if !NameOk(symbol) { return Err(InvalidTokenName); }
      }
      r := Ok(nextId);
      tokens := tokens[nextId := info.Issued(0)];
      nextId := nextId + 1;
    }

    method MintInto(t: Token, to: Account, amount: nat) returns (r: Result<(), Error>)
      requires Fits(amount)
      requires forall e :: e in tokens ==> Fits(tokens[e].total)
      modifies this`tokens, this`balances
      ensures Reflects(DoMint(old(Model()), t, to, amount), old(Model()), r, Model())
    {
      hide Unified;
      if amount == 0 { return Ok(()); }
      if t !in tokens { return Err(InvalidToken); }
      var info := tokens[t];
      var unified := info.total;
      if info.Bridged? {
        var scaled := UnifyDecimals(amount, info.decimals);
        if scaled.Err? { return Err(scaled.error); }
        unified := scaled.value;
        if !Fits(info.total + unified) { return Err(InsufficientBalance); }
        info := info.Issued(info.total + unified);
      }
      if unified == 0 { return Err(AmountZero); }
      var b := AccountOf(t, to);
      if !Fits(b.free + unified) { return Err(Overflow); }
      balances := balances[(t, to) := b.(free := b.free + unified)];
      tokens := tokens[t := info];
      return Ok(());
    }

    method BurnFrom(t: Token, from: Account, amount: nat) returns (r: Result<(), Error>)
      requires Fits(amount)
      requires forall e :: e in tokens ==> Fits(tokens[e].total)
      modifies this`tokens, this`balances
      ensures Reflects(DoBurn(old(Model()), t, from, amount), old(Model()), r, Model())
    {
      hide Unified;
      if amount == 0 { return Err(AmountZero); }
      if t !in tokens { return Err(BalanceZero); }
      var info := tokens[t];
      var unified := info.total;
      if info.Bridged? {
        var scaled := UnifyDecimals(amount, info.decimals);
        if scaled.Err? { return Err(scaled.error); }
        unified := scaled.value;
        if info.total < unified { return Err(InsufficientBalance); }
        info := info.Issued(info.total - unified);
      }
      if unified == 0 { return Err(AmountZero); }
      if (t, from) !in balances { return Err(BalanceZero); }
      var b := balances[(t, from)];
      if b.free < unified { return Err(InsufficientBalance); }
      b := b.(free := b.free - unified);
      WriteBack(t, from, b);
      tokens := tokens[t := info];
      return Ok(());
    }

    /** The end of a mutation: an account left with nothing is removed. */
    method WriteBack(t: Token, u: Account, b: Balance)
      modifies this`balances
      ensures Model() == old(Model()).(balances := Store(old(balances), t, u, b))
    {
      if b.free == 0 && b.reserved == 0 {
        balances := balances - {(t, u)};
      } else {
        balances := balances[(t, u) := b];
      }
    }

    method PayNative(from: Account, amount: nat, to: Account) returns (r: Result<(), Error>)
      modifies this`balances
      ensures Reflects(NativeTransfer(old(Model()), from, amount, to), old(Model()), r, Model())
    {
      if from == to { return Ok(()); }
      var payer, payee := AccountOf(NATIVE, from), AccountOf(NATIVE, to);
      if payer.free < amount { return Err(InsufficientBalance); }
      if !Fits(payee.free + amount) { return Err(Overflow); }
      balances := balances[(NATIVE, from) := payer.(free := payer.free - amount)];
      balances := balances[(NATIVE, to) := payee.(free := payee.free + amount)];
      return Ok(());
    }

    /** The payer's account is read first and written last, around the payee's write. */
    method PayToken(from: Account, t: Token, amount: nat, to: Account) returns (r: Result<(), Error>)
      modifies this`balances
      ensures Reflects(TransferToken(old(Model()), from, t, amount, to), old(Model()), r, Model())
    {
      hide Store, NativeTransfer;
      if amount == 0 { return Ok(()); }
      if t == NATIVE {
        r := PayNative(from, amount, to);
        return;
      }
      if (t, from) !in balances { return Err(BalanceZero); }
      var payer := balances[(t, from)];
      if payer.free < amount { return Err(InsufficientBalance); }
      payer := payer.(free := payer.free - amount);
      var payee := AccountOf(t, to);
      if !Fits(payee.free + amount) { return Err(Overflow); }
      balances := balances[(t, to) := payee.(free := payee.free + amount)];
      WriteBack(t, from, payer);
      return Ok(());
    }

    method ReserveToken(t: Token, u: Account, x: nat) returns (r: Result<(), Error>)
      modifies this`balances
      ensures Reflects(Reserve(old(Model()), t, u, x), old(Model()), r, Model())
    {
      if x == 0 { return Ok(()); }
      if t != NATIVE && (t, u) !in balances { return Err(BalanceZero); }
      var b := AccountOf(t, u);
      if b.free < x { return Err(InsufficientBalance); }
      if !Fits(b.reserved + x) { return Err(Overflow); }
      balances := balances[(t, u) := Balance(b.free - x, b.reserved + x)];
      return Ok(());
    }

    method UnreserveToken(t: Token, u: Account, x: nat) returns (r: Result<(), Error>)
      modifies this`balances
      ensures Reflects(Unreserve(old(Model()), t, u, x), old(Model()), r, Model())
    {
      if x == 0 { return Ok(()); }
      if t != NATIVE && (t, u) !in balances { return Err(BalanceZero); }
      var b := AccountOf(t, u);
      if b.reserved < x { return Err(InsufficientBalance); }
      if t != NATIVE && !Fits(b.free + x) { return Err(Overflow); }
      balances := balances[(t, u) := Balance(b.free + x, b.reserved - x)];
      return Ok(());
    }

    method RepatriateReserved(t: Token, from: Account, to: Account, x: nat, status: Status) returns (r: Result<(), Error>)
      modifies this`balances
      ensures Reflects(Repatriate(old(Model()), t, from, to, x, status), old(Model()), r, Model())
    {
      hide Store, Reserve, Unreserve, NativeRepatriate;
      if t == NATIVE {
        r := RepatriateNative(from, to, x, status);
        return;
      }
      if from == to {
        if status == Free {
          r := UnreserveToken(t, from, x);
        } else {
          r := ReserveToken(t, from, x);
        }
        return;
      }
      if (t, from) !in balances { return Err(BalanceZero); }
      var slashed, gainer := balances[(t, from)], AccountOf(t, to);
      if slashed.reserved < x { return Err(InsufficientBalance); }
      if !Fits(x + if status == Free then gainer.free else gainer.reserved) { return Err(Overflow); }
      slashed := slashed.(reserved := slashed.reserved - x);
      balances := balances[(t, to) := Given(gainer, x, status)];
      WriteBack(t, from, slashed);
      return Ok(());
    }

    method RepatriateNative(from: Account, to: Account, x: nat, status: Status) returns (r: Result<(), Error>)
      modifies this`balances
      ensures Reflects(NativeRepatriate(old(Model()), from, to, x, status), old(Model()), r, Model())
    {
      hide Unreserve;
      var slashed, gainer := AccountOf(NATIVE, from), AccountOf(NATIVE, to);
      if slashed.reserved < x { return Err(InsufficientBalance); }
      if from == to {
        r := Ok(());
        if status == Free { r := UnreserveToken(NATIVE, from, x); }
        return;
      }
      if !Fits(x + if status == Free then gainer.free else gainer.reserved) { return Err(Overflow); }
      balances := balances[(NATIVE, from) := slashed.(reserved := slashed.reserved - x)];
      balances := balances[(NATIVE, to) := Given(gainer, x, status)];
      return Ok(());
    }

    /** Any call on the pallet. Amounts and totals are u128 values. */
    method Handle(op: Op) returns (r: Result<(), Error>)
      requires op.Mint? || op.Burn? ==> Fits(op.x)
      requires forall t :: t in tokens ==> Fits(tokens[t].total)
      modifies this`nextId, this`tokens, this`byName, this`balances
      ensures Reflects(Step(old(Model()), op), old(Model()), r, Model())
    {
      hide Create, DoMint, DoBurn, TransferToken, Reserve, Unreserve, Repatriate;
      if op.CreateToken? {
        var id := CreateToken(op.info);
        r := if id.Ok? then Ok(()) else Err(id.error);
      } else if op.Mint? {
        r := MintInto(op.t, op.u, op.x);
      } else if op.Burn? {
        r := BurnFrom(op.t, op.u, op.x);
      } else if op.Transfer? {
        r := PayToken(op.from, op.t, op.x, op.to);
      } else if op.ReserveToken? {
        r := ReserveToken(op.t, op.u, op.x);
      } else if op.UnreserveToken? {
        r := UnreserveToken(op.t, op.u, op.x);
      } else {
        r := RepatriateReserved(op.t, op.from, op.to, op.x, op.status);
      }
    }

    // ---- runs of the object ----

    /** The object stands where the calls made on it lead from genesis. */
    ghost predicate Valid()
      reads this
    {
      Model() == Run(INITIAL, trace)
    }

    /** A recorded call: whatever was called before, holdings stay within issuance, and equal it as
        long as nobody paid oneself. */
    method Dispatch(op: Op) returns (r: Result<(), Error>)
      requires Valid() && (op.Mint? || op.Burn? ==> Fits(op.x))
      modifies this
      ensures Valid() && trace == old(trace) + [op]
      ensures Reflects(Step(old(Model()), op), old(Model()), r, Model())
      ensures LedgerOk(Model())
      ensures (forall i :: 0 <= i < |trace| ==> !PaysItself(trace[i])) ==> forall t :: SupplyExact(Model(), t)
    {
      SupplyNeverExceedsIssuance(trace);
      TotalsFit(Model());
      hide Step, LedgerOk, SupplyExact;
      r := Handle(op);
      assert (trace + [op])[..|trace|] == trace;
      trace := trace + [op];
      SupplyNeverExceedsIssuance(trace);
      if forall i :: 0 <= i < |trace| ==> !PaysItself(trace[i]) {
        forall t ensures SupplyExact(Model(), t) { SupplyEqualsIssuance(trace, t); }
      }
    }
  }

  lemma TotalsFit(s: State)
    requires LedgerOk(s)
    ensures forall t :: t in s.tokens ==> Fits(s.tokens[t].total)
  {
    forall t | t in s.tokens ensures Fits(s.tokens[t].total) { assert IssuanceOk(s, t); }
  }
}
