/** The multi-asset ledger: creation, minting, burning, transfers and reserves. */
module Tokens {
  import opened Results
  import opened FixedPoint

  type Account = int
  type Token = nat
  type Bytes = seq<nat>

  const STANDARD_DECIMALS: nat := 18
  const MAX_DECIMALS: nat := 24
  const NATIVE: Token := 0

  datatype Error =
    | AmountZero
    | BalanceZero
    | InvalidTokenName
    | InvalidToken
    | InsufficientBalance
    | Overflow
    | InvalidDecimals
    | ContractError
    | ArithmeticOverflow

  datatype Kind = NEP141 | ERC20 | BEP20

  datatype XToken =
    | Bridged(kind: Kind, symbol: Bytes, contract: Bytes, total: nat, stable: bool, decimals: nat)
    | FND10(symbol: Bytes, total: nat)
  {
    function Issued(amount: nat): XToken {
      match this
      case Bridged(kind, symbol, contract, _, stable, decimals) => Bridged(kind, symbol, contract, amount, stable, decimals)
      case FND10(symbol, _) => FND10(symbol, amount)
    }
  }

  datatype Balance = Balance(free: nat, reserved: nat) {
    function Total(): nat { free + reserved }
  }

  datatype Status = Free | Reserved

  type Balances = map<(Token, Account), Balance>

  datatype State = State(nextId: Token, tokens: map<Token, XToken>, byName: map<Bytes, Token>, balances: Balances) {
    function BalanceOf(t: Token, u: Account): Balance {
      if (t, u) in balances then balances[(t, u)] else Balance(0, 0)
    }

    function Issuance(t: Token): nat {
      if t in tokens then tokens[t].total else 0
    }

    function Put(t: Token, u: Account, b: Balance): State {
      this.(balances := balances[(t, u) := b])
    }
  }

  const INITIAL: State := State(1, map[], map[], map[])

  type Outcome = Result<State, Error>

  // ---- decimals ----

  function Pow10(k: nat): (r: nat)
    ensures r > 0
  {
    if k == 0 then 1 else 10 * Pow10(k - 1)
  }

  /** An amount in a token's own decimals, in units of 10^-18. */
  function Unified(amount: nat, decimals: nat): nat {
    if decimals > STANDARD_DECIMALS then FloorDiv(amount, Pow10(decimals - STANDARD_DECIMALS))
    else amount * Pow10(STANDARD_DECIMALS - decimals)
  }

  /** Dividing by ten once more is dividing by the next power. */
  lemma DivideOnceMore(amount: nat, p: nat)
    requires p > 0
    ensures FloorDiv(amount, p) / 10 == FloorDiv(amount, 10 * p)
  {
    var q, rest := amount / p, amount % p;
    var tens, ones := q / 10, q % 10;
    assert p * q == (10 * p) * tens + p * ones by {
      assert q == 10 * tens + ones;
      Swap(p, 10, tens);
    }
    MulMono(ones, 9, p);
    DivUnique(amount, 10 * p, tens, p * ones + rest);
  }

  /** The digit-by-digit loop is one multiplication or one floor division by a power of ten. */
  method UnifyDecimals(amount: nat, decimals: nat) returns (r: Result<nat, Error>)
    requires Fits(amount)
    ensures r == if Fits(Unified(amount, decimals)) then Ok(Unified(amount, decimals)) else Err(ArithmeticOverflow)
  {
    var x := amount;
    if decimals > STANDARD_DECIMALS {
      var diff := decimals - STANDARD_DECIMALS;
      for i := 0 to diff
        invariant x == FloorDiv(amount, Pow10(i)) && x <= amount
      {
        DivideOnceMore(amount, Pow10(i));
        x := x / 10;
      }
    } else {
      var diff := STANDARD_DECIMALS - decimals;
      for i := 0 to diff
        invariant x == amount * Pow10(i) && Fits(x)
      {
        assert amount * Pow10(i + 1) == 10 * x by { TimesTen(amount, i); }
        if !Fits(10 * x) {
          PowGrows(amount, i + 1, diff);
          return Err(ArithmeticOverflow);
        }
        x := 10 * x;
      }
    }
    return Ok(x);
  }

  lemma TimesTen(amount: nat, i: nat)
    ensures amount * Pow10(i + 1) == 10 * (amount * Pow10(i))
  {
    Swap(amount, 10, Pow10(i));
  }

  lemma {:induction false} PowGrows(amount: nat, i: nat, j: nat)
    requires i <= j
    ensures amount * Pow10(i) <= amount * Pow10(j)
  {
    if i < j {
      PowGrows(amount, i, j - 1);
      TimesTen(amount, j - 1);
    }
  }

  // ---- issuance ----

  predicate NameOk(symbol: Bytes) {
    (forall i :: 0 <= i < |symbol| ==> symbol[i] < 128) && 2 <= |symbol| <= 8
  }

  /** Registers a token under the next id, with nothing issued whatever the request says. */
  function Create(s: State, info: XToken): Outcome {
    if info.FND10? then
      if !NameOk(info.symbol) then Err(InvalidTokenName)
      else Ok(s.(nextId := s.nextId + 1, tokens := s.tokens[s.nextId := info.Issued(0)]))
    else if info.decimals > MAX_DECIMALS then Err(InvalidDecimals)
    else if !NameOk(info.symbol) then Err(InvalidTokenName)
    else if info.kind == NEP141 then
      if !(2 < |info.contract| < 120) || info.contract in s.byName then Err(ContractError)
      else Ok(s.(nextId := s.nextId + 1, tokens := s.tokens[s.nextId := info.Issued(0)],
                 byName := s.byName[info.contract := s.nextId]))
    else if |info.contract| != 20 then Err(ContractError)
    else Ok(s.(nextId := s.nextId + 1, tokens := s.tokens[s.nextId := info.Issued(0)]))
  }

  function DoMint(s: State, t: Token, to: Account, amount: nat): (r: Outcome)
    ensures r.Ok? ==> r.value == s.(tokens := r.value.tokens, balances := r.value.balances)
  {
    if amount == 0 then Ok(s)
    else if t !in s.tokens then Err(InvalidToken)
    else
      var info := s.tokens[t];
      var unified := if info.FND10? then info.total else Unified(amount, info.decimals);
      var total := if info.FND10? then info.total else info.total + unified;
      if !Fits(unified) then Err(ArithmeticOverflow)
      else if !Fits(total) then Err(InsufficientBalance)
      else if unified == 0 then Err(AmountZero)
      else
        var b := s.BalanceOf(t, to);
        if !Fits(b.free + unified) then Err(Overflow)
        else Ok(s.(tokens := s.tokens[t := info.Issued(total)]).Put(t, to, b.(free := b.free + unified)))
  }

  /** An account left with nothing disappears. */
  function Store(m: Balances, t: Token, u: Account, b: Balance): Balances {
    if b.Total() == 0 then m - {(t, u)} else m[(t, u) := b]
  }

  function DoBurn(s: State, t: Token, from: Account, amount: nat): (r: Outcome)
    ensures r.Ok? ==> r.value == s.(tokens := r.value.tokens, balances := r.value.balances)
  {
    if amount == 0 then Err(AmountZero)
    else if t !in s.tokens then Err(BalanceZero)
    else
      var info := s.tokens[t];
      var unified := if info.FND10? then info.total else Unified(amount, info.decimals);
      if !Fits(unified) then Err(ArithmeticOverflow)
      else if !info.FND10? && info.total < unified then Err(InsufficientBalance)
      else if unified == 0 then Err(AmountZero)
      else if (t, from) !in s.balances then Err(BalanceZero)
      else
        var b := s.balances[(t, from)];
        if b.free < unified then Err(InsufficientBalance)
        else
          var total := if info.FND10? then info.total else info.total - unified;
          Ok(s.(tokens := s.tokens[t := info.Issued(total)],
                balances := Store(s.balances, t, from, b.(free := b.free - unified))))
  }

  // ---- transfers ----

  /** The native token moves in the balances pallet, where paying oneself does nothing. */
  function NativeTransfer(s: State, from: Account, amount: nat, to: Account): Outcome {
    var b, b' := s.BalanceOf(NATIVE, from), s.BalanceOf(NATIVE, to);
    if from == to then Ok(s)
    else if b.free < amount then Err(InsufficientBalance)
    else if !Fits(b'.free + amount) then Err(Overflow)
    else Ok(s.Put(NATIVE, from, b.(free := b.free - amount)).Put(NATIVE, to, b'.(free := b'.free + amount)))
  }

  /** Both sides are read before either is written, and the payer is written last. */
  function TransferToken(s: State, from: Account, t: Token, amount: nat, to: Account): (r: Outcome)
    ensures r.Ok? ==> r.value == s.(balances := r.value.balances)
  {
    if amount == 0 then Ok(s)
    else if t == NATIVE then NativeTransfer(s, from, amount, to)
    else if (t, from) !in s.balances then Err(BalanceZero)
    else
      var b, b' := s.balances[(t, from)], s.BalanceOf(t, to);
      if b.free < amount then Err(InsufficientBalance)
      else if !Fits(b'.free + amount) then Err(Overflow)
      else
        var paid := s.Put(t, to, b'.(free := b'.free + amount));
        Ok(paid.(balances := Store(paid.balances, t, from, b.(free := b.free - amount))))
  }

  // ---- reserves ----

  function Reserve(s: State, t: Token, u: Account, x: nat): (r: Outcome)
    ensures r.Ok? ==> r.value == s.(balances := r.value.balances)
  {
    var b := s.BalanceOf(t, u);
    if x == 0 then Ok(s)
    else if t != NATIVE && (t, u) !in s.balances then Err(BalanceZero)
    else if b.free < x then Err(InsufficientBalance)
    else if !Fits(b.reserved + x) then Err(Overflow)
    else Ok(s.Put(t, u, Balance(b.free - x, b.reserved + x)))
  }

  function Unreserve(s: State, t: Token, u: Account, x: nat): (r: Outcome)
    ensures r.Ok? ==> r.value == s.(balances := r.value.balances)
  {
    var b := s.BalanceOf(t, u);
    if x == 0 then Ok(s)
    else if t != NATIVE && (t, u) !in s.balances then Err(BalanceZero)
    else if b.reserved < x then Err(InsufficientBalance)
    else if t != NATIVE && !Fits(b.free + x) then Err(Overflow)
    else Ok(s.Put(t, u, Balance(b.free + x, b.reserved - x)))
  }

  /** The native token again moves in the balances pallet: to oneself it unreserves or does nothing. */
  function NativeRepatriate(s: State, from: Account, to: Account, x: nat, status: Status): Outcome {
    var b, b' := s.BalanceOf(NATIVE, from), s.BalanceOf(NATIVE, to);
    if b.reserved < x then Err(InsufficientBalance)
    else if from == to then
      if status == Free then Unreserve(s, NATIVE, from, x) else Ok(s)
    else if !Fits(x + if status == Free then b'.free else b'.reserved) then Err(Overflow)
    else Ok(s.Put(NATIVE, from, b.(reserved := b.reserved - x)).Put(NATIVE, to, Given(b', x, status)))
  }

  function Given(b: Balance, x: nat, status: Status): Balance {
    if status == Free then b.(free := b.free + x) else b.(reserved := b.reserved + x)
  }

  /** Moves reserved funds to another account; to oneself it only unreserves or reserves. */
  function Repatriate(s: State, t: Token, from: Account, to: Account, x: nat, status: Status): (r: Outcome)
    ensures r.Ok? ==> r.value == s.(balances := r.value.balances)
  {
    if t == NATIVE then NativeRepatriate(s, from, to, x, status)
    else if from == to then
      match status
      case Free => Unreserve(s, t, from, x)
      case Reserved => Reserve(s, t, from, x)
    else if (t, from) !in s.balances then Err(BalanceZero)
    else
      var b, b' := s.balances[(t, from)], s.BalanceOf(t, to);
      if b.reserved < x then Err(InsufficientBalance)
      else if !Fits(x + if status == Free then b'.free else b'.reserved) then Err(Overflow)
      else
        var paid := s.Put(t, to, Given(b', x, status));
        Ok(paid.(balances := Store(paid.balances, t, from, b.(reserved := b.reserved - x))))
  }

  // ---- runs ----

  datatype Op =
    | CreateToken(info: XToken)
    | Mint(t: Token, u: Account, x: nat)
    | Burn(t: Token, u: Account, x: nat)
    | Transfer(from: Account, t: Token, x: nat, to: Account)
    | ReserveToken(t: Token, u: Account, x: nat)
    | UnreserveToken(t: Token, u: Account, x: nat)
    | RepatriateReserved(t: Token, from: Account, to: Account, x: nat, status: Status)

  function Step(s: State, op: Op): Outcome {
    match op
    case CreateToken(info) => Create(s, info)
    case Mint(t, u, x) => DoMint(s, t, u, x)
    case Burn(t, u, x) => DoBurn(s, t, u, x)
    case Transfer(from, t, x, to) => TransferToken(s, from, t, x, to)
    case ReserveToken(t, u, x) => Reserve(s, t, u, x)
    case UnreserveToken(t, u, x) => Unreserve(s, t, u, x)
    case RepatriateReserved(t, from, to, x, status) => Repatriate(s, t, from, to, x, status)
  }

  function After(s: State, op: Op): State {
    var r := Step(s, op);
    if r.Ok? then r.value else s
  }

  function Run(s: State, ops: seq<Op>): State {
    if ops == [] then s else After(Run(s, ops[..|ops| - 1]), ops[|ops| - 1])
  }
}
