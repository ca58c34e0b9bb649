/** Bridge transfers: native tokens are locked and released, all others are burned and minted. */
module BridgeHandler {
  import opened Results
  import opened FixedPoint
  import T = Tokens
  import B = Chainbridge

  type Account = int
  type Chain = int
  type Bytes = seq<nat>

  /** A resource id, decoded. */
  datatype Resource = Resource(chain: Chain, dex: nat, id: Bytes)

  datatype Config = Config(bridge: B.Config, account: Account, treasury: Account, donor: Account,
                           nativeResource: Resource, nativeMax: nat, donation: nat)

  datatype Error =
    | InvalidTransfer
    | InvalidResourceId
    | OverTransferLimit
    | LessThanBridgingThreshold
    | ArithmeticOverflow
    | OnlyThroughBridge
    | Ledger(ledger: T.Error)
    | Bridge(bridge: B.Error)

  /** One completed bridge transfer, in the token's own decimals. */
  datatype Movement =
    | In(token: T.Token, amount: nat)
    | Out(token: T.Token, amount: nat, chain: Chain, nonce: nat)

  datatype State = State(ledger: T.State, bridge: B.State, assets: map<(Chain, Bytes), T.Token>,
                         associated: map<nat, Account>, nativeCheck: bool, feeUsd: nat, log: seq<Movement>)

  type Outcome = Result<State, Error>

  predicate IsNative(c: Config, r: Resource) {
    r.chain == c.nativeResource.chain && r.id == c.nativeResource.id
  }

  /** The fee in USD, turned into units of a token with the given oracle price. */
  function BridgingFee(usd: nat, price: nat): nat {
    if price == 0 then 0 else FloorDiv(usd, price) * QUINTILL + Proportion(usd % price, price)
  }

  function Pay(s: State, from: Account, t: T.Token, x: nat, to: Account): (r: Outcome)
    ensures r.Ok? ==> r.value == s.(ledger := r.value.ledger)
  {
    match T.TransferToken(s.ledger, from, t, x, to)
    case Err(e) => Err(Ledger(e))
    case Ok(l) => Ok(s.(ledger := l))
  }

  /** `transfer_fungible`, which numbers and announces what leaves. */
  function Announce(s: State, t: T.Token, x: nat, dest: Chain): Outcome {
    match B.Emit(s.bridge, dest)
    case Err(e) => Err(Bridge(e))
    case Ok(b) => Ok(s.(bridge := b, log := s.log + [Out(t, x, dest, b.nonces[dest])]))
  }

  function OverLimit(c: Config, s: State, amount: nat): bool {
    s.nativeCheck && s.ledger.BalanceOf(T.NATIVE, c.account).free + amount > c.nativeMax / 3
  }

  function DoLock(c: Config, s: State, who: Account, amount: nat, dest: Chain, price: nat): Outcome {
    var fee := BridgingFee(s.feeUsd, price);
    if s.nativeCheck && !Fits(s.ledger.BalanceOf(T.NATIVE, c.account).free + amount) then Err(ArithmeticOverflow)
    else if OverLimit(c, s, amount) then Err(OverTransferLimit)
    else if !Fits(fee + fee) then Err(ArithmeticOverflow)
    else if amount <= fee + fee then Err(LessThanBridgingThreshold)
    else
      match Pay(s, who, T.NATIVE, fee, c.treasury)
      case Err(e) => Err(e)
      case Ok(s1) =>
        match Pay(s1, who, T.NATIVE, amount - fee, c.account)
        case Err(e) => Err(e)
        case Ok(s2) => Announce(s2, T.NATIVE, amount - fee, dest)
  }

  function DoBurnAssets(c: Config, s: State, who: Account, amount: nat, r: Resource, dest: Chain, price: nat): Outcome {
    if (r.chain, r.id) !in s.assets then Err(InvalidResourceId)
    else
      var t, fee := s.assets[(r.chain, r.id)], BridgingFee(s.feeUsd, price);
      if !Fits(fee + fee) then Err(ArithmeticOverflow)
      else if amount <= fee + fee then Err(LessThanBridgingThreshold)
      else
        match Pay(s, who, t, fee, c.treasury)
        case Err(e) => Err(e)
        case Ok(s1) =>
          match T.DoBurn(s1.ledger, t, who, amount - fee)
          case Err(e) => Err(Ledger(e))
          case Ok(l) => Announce(s1.(ledger := l), t, amount - fee, dest)
  }

  function TransferOut(c: Config, s: State, who: Account, amount: nat, r: Resource, dest: Chain, price: nat): Outcome {
    if dest !in s.bridge.nonces then Err(InvalidTransfer)
    else if IsNative(c, r) then DoLock(c, s, who, amount, dest, price)
    else DoBurnAssets(c, s, who, amount, r, dest, price)
  }

  function DoUnlock(c: Config, s: State, to: Account, amount: nat): Outcome {
    match Pay(s, c.account, T.NATIVE, amount, to)
    case Err(e) => Err(e)
    case Ok(s1) => Ok(s1.(log := s.log + [In(T.NATIVE, amount)]))
  }

  function DoMintAssets(s: State, to: Account, amount: nat, r: Resource): Outcome {
    if (r.chain, r.id) !in s.assets then Err(InvalidResourceId)
    else
      var t := s.assets[(r.chain, r.id)];
      match T.DoMint(s.ledger, t, to, amount)
      case Err(e) => Err(Ledger(e))
      case Ok(l) => Ok(s.(ledger := l, log := s.log + [In(t, amount)]))
  }

  /** Hands what just arrived to the dominator of the resource, if the verifier lets it: the amount is
      then reserved. A refusal is only logged. */
  function Host(s: State, to: Account, t: T.Token, amount: nat, dex: nat, accepts: bool): (r: Outcome)
    ensures r.Ok? ==> r.value == s.(ledger := r.value.ledger)
  {
    if dex !in s.associated then Ok(s)
    else if t != T.NATIVE && t !in s.ledger.tokens then Err(InvalidResourceId)
    else
      var x := if t == T.NATIVE || s.ledger.tokens[t].FND10? then amount else T.Unified(amount, s.ledger.tokens[t].decimals);
      if !Fits(x) then Err(ArithmeticOverflow)
      else
        var hosted := T.Reserve(s.ledger, t, to, x);
        if accepts && hosted.Ok? then Ok(s.(ledger := hosted.value)) else Ok(s)
  }

  /** A newcomer is given some native token; it does not matter if that fails. */
  function Donate(c: Config, s: State, to: Account, newcomer: bool): (s': State)
    ensures s' == s.(ledger := s'.ledger)
  {
    var gift := Pay(s, c.donor, T.NATIVE, c.donation, to);
    if newcomer && gift.Ok? then gift.value else s
  }

  function TransferIn(c: Config, s: State, to: Account, amount: nat, r: Resource, accepts: bool, newcomer: bool): Outcome {
    var t := if IsNative(c, r) || (r.chain, r.id) !in s.assets then T.NATIVE else s.assets[(r.chain, r.id)];
    match if IsNative(c, r) then DoUnlock(c, s, to, amount) else DoMintAssets(s, to, amount, r)
    case Err(e) => Err(e)
    case Ok(s1) =>
      match Host(s1, to, t, amount, r.dex, accepts)
      case Err(e) => Err(e)
      case Ok(s2) => Ok(Donate(c, s2, to, newcomer))
  }

  datatype Op =
    | SendOut(who: Account, amount: nat, r: Resource, dest: Chain, price: nat)
    | BringIn(to: Account, amount: nat, r: Resource, accepts: bool, newcomer: bool)
    | LedgerOp(op: T.Op)
    | BridgeOp(call: B.Op)
    | AssociateToken(chain: Chain, id: Bytes, t: T.Token)
    | AssociateDominator(dex: nat, d: Account)
    | NativeLimit(on: bool)

  predicate Ready(s: State) { B.CountOk(s.bridge) }

  function Step(c: Config, s: State, op: Op): Outcome
    requires Ready(s)
  {
    match op
    case SendOut(who, amount, r, dest, price) => TransferOut(c, s, who, amount, r, dest, price)
    case BringIn(to, amount, r, accepts, newcomer) => TransferIn(c, s, to, amount, r, accepts, newcomer)
    case LedgerOp(op) =>
      if op.Mint? || op.Burn? then Err(OnlyThroughBridge)
      else
        (match T.Step(s.ledger, op)
         case Err(e) => Err(Ledger(e))
         case Ok(l) => Ok(s.(ledger := l)))
    case BridgeOp(call) =>
      (match B.Step(c.bridge, s.bridge, call)
       case Err(e) => Err(Bridge(e))
       case Ok(b) => Ok(s.(bridge := b)))
    case AssociateToken(chain, id, t) => Ok(s.(assets := s.assets[(chain, id) := t]))
    case AssociateDominator(dex, d) => Ok(s.(associated := s.associated[dex := d]))
    case NativeLimit(on) => Ok(s.(nativeCheck := on))
  }

  /** The two-step fee formula is one floor division of usd * 10^18 by the price. */
  lemma FeeIsOneDivision(usd: nat, price: nat)
    requires price > 0
    ensures BridgingFee(usd, price) == FloorDiv(usd * QUINTILL, price)
  {
    SplitDivision(usd, price, QUINTILL);
  }
}
