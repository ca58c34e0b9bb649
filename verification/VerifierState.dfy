/** Storage of the verifier pallet as one value, with the ledger primitives every call is built from. */
module VerifierState {
  import opened Results
  import opened FixedPoint
  import opened MapSums
  import opened VerifierTypes

  const UNSTAKE_DELAY: nat := 57600

  datatype Config = Config(grace: nat, seasonDuration: nat, onlineThreshold: nat, minStake: nat,
                           maxMakerFee: nat, maxTakerFee: nat, native: Token, system: Account) {
    predicate Valid() {
      && grace > 0 && UNSTAKE_DELAY % grace == 0
      && seasonDuration > 0 && seasonDuration % grace == 0
      && onlineThreshold > 0 && minStake > 0
      && maxMakerFee <= MILLION / 2 && maxTakerFee <= MILLION / 2
    }
  }

  datatype Status = Registered | Inactive | Active | Evicted

  /** `sequence` is the last event and the block it was verified in. */
  datatype Dominator = Dominator(staked: nat, tree: Tree, startFrom: nat, sequence: (nat, nat), status: Status)

  datatype Receipt =
    | Authorize(token: Token, amount: nat, at: nat)
    | Revoke(token: Token, amount: nat, at: nat, callback: Option<nat>)

  datatype Staking = Staking(fromSeason: nat, amount: nat)

  datatype Bonus = Bonus(staked: nat, profit: map<Token, nat>)

  datatype Balance = Balance(free: nat, reserved: nat)

  /** What calls leave behind for an observer; newest last. */
  datatype Event =
    | ReceiptOpened(dominator: Account, who: Account, receipt: Receipt)
    | ReceiptConsumed(dominator: Account, who: Account, receipt: Receipt)
    | ReceiptDropped(dominator: Account, who: Account, receipt: Receipt)
    | TaoUnstaked(staker: Account, amount: nat, unlockAt: nat, at: nat)
    | TaoUnlocked(staker: Account, amount: nat, at: nat)
    | SeasonPaid(dominator: Account, season: nat, staker: Account, stake: nat, bonus: Bonus)

  datatype History = Genesis | Then(before: History, last: Event)

  datatype State = State(
    now: nat,
    dominators: map<Account, Dominator>,
    receipts: map<(Account, Account), Receipt>,
    reserves: Reserves,
    stakings: map<(Account, Account), Staking>,
    bonuses: map<(Account, nat), Bonus>,
    pending: map<(nat, Account), nat>,
    balances: map<(Token, Account), Balance>,
    history: History)
  {
    function BalanceOf(t: Token, u: Account): Balance {
      if (t, u) in balances then balances[(t, u)] else Balance(0, 0)
    }

    function BonusOf(d: Account, season: nat): Bonus {
      if (d, season) in bonuses then bonuses[(d, season)] else Bonus(0, map[])
    }

    function StakingOf(d: Account, u: Account): Staking {
      if (d, u) in stakings then stakings[(d, u)] else Staking(0, 0)
    }

    function TreeOf(d: Account): Tree {
      if d in dominators then dominators[d].tree else map[]
    }

    function SetBalance(t: Token, u: Account, free: nat, reserved: nat): State {
      this.(balances := balances[(t, u) := Balance(free, reserved)])
    }

    function SetReserve(k: ReserveKey, v: nat): State {
      this.(reserves := reserves[k := v])
    }

    function DropReserve(k: ReserveKey): State {
      this.(reserves := reserves - {k})
    }

    function SetDominator(d: Account, v: Dominator): State {
      this.(dominators := dominators[d := v])
    }

    function Log(e: Event): State {
      this.(history := Then(history, e))
    }
  }

  const INITIAL: State := State(0, map[], map[], map[], map[], map[], map[], map[], Genesis)

  type Outcome = Result<State, Error>

  // ---- the asset behind the pallet: a plain free/reserved ledger ----

  function AssetReserve(s: State, t: Token, u: Account, x: nat): (r: Outcome)
    ensures r.Ok? ==> r.value == s.(balances := r.value.balances)
  {
    var b := s.BalanceOf(t, u);
    if x == 0 then Ok(s)
    else if b.free < x then Err(InsufficientBalance)
    else if !Fits(b.reserved + x) then Err(Overflow)
    else Ok(s.SetBalance(t, u, b.free - x, b.reserved + x))
  }

  function AssetUnreserve(c: Config, s: State, t: Token, u: Account, x: nat): (r: Outcome)
    ensures r.Ok? ==> r.value == s.(balances := r.value.balances)
  {
    var b := s.BalanceOf(t, u);
    if x == 0 then Ok(s)
    else if b.reserved < x then Err(InsufficientBalance)
    else if t != c.native && !Fits(b.free + x) then Err(Overflow)
    else Ok(s.SetBalance(t, u, b.free + x, b.reserved - x))
  }

  // ---- the pallet's own reserve entries ----

  /** Sets `x` aside for `holder` under `id`. */
  function Reserve(s: State, id: ReserveId, u: Account, t: Token, x: nat, holder: Account): (r: Outcome)
    ensures r.Ok? ==> r.value == s.(reserves := r.value.reserves, balances := r.value.balances)
  {
    var k := ReserveKey(id, u, t, holder);
    if x == 0 then Ok(s)
    else
      match AssetReserve(s, t, u, x)
      case Err(e) => Err(e)
      case Ok(s1) =>
        if !Fits(Get(s.reserves, k) + x) then Err(Overflow)
        else Ok(s1.SetReserve(k, Get(s.reserves, k) + x))
  }

  /** Frees `x` of what `holder` keeps under `id`; an entry that reaches zero disappears. */
  function Unreserve(c: Config, s: State, id: ReserveId, u: Account, t: Token, x: nat, holder: Account): (r: Outcome)
    ensures r.Ok? ==> r.value == s.(reserves := r.value.reserves, balances := r.value.balances)
  {
    var k := ReserveKey(id, u, t, holder);
    if x == 0 then Ok(s)
    else
      match AssetUnreserve(c, s, t, u, x)
      case Err(e) => Err(e)
      case Ok(s1) =>
        if k !in s.reserves || s.reserves[k] < x then Err(InsufficientBalance)
        else if s.reserves[k] == x then Ok(s1.DropReserve(k))
        else Ok(s1.SetReserve(k, s.reserves[k] - x))
  }

  /** Replaces what `d` holds of `u`'s token by the balance the tree now shows. */
  function Clear(s: State, u: Account, d: Account, t: Token, balance: nat): (r: Outcome)
    ensures r.Ok? ==> r.value == s.(reserves := r.value.reserves, balances := r.value.balances)
  {
    var k, b := AuthorizedKey(u, t, d), s.BalanceOf(t, u);
    var held := Get(s.reserves, k);
    var rest := if held <= b.reserved then b.reserved - held else 0;
    if !Fits(rest + balance) then Err(Overflow)
    else Ok(s.SetBalance(t, u, b.free, rest + balance).SetReserve(k, balance))
  }

  // ---- seasons and profit ----

  function CurrentSeason(c: Config, now: nat, start: nat): nat
    requires c.seasonDuration > 0
  {
    if now <= start then 0 else (now - start) / c.seasonDuration
  }

  function PutProfit(s: State, d: Account, season: nat, t: Token, x: nat): (r: Outcome)
    ensures r.Ok? ==> r.value == s.(bonuses := r.value.bonuses)
  {
    var b := s.BonusOf(d, season);
    if x == 0 then Ok(s)
    else if !Fits(Get(b.profit, t) + x) then Err(Overflow)
    else Ok(s.(bonuses := s.bonuses[(d, season) := b.(profit := b.profit[t := Get(b.profit, t) + x])]))
  }

  /** What a stake draws from one season, token by token. */
  function SeasonShares(b: Bonus, stake: nat): map<Token, nat> {
    if b.staked == 0 then map[] else map t | t in b.profit :: Share(stake, b.staked, b.profit[t])
  }

  function Merge(a: map<Token, nat>, b: map<Token, nat>): map<Token, nat> {
    map t | t in a.Keys + b.Keys :: Get(a, t) + Get(b, t)
  }

  /** What a stake draws from the seasons in [from, to). */
  function Shares(s: State, d: Account, from: nat, to: nat, stake: nat): map<Token, nat>
    decreases (to)
  {
    if to <= from then map[]
    else Merge(Shares(s, d, from, to - 1, stake), SeasonShares(s.BonusOf(d, to - 1), stake))
  }

  function Credited(s: State, u: Account, shares: map<Token, nat>): map<(Token, Account), Balance> {
    map k | k in s.balances.Keys + (set t | t in shares :: (t, u)) ::
      var b := s.BalanceOf(k.0, k.1);
      if k.1 == u then Balance(b.free + Get(shares, k.0), b.reserved) else b
  }

  function PaidHistory(s: State, d: Account, u: Account, from: nat, to: nat, stake: nat): History
    decreases (to)
  {
    if to <= from then s.history
    else Then(PaidHistory(s, d, u, from, to - 1, stake), SeasonPaid(d, to - 1, u, stake, s.BonusOf(d, to - 1)))
  }

  predicate CreditFits(s: State, u: Account, shares: map<Token, nat>) {
    forall t :: t in shares ==> Fits(s.BalanceOf(t, u).free + shares[t])
  }

  /** Pays `u` for the finished seasons in [from, to) at the given stake. */
  function TakeShares(s: State, d: Account, u: Account, from: nat, to: nat, stake: nat): (r: Outcome)
    ensures r.Ok? ==> r.value == s.(balances := r.value.balances, history := r.value.history)
  {
    var shares := Shares(s, d, from, to, stake);
    if !CreditFits(s, u, shares) then Err(Overflow)
    else Ok(s.(balances := Credited(s, u, shares), history := PaidHistory(s, d, u, from, to, stake)))
  }
}
