/** Era-based trading rewards: lazy, pro-rata settlement of traded volume. */
module Rewards {
  import opened Results
  import opened FixedPoint
  import opened MapSums

  type Account = int

  datatype Error = Overflow | DivideByZero | RewardNotFound

  datatype Config = Config(eraDuration: nat, terminateAt: nat)

  datatype Reward = Reward(confirmed: nat, pendingVol: nat, lastModify: nat)

  /** What trades, settlements and claims leave behind; newest last. */
  datatype Event =
    | Traded(who: Account, era: nat, vol: nat)
    | Settled(who: Account, era: nat, vol: nat, total: nat, pot: nat)
    | Claimed(who: Account, amount: nat)

  datatype History = Genesis | Then(before: History, last: Event)

  datatype State = State(now: nat, rewards: map<Account, Reward>, volumes: map<nat, nat>, eraReward: nat,
                         free: map<Account, nat>, issuance: nat, history: History) {
    function RewardOf(who: Account): Reward {
      if who in rewards then rewards[who] else Reward(0, 0, 0)
    }
  }

  type Outcome = Result<State, Error>

  /** An era is named by its first block. */
  function Era(c: Config, now: nat): nat
    requires c.eraDuration > 0
  {
    now - now % c.eraDuration
  }

  function Pot(c: Config, s: State): nat {
    if s.now > c.terminateAt then 0 else s.eraReward
  }

  /** Moves a trader's record to era `at` with `vol` more volume, settling an older era on the way. */
  function Rotate(c: Config, s: State, at: nat, vol: nat, who: Account): (r: Outcome)
    ensures r.Ok? ==> r.value == s.(rewards := r.value.rewards, history := r.value.history)
  {
    var was := s.RewardOf(who);
    if at == was.lastModify then
      if !Fits(was.pendingVol + vol) then Err(Overflow)
      else Ok(s.(rewards := s.rewards[who := was.(pendingVol := was.pendingVol + vol)]))
    else if was.pendingVol == 0 then
      Ok(s.(rewards := s.rewards[who := Reward(was.confirmed, vol, at)]))
    else
      var total, pot := Get(s.volumes, was.lastModify), Pot(c, s);
      if total == 0 then Err(DivideByZero)
      else
        var earned := Share(was.pendingVol, total, pot);
        if !Fits(was.confirmed + earned) then Err(Overflow)
        else Ok(s.(rewards := s.rewards[who := Reward(was.confirmed + earned, vol, at)],
                   history := Then(s.history, Settled(who, was.lastModify, was.pendingVol, total, pot))))
  }

  function SaveTrading(c: Config, s: State, who: Account, vol: nat): Outcome
    requires c.eraDuration > 0
  {
    var at := Era(c, s.now);
    if vol == 0 then Ok(s)
    else if !Fits(Get(s.volumes, at) + vol) then Err(Overflow)
    else
      match Rotate(c, s.(volumes := s.volumes[at := Get(s.volumes, at) + vol]), at, vol, who)
      case Err(e) => Err(e)
      case Ok(s1) => Ok(s1.(history := Then(s1.history, Traded(who, at, vol))))
  }

  /** Pays out whatever is confirmed; a record with nothing pending disappears. */
  function PayOut(s: State, who: Account): (r: Outcome)
    requires who in s.rewards
  {
    var was := s.rewards[who];
    if was.confirmed == 0 then Ok(s)
    else if !Fits(s.issuance + was.confirmed) || !Fits(Get(s.free, who) + was.confirmed) then Err(Overflow)
    else
      Ok(s.(rewards := if was.pendingVol > 0 then s.rewards[who := was.(confirmed := 0)] else s.rewards - {who},
            free := s.free[who := Get(s.free, who) + was.confirmed],
            issuance := s.issuance + was.confirmed,
            history := Then(s.history, Claimed(who, was.confirmed))))
  }

  function ClaimReward(c: Config, s: State, who: Account): Outcome
    requires c.eraDuration > 0
  {
    match Rotate(c, s, Era(c, s.now), 0, who)
    case Err(e) => Err(e)
    case Ok(s1) => PayOut(s1, who)
  }

  datatype Op =
    | Trade(who: Account, vol: nat)
    | TakeReward(who: Account)
    | SetEraRewards(amount: nat)
    | NextBlock

  function Step(c: Config, s: State, op: Op): Outcome
    requires c.eraDuration > 0
  {
    match op
    case Trade(who, vol) => SaveTrading(c, s, who, vol)
    case TakeReward(who) => ClaimReward(c, s, who)
    case SetEraRewards(amount) => Ok(s.(eraReward := amount))
    case NextBlock => Ok(s.(now := s.now + 1))
  }

  /** Storage before the first trade, with given balances. */
  function Fresh(reward: nat, free: map<Account, nat>, issuance: nat): State {
    State(0, map[], map[], reward, free, issuance, Genesis)
  }

  function After(c: Config, s: State, op: Op): State
    requires c.eraDuration > 0
  {
    var r := Step(c, s, op);
    if r.Ok? then r.value else s
  }

  function Run(c: Config, init: State, ops: seq<Op>): State
    requires c.eraDuration > 0
  {
    if ops == [] then init else After(c, Run(c, init, ops[..|ops| - 1]), ops[|ops| - 1])
  }
}
