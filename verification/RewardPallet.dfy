/** The reward pallet's storage and its calls in place, and what holds of every object they reach. */
module RewardPallet {
  import opened Results
  import opened FixedPoint
  import opened MapSums
  import opened Rewards
  import opened RewardHistory

  /** The pallet's storage, updated in place; failed calls are rolled back. */
  class Payouts {
    const config: Config
    var now: nat
    var rewards: map<Account, Reward>
    var volumes: map<nat, nat>
    var eraReward: nat
    var free: map<Account, nat>
    var issuance: nat
    ghost var history: History
    ghost const start: State
    ghost var trace: seq<Op>

    ghost function Model(): State
      reads this
    {
      State(now, rewards, volumes, eraReward, free, issuance, history)
    }

    constructor (c: Config, reward: nat, balances: map<Account, nat>, supply: nat)
      requires c.eraDuration > 0
      ensures config == c && trace == [] && start == Fresh(reward, balances, supply) && Valid()
    {
      config := c;
      now, rewards, volumes, eraReward, free, issuance, history := 0, map[], map[], reward, balances, supply, Genesis;
      start, trace := Fresh(reward, balances, supply), [];
    }

    method RotateReward(at: nat, vol: nat, who: Account) returns (r: Result<nat, Error>)
      modifies this`rewards, this`history
      ensures match Rotate(config, old(Model()), at, vol, who)
              case Ok(s) => Model() == s && who in s.rewards && r == Ok(s.rewards[who].confirmed)
              case Err(e) => Model() == old(Model()) && r == Err(e)
    {
      var record := if who in rewards then rewards[who] else Reward(0, 0, 0);
      if at == record.lastModify {
        if !Fits(record.pendingVol + vol) { return Err(Overflow); }
        record := record.(pendingVol := record.pendingVol + vol);
      } else {
        if record.pendingVol != 0 {
          var total := Get(volumes, record.lastModify);
          if total == 0 { return Err(DivideByZero); }
          var pot := eraReward;
          if now > config.terminateAt { pot := 0; }
          var earned := Scaled(Proportion(record.pendingVol, total), pot);
          if !Fits(record.confirmed + earned) { return Err(Overflow); }
          history := Then(history, Settled(who, record.lastModify, record.pendingVol, total, pot));
          record := record.(confirmed := record.confirmed + earned);
        }
        record := record.(pendingVol := vol, lastModify := at);
      }
      rewards := rewards[who := record];
      return Ok(record.confirmed);
    }

    method Save(who: Account, vol: nat) returns (r: Result<(), Error>)
      requires config.eraDuration > 0
      modifies this`rewards, this`volumes, this`history
      ensures match SaveTrading(config, old(Model()), who, vol)
              case Ok(s) => Model() == s && r == Ok(())
              case Err(e) => Model() == old(Model()) && r == Err(e)
    {
      hide Rotate;
      if vol == 0 { return Ok(()); }
      var at := now - now % config.eraDuration;
      if !Fits(Get(volumes, at) + vol) { return Err(Overflow); }
      var before := volumes;
      volumes := volumes[at := Get(volumes, at) + vol];
      var confirmed := RotateReward(at, vol, who);
      if confirmed.Err? {
        volumes := before;
        return Err(confirmed.error);
      }
      history := Then(history, Traded(who, at, vol));
      return Ok(());
    }

    /** Returns what was paid out. */
    method Claim(who: Account) returns (r: Result<nat, Error>)
      requires config.eraDuration > 0
      modifies this`rewards, this`free, this`issuance, this`history
      ensures match ClaimReward(config, old(Model()), who)
              case Ok(s) => Model() == s && r == Ok(issuance - old(issuance))
              case Err(e) => Model() == old(Model()) && r == Err(e)
    {
      hide Rotate, PayOut;
      var before := rewards;
      ghost var past := history;
      r := RotateReward(now - now % config.eraDuration, 0, who);
      if r.Err? { return; }
      r := PayConfirmed(who);
      if r.Err? { rewards, history := before, past; }
    }

    method PayConfirmed(who: Account) returns (r: Result<nat, Error>)
      requires who in rewards
      modifies this`rewards, this`free, this`issuance, this`history
      ensures match PayOut(old(Model()), who)
              case Ok(s) => Model() == s && r == Ok(issuance - old(issuance))
              case Err(e) => Model() == old(Model()) && r == Err(e)
    {
      var record := rewards[who];
      if record.confirmed == 0 { return Ok(0); }
      if !Fits(issuance + record.confirmed) || !Fits(Get(free, who) + record.confirmed) { return Err(Overflow); }
      if record.pendingVol > 0 {
        rewards := rewards[who := record.(confirmed := 0)];
      } else {
        rewards := rewards - {who};
      }
      issuance := issuance + record.confirmed;
      free := free[who := Get(free, who) + record.confirmed];
      history := Then(history, Claimed(who, record.confirmed));
      return Ok(record.confirmed);
    }

    /** Any call on the pallet, or the next block. */
    method Handle(op: Op) returns (r: Result<(), Error>)
      requires config.eraDuration > 0
      modifies this`now, this`rewards, this`volumes, this`eraReward, this`free, this`issuance, this`history
      ensures Reflects(Step(config, old(Model()), op), old(Model()), r, Model())
    {
      hide SaveTrading, ClaimReward;
      match op {
        case Trade(who, vol) => r := Save(who, vol);
        case TakeReward(who) =>
          var paid := Claim(who);
          r := if paid.Ok? then Ok(()) else Err(paid.error);
        case SetEraRewards(amount) => eraReward := amount; r := Ok(());
        case NextBlock => now := now + 1; r := Ok(());
      }
    }

    /** The object stands where the calls made on it lead from its first state. */
    ghost predicate Valid()
      reads this
    {
      && config.eraDuration > 0
      && start == Fresh(start.eraReward, start.free, start.issuance)
      && Model() == Run(config, start, trace)
    }

    /** A recorded call: whatever was called before, the books agree with the trade history, nobody
        meets a division by zero, and money is issued exactly as claimed. */
    method Dispatch(op: Op) returns (r: Result<(), Error>)
      requires Valid()
      modifies this
      ensures Valid() && trace == old(trace) + [op]
      ensures Reflects(Step(config, old(Model()), op), old(Model()), r, Model())
      ensures r != Err(DivideByZero)
      ensures BooksOk(config, Model()) && forall u :: MoneyOk(start, Model(), u)
    {
      hide Step, BooksOk, MoneyOk, Fresh;
      ghost var before := trace;
      NeverDividesByZero(config, start.eraReward, start.free, start.issuance, before, op);
      r := Handle(op);
      assert (before + [op])[..|before|] == before;
      trace := before + [op];
      RunsRefineHistory(config, start.eraReward, start.free, start.issuance, trace);
      forall u ensures MoneyOk(start, Model(), u) { ClaimsAreIssued(config, start.eraReward, start.free, start.issuance, trace, u); }
    }
  }
}
