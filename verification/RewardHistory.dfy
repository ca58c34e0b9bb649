/** Lazy settlement agrees with the plain per-era trade history. */
module RewardHistory {
  import opened Results
  import opened FixedPoint
  import opened MapSums
  import opened Rewards

  // ---- the reference: what the history says ----

  /** What `u` traded in era `e`. */
  function VolumeOf(h: History, u: Account, e: nat): nat {
    if h.Genesis? then 0
    else VolumeOf(h.before, u, e) + if h.last.Traded? && h.last.who == u && h.last.era == e then h.last.vol else 0
  }

  /** What everybody traded in era `e`. */
  function TotalVolume(h: History, e: nat): nat {
    if h.Genesis? then 0
    else TotalVolume(h.before, e) + if h.last.Traded? && h.last.era == e then h.last.vol else 0
  }

  datatype Settlement = Settlement(who: Account, vol: nat, total: nat, pot: nat)

  /** The settlements of era `e`, oldest first. */
  function Settlements(h: History, e: nat): seq<Settlement> {
    if h.Genesis? then []
    else if h.last.Settled? && h.last.era == e then
      Settlements(h.before, e) + [Settlement(h.last.who, h.last.vol, h.last.total, h.last.pot)]
    else Settlements(h.before, e)
  }

  function TimesSettled(ss: seq<Settlement>, u: Account): nat {
    if ss == [] then 0
    else TimesSettled(ss[..|ss| - 1], u) + if ss[|ss| - 1].who == u then 1 else 0
  }

  function VolumesOf(ss: seq<Settlement>): seq<nat> {
    seq(|ss|, i requires 0 <= i < |ss| => ss[i].vol)
  }

  /** All settlements of `u`, valued pro rata. */
  function Earned(h: History, u: Account): nat {
    if h.Genesis? then 0
    else Earned(h.before, u)
         + if h.last.Settled? && h.last.who == u && h.last.total > 0 then Share(h.last.vol, h.last.total, h.last.pot) else 0
  }

  function ClaimedBy(h: History, u: Account): nat {
    if h.Genesis? then 0
    else ClaimedBy(h.before, u) + if h.last.Claimed? && h.last.who == u then h.last.amount else 0
  }

  function ClaimedInAll(h: History): nat {
    if h.Genesis? then 0
    else ClaimedInAll(h.before) + if h.last.Claimed? then h.last.amount else 0
  }

  lemma {:induction false} PartOfTotal(h: History, u: Account, e: nat)
    ensures VolumeOf(h, u, e) <= TotalVolume(h, e)
  {
    if h.Then? {
      PartOfTotal(h.before, u, e);
    }
  }

  // ---- the invariant, for one trader and one era ----

  function OpenWeight(e: nat, u: Account, r: Reward): nat {
    if r.lastModify == e then r.pendingVol else 0
  }

  function OpenIn(e: nat): (Account, Reward) -> nat {
    (u, r) => OpenWeight(e, u, r)
  }

  /** Volume of era `e` that waits for settlement. */
  ghost function Open(rewards: map<Account, Reward>, e: nat): nat {
    Weigh(rewards, OpenIn(e))
  }

  /** Era `e`: the stored volume is the traded volume, and each unit of it is either open or settled. */
  ghost predicate EraOk(c: Config, s: State, e: nat)
    requires c.eraDuration > 0
  {
    var ss := Settlements(s.history, e);
    && Get(s.volumes, e) == TotalVolume(s.history, e) == Open(s.rewards, e) + SumOf(VolumesOf(ss))
    && (Era(c, s.now) <= e ==> ss == [])
    && (Era(c, s.now) < e ==> TotalVolume(s.history, e) == 0)
  }

  /** Trader `u` in era `e`: pending volume is the traded volume; what is traded is pending or was
      settled exactly once. */
  predicate TraderOk(c: Config, s: State, u: Account, e: nat)
    requires c.eraDuration > 0
  {
    var n := TimesSettled(Settlements(s.history, e), u);
    && (u in s.rewards ==> s.rewards[u].lastModify <= Era(c, s.now))
    && (if u in s.rewards && s.rewards[u].lastModify == e
        then s.rewards[u].pendingVol == VolumeOf(s.history, u, e) && n == 0
        else n == if VolumeOf(s.history, u, e) > 0 then 1 else 0)
  }

  /** Every settlement of era `e` used the trader's final volume and the final denominator. */
  predicate SettledExactly(h: History, e: nat) {
    var ss := Settlements(h, e);
    forall i :: 0 <= i < |ss| ==>
      ss[i].vol == VolumeOf(h, ss[i].who, e) && ss[i].total == TotalVolume(h, e) > 0
  }

  predicate MoneyOk(init: State, s: State, u: Account) {
    && s.RewardOf(u).confirmed + ClaimedBy(s.history, u) == Earned(s.history, u)
    && Get(s.free, u) == Get(init.free, u) + ClaimedBy(s.history, u)
    && s.issuance == init.issuance + ClaimedInAll(s.history)
  }

  lemma SettlementsAppend(ss: seq<Settlement>, x: Settlement, u: Account)
    ensures SumOf(VolumesOf(ss + [x])) == SumOf(VolumesOf(ss)) + x.vol
    ensures TimesSettled(ss + [x], u) == TimesSettled(ss, u) + if x.who == u then 1 else 0
  {
    assert VolumesOf(ss + [x]) == VolumesOf(ss) + [x.vol];
    assert (ss + [x])[..|ss|] == ss;
  }

  lemma PutOpen(m: map<Account, Reward>, u: Account, r: Reward, e: nat)
    ensures Open(m[u := r], e)
            == Open(m, e) - (if u in m then OpenWeight(e, u, m[u]) else 0) + OpenWeight(e, u, r)
  {
    WeighPut(m, OpenIn(e), u, r);
  }

  lemma DropOpen(m: map<Account, Reward>, u: Account, e: nat)
    requires u in m
    ensures Open(m - {u}, e) == Open(m, e) - OpenWeight(e, u, m[u])
  {
    WeighDrop(m, OpenIn(e), u);
  }

  // ---- rotation ----

  /** Whether rotating `who` to era `at` settles an older era. */
  predicate Settles(s: State, at: nat, who: Account) {
    at != s.RewardOf(who).lastModify && s.RewardOf(who).pendingVol != 0
  }

  function SettlementOf(c: Config, s: State, who: Account): Settlement {
    var was := s.RewardOf(who);
    Settlement(who, was.pendingVol, Get(s.volumes, was.lastModify), Pot(c, s))
  }

  lemma RotateEffect(c: Config, s: State, at: nat, vol: nat, who: Account, e: nat)
    requires Rotate(c, s, at, vol, who).Ok?
    ensures var s', was := Rotate(c, s, at, vol, who).value, s.RewardOf(who);
            && who in s'.rewards && s'.rewards == s.rewards[who := s'.rewards[who]]
            && s'.rewards[who].lastModify == at
            && s'.rewards[who].pendingVol == vol + (if at == was.lastModify then was.pendingVol else 0)
            && Settlements(s'.history, e)
               == Settlements(s.history, e)
                  + (if Settles(s, at, who) && e == was.lastModify then [SettlementOf(c, s, who)] else [])
            && TotalVolume(s'.history, e) == TotalVolume(s.history, e)
            && (Settles(s, at, who) ==> Get(s.volumes, was.lastModify) > 0)
  {
    hide Share;
  }

  lemma RotateVolumes(c: Config, s: State, at: nat, vol: nat, who: Account, u: Account, e: nat)
    requires Rotate(c, s, at, vol, who).Ok?
    ensures VolumeOf(Rotate(c, s, at, vol, who).value.history, u, e) == VolumeOf(s.history, u, e)
  {
    hide Share;
  }

  lemma RotateMoney(c: Config, s: State, at: nat, vol: nat, who: Account, u: Account)
    requires Rotate(c, s, at, vol, who).Ok?
    ensures var s' := Rotate(c, s, at, vol, who).value;
            && s'.RewardOf(u).confirmed - s.RewardOf(u).confirmed == Earned(s'.history, u) - Earned(s.history, u)
            && ClaimedBy(s'.history, u) == ClaimedBy(s.history, u)
            && ClaimedInAll(s'.history) == ClaimedInAll(s.history)
  {
    hide Share;
  }

  /** In good states the guard against division by zero never fires. */
  lemma DenominatorIsPositive(c: Config, s: State, who: Account)
    requires c.eraDuration > 0
    requires EraOk(c, s, s.RewardOf(who).lastModify) && TraderOk(c, s, who, s.RewardOf(who).lastModify)
    requires s.RewardOf(who).pendingVol != 0
    ensures Get(s.volumes, s.RewardOf(who).lastModify) >= s.RewardOf(who).pendingVol
  {
    hide Open, Settlements;
    PartOfTotal(s.history, who, s.RewardOf(who).lastModify);
  }

  /** Rotating to the current era with `vol` more volume keeps the books of era `e`, up to the trade
      that is still to be recorded. */
  lemma RotateBooks(c: Config, s: State, vol: nat, who: Account, e: nat)
    requires c.eraDuration > 0 && EraOk(c, s, e) && TraderOk(c, s, who, Era(c, s.now))
    requires Rotate(c, s, Era(c, s.now), vol, who).Ok?
    ensures var s', ss := Rotate(c, s, Era(c, s.now), vol, who).value, Settlements(s.history, e);
            var ss' := Settlements(s'.history, e);
            && Open(s'.rewards, e) + SumOf(VolumesOf(ss'))
               == Open(s.rewards, e) + SumOf(VolumesOf(ss)) + (if e == Era(c, s.now) then vol else 0)
            && (Era(c, s.now) <= e ==> ss' == [])
  {
    hide Rotate, Open, Settlements, VolumesOf, SumOf, TimesSettled, VolumeOf, TotalVolume;
    var at := Era(c, s.now);
    RotateEffect(c, s, at, vol, who, e);
    var ss := Settlements(s.history, e);
    assert ss + [] == ss;
    SettlementsAppend(ss, SettlementOf(c, s, who), who);
    PutOpen(s.rewards, who, Rotate(c, s, at, vol, who).value.rewards[who], e);
  }

  lemma RotateTrader(c: Config, s: State, vol: nat, who: Account, u: Account, e: nat)
    requires c.eraDuration > 0 && EraOk(c, s, e) && TraderOk(c, s, u, e)
    requires Rotate(c, s, Era(c, s.now), vol, who).Ok?
    ensures var s', at := Rotate(c, s, Era(c, s.now), vol, who).value, Era(c, s.now);
            var n := TimesSettled(Settlements(s'.history, e), u);
            && (u in s'.rewards ==> s'.rewards[u].lastModify <= at)
            && (u != who ==> TraderOk(c, s', u, e))
            && (u == who ==> u in s'.rewards && s'.rewards[u].lastModify == at)
            && (u == who && at == e ==> s'.rewards[u].pendingVol == VolumeOf(s.history, u, e) + vol && n == 0)
            && (u == who && at != e ==> n == if VolumeOf(s.history, u, e) > 0 then 1 else 0)
  {
    hide Rotate, Open, Settlements, TotalVolume, VolumeOf;
    var at := Era(c, s.now);
    RotateEffect(c, s, at, vol, who, e);
    RotateVolumes(c, s, at, vol, who, u, e);
    var ss := Settlements(s.history, e);
    assert ss + [] == ss;
    SettlementsAppend(ss, SettlementOf(c, s, who), u);
  }

  lemma RotateExact(c: Config, s: State, vol: nat, who: Account, e: nat)
    requires c.eraDuration > 0 && EraOk(c, s, e) && TraderOk(c, s, who, e) && SettledExactly(s.history, e)
    requires Rotate(c, s, Era(c, s.now), vol, who).Ok?
    ensures SettledExactly(Rotate(c, s, Era(c, s.now), vol, who).value.history, e)
  {
    hide Rotate, Open, Settlements, TotalVolume, VolumeOf;
    var at := Era(c, s.now);
    RotateEffect(c, s, at, vol, who, e);
    var s' := Rotate(c, s, at, vol, who).value;
    var ss' := Settlements(s'.history, e);
    forall i | 0 <= i < |ss'|
      ensures ss'[i].vol == VolumeOf(s'.history, ss'[i].who, e) && ss'[i].total == TotalVolume(s'.history, e) > 0
    {
      RotateVolumes(c, s, at, vol, who, ss'[i].who, e);
    }
  }

  // ---- trades ----

  function WithVolume(s: State, at: nat, vol: nat): State {
    s.(volumes := s.volumes[at := Get(s.volumes, at) + vol])
  }

  /** The volume written first is not the one a settlement reads. */
  lemma RotateCommutes(c: Config, s: State, at: nat, vol: nat, who: Account)
    ensures var r, x := Rotate(c, s, at, vol, who), Rotate(c, WithVolume(s, at, vol), at, vol, who);
            r.Ok? == x.Ok? && (r.Ok? ==> x.value == WithVolume(r.value, at, vol))
  {
    hide Share;
  }

  lemma TradeIs(c: Config, s: State, who: Account, vol: nat)
    requires c.eraDuration > 0 && vol != 0 && SaveTrading(c, s, who, vol).Ok?
    ensures var at := Era(c, s.now);
            var r := Rotate(c, s, at, vol, who);
            && r.Ok?
            && SaveTrading(c, s, who, vol).value
               == WithVolume(r.value, at, vol).(history := Then(r.value.history, Traded(who, at, vol)))
  {
    hide Rotate;
    RotateCommutes(c, s, Era(c, s.now), vol, who);
  }

  lemma TradeBooks(c: Config, s: State, who: Account, vol: nat, e: nat)
    requires c.eraDuration > 0 && SaveTrading(c, s, who, vol).Ok?
    requires EraOk(c, s, e) && TraderOk(c, s, who, Era(c, s.now))
    ensures EraOk(c, SaveTrading(c, s, who, vol).value, e)
  {
    if vol != 0 {
      TradeIs(c, s, who, vol);
      hide SaveTrading, Rotate, Open, VolumesOf, SumOf;
      RotateBooks(c, s, vol, who, e);
      RotateEffect(c, s, Era(c, s.now), vol, who, e);
    }
  }

  lemma TradeTrader(c: Config, s: State, who: Account, vol: nat, u: Account, e: nat)
    requires c.eraDuration > 0 && SaveTrading(c, s, who, vol).Ok?
    requires EraOk(c, s, e) && TraderOk(c, s, u, e)
    ensures TraderOk(c, SaveTrading(c, s, who, vol).value, u, e)
  {
    if vol != 0 {
      TradeIs(c, s, who, vol);
      hide SaveTrading, Rotate, EraOk, TimesSettled;
      RotateTrader(c, s, vol, who, u, e);
      RotateVolumes(c, s, Era(c, s.now), vol, who, u, e);
    }
  }

  lemma TradeExact(c: Config, s: State, who: Account, vol: nat, e: nat)
    requires c.eraDuration > 0 && SaveTrading(c, s, who, vol).Ok?
    requires EraOk(c, s, e) && SettledExactly(s.history, e) && TraderOk(c, s, who, e)
    ensures SettledExactly(SaveTrading(c, s, who, vol).value.history, e)
  {
    if vol != 0 {
      TradeIs(c, s, who, vol);
      hide SaveTrading, Rotate, Open, VolumesOf, SumOf, TimesSettled;
      RotateExact(c, s, vol, who, e);
      if e == Era(c, s.now) {
        RotateBooks(c, s, vol, who, e);
      }
    }
  }

  lemma TradeMoney(c: Config, init: State, s: State, who: Account, vol: nat, u: Account)
    requires c.eraDuration > 0 && SaveTrading(c, s, who, vol).Ok? && MoneyOk(init, s, u)
    ensures MoneyOk(init, SaveTrading(c, s, who, vol).value, u)
  {
    if vol != 0 {
      TradeIs(c, s, who, vol);
      hide SaveTrading, Rotate;
      RotateMoney(c, s, Era(c, s.now), vol, who, u);
    }
  }

  // ---- claims ----

  lemma PayOutBooks(c: Config, s: State, who: Account, e: nat)
    requires c.eraDuration > 0 && who in s.rewards && PayOut(s, who).Ok? && EraOk(c, s, e)
    ensures EraOk(c, PayOut(s, who).value, e)
  {
    hide Open, VolumesOf, SumOf;
    PutOpen(s.rewards, who, s.rewards[who].(confirmed := 0), e);
    DropOpen(s.rewards, who, e);
  }

  lemma PayOutTrader(c: Config, s: State, who: Account, u: Account, e: nat)
    requires c.eraDuration > 0 && who in s.rewards && PayOut(s, who).Ok? && TraderOk(c, s, u, e)
    ensures TraderOk(c, PayOut(s, who).value, u, e)
  {
    hide TimesSettled;
  }

  lemma PayOutExact(s: State, who: Account, e: nat)
    requires who in s.rewards && PayOut(s, who).Ok? && SettledExactly(s.history, e)
    ensures SettledExactly(PayOut(s, who).value.history, e)
  {
  }

  lemma PayOutMoney(init: State, s: State, who: Account, u: Account)
    requires who in s.rewards && PayOut(s, who).Ok? && MoneyOk(init, s, u)
    ensures MoneyOk(init, PayOut(s, who).value, u)
  {
  }

  lemma ClaimIs(c: Config, s: State, who: Account)
    requires c.eraDuration > 0 && ClaimReward(c, s, who).Ok?
    ensures var r := Rotate(c, s, Era(c, s.now), 0, who);
            r.Ok? && who in r.value.rewards && ClaimReward(c, s, who) == PayOut(r.value, who)
  {
    hide PayOut, Share;
  }

  lemma ClaimBooks(c: Config, s: State, who: Account, e: nat)
    requires c.eraDuration > 0 && ClaimReward(c, s, who).Ok?
    requires EraOk(c, s, e) && TraderOk(c, s, who, Era(c, s.now))
    ensures EraOk(c, ClaimReward(c, s, who).value, e)
  {
    ClaimIs(c, s, who);
    hide ClaimReward, Rotate, Open, VolumesOf, SumOf, PayOut, Settlements, TotalVolume;
    RotateBooks(c, s, 0, who, e);
    RotateEffect(c, s, Era(c, s.now), 0, who, e);
    PayOutBooks(c, Rotate(c, s, Era(c, s.now), 0, who).value, who, e);
  }

  lemma ClaimTrader(c: Config, s: State, who: Account, u: Account, e: nat)
    requires c.eraDuration > 0 && ClaimReward(c, s, who).Ok? && EraOk(c, s, e) && TraderOk(c, s, u, e)
    ensures TraderOk(c, ClaimReward(c, s, who).value, u, e)
  {
    ClaimIs(c, s, who);
    hide ClaimReward, Rotate, EraOk, TimesSettled, PayOut, Settlements, VolumeOf;
    RotateTrader(c, s, 0, who, u, e);
    RotateVolumes(c, s, Era(c, s.now), 0, who, u, e);
    PayOutTrader(c, Rotate(c, s, Era(c, s.now), 0, who).value, who, u, e);
  }

  lemma ClaimExact(c: Config, s: State, who: Account, e: nat)
    requires c.eraDuration > 0 && ClaimReward(c, s, who).Ok?
    requires EraOk(c, s, e) && SettledExactly(s.history, e) && TraderOk(c, s, who, e)
    ensures SettledExactly(ClaimReward(c, s, who).value.history, e)
  {
    ClaimIs(c, s, who);
    hide ClaimReward, Rotate, EraOk, TraderOk, PayOut, SettledExactly;
    RotateExact(c, s, 0, who, e);
    PayOutExact(Rotate(c, s, Era(c, s.now), 0, who).value, who, e);
  }

  lemma ClaimMoney(c: Config, init: State, s: State, who: Account, u: Account)
    requires c.eraDuration > 0 && ClaimReward(c, s, who).Ok? && MoneyOk(init, s, u)
    ensures MoneyOk(init, ClaimReward(c, s, who).value, u)
  {
    ClaimIs(c, s, who);
    hide ClaimReward, Rotate, PayOut;
    RotateMoney(c, s, Era(c, s.now), 0, who, u);
    PayOutMoney(init, Rotate(c, s, Era(c, s.now), 0, who).value, who, u);
  }

  // ---- every run ----

  lemma ErasAdvance(c: Config, now: nat)
    requires c.eraDuration > 0
    ensures Era(c, now) <= Era(c, now + 1)
  {
    var d := c.eraDuration;
    var q, r := now / d, now % d;
    assert now == d * q + r;
    if r + 1 < d {
      DivUnique(now + 1, d, q, r + 1);
    } else {
      assert now + 1 == d * (q + 1);
      DivUnique(now + 1, d, q + 1, 0);
    }
  }

  ghost predicate BooksOk(c: Config, s: State)
    requires c.eraDuration > 0
  {
    && (forall e :: EraOk(c, s, e))
    && (forall u, e :: TraderOk(c, s, u, e))
    && (forall e :: SettledExactly(s.history, e))
  }

  lemma TradeKeeps(c: Config, s: State, who: Account, vol: nat)
    requires c.eraDuration > 0 && BooksOk(c, s) && SaveTrading(c, s, who, vol).Ok?
    ensures BooksOk(c, SaveTrading(c, s, who, vol).value)
  {
    hide EraOk, TraderOk, SettledExactly, SaveTrading;
    var s' := SaveTrading(c, s, who, vol).value;
    forall e ensures EraOk(c, s', e) { TradeBooks(c, s, who, vol, e); }
    forall u, e ensures TraderOk(c, s', u, e) { TradeTrader(c, s, who, vol, u, e); }
    forall e ensures SettledExactly(s'.history, e) { TradeExact(c, s, who, vol, e); }
  }

  lemma ClaimKeeps(c: Config, s: State, who: Account)
    requires c.eraDuration > 0 && BooksOk(c, s) && ClaimReward(c, s, who).Ok?
    ensures BooksOk(c, ClaimReward(c, s, who).value)
  {
    hide EraOk, TraderOk, SettledExactly, ClaimReward;
    var s' := ClaimReward(c, s, who).value;
    forall e ensures EraOk(c, s', e) { ClaimBooks(c, s, who, e); }
    forall u, e ensures TraderOk(c, s', u, e) { ClaimTrader(c, s, who, u, e); }
    forall e ensures SettledExactly(s'.history, e) { ClaimExact(c, s, who, e); }
  }

  lemma QuietKeeps(c: Config, s: State, op: Op)
    requires c.eraDuration > 0 && BooksOk(c, s) && (op.SetEraRewards? || op.NextBlock?)
    ensures BooksOk(c, After(c, s, op))
  {
    hide EraOk, TraderOk, SettledExactly;
    ErasAdvance(c, s.now);
    var s' := After(c, s, op);
    forall e ensures EraOk(c, s', e) { LaterEra(c, s, s', e); }
    forall u, e ensures TraderOk(c, s', u, e) { LaterTrader(c, s, s', u, e); }
  }

  /** Time and the size of the reward do not matter to the books. */
  lemma LaterEra(c: Config, s: State, s': State, e: nat)
    requires c.eraDuration > 0 && Era(c, s.now) <= Era(c, s'.now) && EraOk(c, s, e)
    requires s'.rewards == s.rewards && s'.volumes == s.volumes && s'.history == s.history
    ensures EraOk(c, s', e)
  {
    hide Era, TotalVolume, Settlements, Open, SumOf, VolumesOf;
  }

  lemma LaterTrader(c: Config, s: State, s': State, u: Account, e: nat)
    requires c.eraDuration > 0 && Era(c, s.now) <= Era(c, s'.now) && TraderOk(c, s, u, e)
    requires s'.rewards == s.rewards && s'.history == s.history
    ensures TraderOk(c, s', u, e)
  {
    hide Era, VolumeOf, Settlements, TimesSettled;
  }

  lemma StepKeeps(c: Config, s: State, op: Op)
    requires c.eraDuration > 0 && BooksOk(c, s)
    ensures BooksOk(c, After(c, s, op))
  {
    hide BooksOk, SaveTrading, ClaimReward;
    if op.Trade? && Step(c, s, op).Ok? {
      TradeKeeps(c, s, op.who, op.vol);
    } else if op.TakeReward? && Step(c, s, op).Ok? {
      ClaimKeeps(c, s, op.who);
    } else if op.SetEraRewards? || op.NextBlock? {
      QuietKeeps(c, s, op);
    }
  }

  lemma FreshBooks(c: Config, reward: nat, free: map<Account, nat>, issuance: nat)
    requires c.eraDuration > 0
    ensures BooksOk(c, Fresh(reward, free, issuance))
  {
    var s := Fresh(reward, free, issuance);
    forall e ensures EraOk(c, s, e) { assert Weigh(s.rewards, OpenIn(e)) == 0; }
  }

  /** Era rewards refine the trade history: in every reachable state pending volume is the trader's
      volume in its era, every traded unit is pending or settled once, and settlements used final
      volumes. */
  lemma {:induction false} RunsRefineHistory(c: Config, reward: nat, free: map<Account, nat>, issuance: nat, ops: seq<Op>)
    requires c.eraDuration > 0
    ensures BooksOk(c, Run(c, Fresh(reward, free, issuance), ops))
  {
    hide After, BooksOk;
    if ops == [] {
      FreshBooks(c, reward, free, issuance);
    } else {
      RunsRefineHistory(c, reward, free, issuance, ops[..|ops| - 1]);
      StepKeeps(c, Run(c, Fresh(reward, free, issuance), ops[..|ops| - 1]), ops[|ops| - 1]);
    }
  }

  /** The DivideByZero branch is unreachable. */
  lemma NeverDividesByZero(c: Config, reward: nat, free: map<Account, nat>, issuance: nat, ops: seq<Op>, op: Op)
    requires c.eraDuration > 0
    ensures Step(c, Run(c, Fresh(reward, free, issuance), ops), op) != Err(DivideByZero)
  {
    var s := Run(c, Fresh(reward, free, issuance), ops);
    RunsRefineHistory(c, reward, free, issuance, ops);
    hide Run, EraOk, TraderOk, SettledExactly, Share;
    if op.Trade? || op.TakeReward? {
      var who := op.who;
      if s.RewardOf(who).pendingVol != 0 {
        DenominatorIsPositive(c, s, who);
      }
    }
  }

  lemma StepMoney(c: Config, init: State, s: State, op: Op, u: Account)
    requires c.eraDuration > 0 && MoneyOk(init, s, u)
    ensures MoneyOk(init, After(c, s, op), u)
  {
    hide SaveTrading, ClaimReward;
    if op.Trade? && Step(c, s, op).Ok? {
      TradeMoney(c, init, s, op.who, op.vol, u);
    } else if op.TakeReward? && Step(c, s, op).Ok? {
      ClaimMoney(c, init, s, op.who, u);
    }
  }

  /** Issuance and free balances grow by exactly what is claimed, and what is claimed or still
      confirmed is what was earned: each confirmed unit is paid once. */
  lemma {:induction false} ClaimsAreIssued(c: Config, reward: nat, free: map<Account, nat>, issuance: nat, ops: seq<Op>, u: Account)
    requires c.eraDuration > 0
    ensures MoneyOk(Fresh(reward, free, issuance), Run(c, Fresh(reward, free, issuance), ops), u)
  {
    hide After;
    if ops != [] {
      ClaimsAreIssued(c, reward, free, issuance, ops[..|ops| - 1], u);
      StepMoney(c, Fresh(reward, free, issuance), Run(c, Fresh(reward, free, issuance), ops[..|ops| - 1]), ops[|ops| - 1], u);
    }
  }

  // ---- the traders of an era share one reward ----

  /** What the settlements of an era confirm together. */
  function EraEarned(ss: seq<Settlement>): nat {
    if ss == [] then 0
    else
      var x := ss[|ss| - 1];
      EraEarned(ss[..|ss| - 1]) + if x.total > 0 then Share(x.vol, x.total, x.pot) else 0
  }

  /** The largest reward that any of the settlements was valued at. */
  function LargestPot(ss: seq<Settlement>): nat {
    if ss == [] then 0
    else
      var pot, x := LargestPot(ss[..|ss| - 1]), ss[|ss| - 1];
      if pot <= x.pot then x.pot else pot
  }

  predicate PotsWithin(ss: seq<Settlement>, pot: nat) {
    forall i :: 0 <= i < |ss| ==> ss[i].pot <= pot
  }

  lemma {:induction false} LargestIsLargest(ss: seq<Settlement>)
    ensures PotsWithin(ss, LargestPot(ss))
  {
    if ss != [] {
      LargestIsLargest(ss[..|ss| - 1]);
    }
  }

  lemma {:induction false} EraWithinShares(ss: seq<Settlement>, total: nat, pot: nat)
    requires total > 0
    requires PotsWithin(ss, pot) && forall i :: 0 <= i < |ss| ==> ss[i].total == total
    ensures EraEarned(ss) <= SharesDrawn(VolumesOf(ss), total, pot)
  {
    hide Scaled, Proportion;
    if ss != [] {
      var n := |ss| - 1;
      EraWithinShares(ss[..n], total, pot);
      ScaledGrows(Proportion(ss[n].vol, total), ss[n].pot, pot);
      assert VolumesOf(ss)[..n] == VolumesOf(ss[..n]);
    }
  }

  /** Whatever happens to the reward, the n traders settled for an era, each once, together earn at most
      the largest reward any of them was valued at and half a unit each. */
  lemma EraNeverOverpaid(c: Config, reward: nat, free: map<Account, nat>, issuance: nat, ops: seq<Op>, e: nat)
    requires c.eraDuration > 0
    ensures var ss := Settlements(Run(c, Fresh(reward, free, issuance), ops).history, e);
            && 2 * EraEarned(ss) <= 2 * LargestPot(ss) + |ss|
            && forall u :: TimesSettled(ss, u) <= 1
  {
    var s := Run(c, Fresh(reward, free, issuance), ops);
    var ss := Settlements(s.history, e);
    hide Run, Settlements, EraOk, TraderOk, SettledExactly, PotsWithin, EraEarned, LargestPot;
    RunsRefineHistory(c, reward, free, issuance, ops);
    forall u ensures TimesSettled(ss, u) <= 1 { SettledOnce(c, s, u, e); }
    LargestIsLargest(ss);
    EraBound(c, s, e, LargestPot(ss));
  }

  lemma SettledOnce(c: Config, s: State, u: Account, e: nat)
    requires c.eraDuration > 0 && TraderOk(c, s, u, e)
    ensures TimesSettled(Settlements(s.history, e), u) <= 1
  {
  }

  lemma EraBound(c: Config, s: State, e: nat, pot: nat)
    requires c.eraDuration > 0 && EraOk(c, s, e) && SettledExactly(s.history, e) && PotsWithin(Settlements(s.history, e), pot)
    ensures var ss := Settlements(s.history, e); 2 * EraEarned(ss) <= 2 * pot + |ss|
  {
    hide Settlements, Open, VolumeOf, TotalVolume, Share;
    var ss := Settlements(s.history, e);
    if ss != [] {
      var total := ss[0].total;
      EraWithinShares(ss, total, pot);
      SharesNeverOverdraw(VolumesOf(ss), total, pot);
    }
  }

  // ---- a reward that is held fixed ----

  predicate RewardHeld(op: Op) { !op.SetEraRewards? }

  predicate ValuedAt(h: History, reward: nat) {
    h.Genesis? || (ValuedAt(h.before, reward) && (h.last.Settled? ==> h.last.pot <= reward))
  }

  lemma StepValued(c: Config, s: State, op: Op)
    requires c.eraDuration > 0 && RewardHeld(op) && ValuedAt(s.history, s.eraReward)
    ensures After(c, s, op).eraReward == s.eraReward
    ensures ValuedAt(After(c, s, op).history, s.eraReward)
  {
    hide Share;
  }

  lemma {:induction false} RunValued(c: Config, reward: nat, free: map<Account, nat>, issuance: nat, ops: seq<Op>)
    requires c.eraDuration > 0 && forall i :: 0 <= i < |ops| ==> RewardHeld(ops[i])
    ensures var s := Run(c, Fresh(reward, free, issuance), ops);
            s.eraReward == reward && ValuedAt(s.history, reward)
  {
    hide After;
    if ops != [] {
      RunValued(c, reward, free, issuance, ops[..|ops| - 1]);
      StepValued(c, Run(c, Fresh(reward, free, issuance), ops[..|ops| - 1]), ops[|ops| - 1]);
    }
  }

  lemma {:induction false} LargestIsHeld(h: History, reward: nat, e: nat)
    requires ValuedAt(h, reward)
    ensures LargestPot(Settlements(h, e)) <= reward
  {
    if h.Then? {
      LargestIsHeld(h.before, reward, e);
      if h.last.Settled? && h.last.era == e {
        var ss := Settlements(h.before, e);
        assert Settlements(h, e)[..|ss|] == ss;
      }
    }
  }

  /** While nobody sets another reward, that is the reward of the era. */
  lemma EraWithinHeldReward(c: Config, reward: nat, free: map<Account, nat>, issuance: nat, ops: seq<Op>, e: nat)
    requires c.eraDuration > 0 && forall i :: 0 <= i < |ops| ==> RewardHeld(ops[i])
    ensures var ss := Settlements(Run(c, Fresh(reward, free, issuance), ops).history, e);
            2 * EraEarned(ss) <= 2 * reward + |ss|
  {
    hide Run, Settlements, EraEarned, LargestPot, ValuedAt;
    RunValued(c, reward, free, issuance, ops);
    LargestIsHeld(Run(c, Fresh(reward, free, issuance), ops).history, reward, e);
    EraNeverOverpaid(c, reward, free, issuance, ops, e);
  }

  // ---- and nobody is short-changed ----

  predicate PotsAtLeast(ss: seq<Settlement>, pot: nat) {
    forall i :: 0 <= i < |ss| ==> ss[i].pot >= pot
  }

  lemma {:induction false} EraAtLeastShares(ss: seq<Settlement>, total: nat, pot: nat)
    requires total > 0
    requires PotsAtLeast(ss, pot) && forall i :: 0 <= i < |ss| ==> ss[i].total == total
    ensures EraEarned(ss) >= SharesDrawn(VolumesOf(ss), total, pot)
  {
    hide Scaled, Proportion;
    if ss != [] {
      var n := |ss| - 1;
      EraAtLeastShares(ss[..n], total, pot);
      ScaledGrows(Proportion(ss[n].vol, total), pot, ss[n].pot);
      assert VolumesOf(ss)[..n] == VolumesOf(ss[..n]);
    }
  }

  lemma EraUsesThePot(c: Config, s: State, e: nat, pot: nat)
    requires c.eraDuration > 0 && EraOk(c, s, e) && SettledExactly(s.history, e) && Open(s.rewards, e) == 0
    requires PotsAtLeast(Settlements(s.history, e), pot) && Settlements(s.history, e) != []
    ensures var ss := Settlements(s.history, e);
            2 * (QUINTILL * pot) <= 2 * (QUINTILL * EraEarned(ss)) + |ss| * (QUINTILL + 2 * pot)
  {
    hide Settlements, Open, VolumeOf, TotalVolume, Share;
    var ss := Settlements(s.history, e);
    var total := ss[0].total;
    EraAtLeastShares(ss, total, pot);
    SharesUseThePot(VolumesOf(ss), total, pot);
    MulMono(SharesDrawn(VolumesOf(ss), total, pot), EraEarned(ss), QUINTILL);
  }

  /** As long as blocks stay within the end of the programme, settlements are valued at the reward held. */
  predicate ValuedExactly(h: History, reward: nat) {
    h.Genesis? || (ValuedExactly(h.before, reward) && (h.last.Settled? ==> h.last.pot == reward))
  }

  lemma StepValuedExactly(c: Config, s: State, op: Op)
    requires c.eraDuration > 0 && RewardHeld(op) && s.now <= c.terminateAt && ValuedExactly(s.history, s.eraReward)
    ensures After(c, s, op).eraReward == s.eraReward
    ensures ValuedExactly(After(c, s, op).history, s.eraReward)
  {
    hide Share;
  }

  lemma NowGrows(c: Config, s: State, op: Op)
    requires c.eraDuration > 0
    ensures s.now <= After(c, s, op).now
  {
    hide Share;
  }

  lemma {:induction false} RunValuedExactly(c: Config, reward: nat, free: map<Account, nat>, issuance: nat, ops: seq<Op>)
    requires c.eraDuration > 0 && forall i :: 0 <= i < |ops| ==> RewardHeld(ops[i])
    requires Run(c, Fresh(reward, free, issuance), ops).now <= c.terminateAt
    ensures var s := Run(c, Fresh(reward, free, issuance), ops);
            s.eraReward == reward && ValuedExactly(s.history, reward)
  {
    hide After;
    if ops != [] {
      var s := Run(c, Fresh(reward, free, issuance), ops[..|ops| - 1]);
      NowGrows(c, s, ops[|ops| - 1]);
      RunValuedExactly(c, reward, free, issuance, ops[..|ops| - 1]);
      StepValuedExactly(c, s, ops[|ops| - 1]);
    }
  }

  lemma {:induction false} PotsAreHeld(h: History, reward: nat, e: nat)
    requires ValuedExactly(h, reward)
    ensures PotsAtLeast(Settlements(h, e), reward)
  {
    if h.Then? {
      PotsAreHeld(h.before, reward, e);
      var ss, ss' := Settlements(h.before, e), Settlements(h, e);
      assert forall i :: 0 <= i < |ss'| ==> ss'[i].pot == if i < |ss| then ss[i].pot else h.last.pot;
    }
  }

  /** While the reward is held and the programme runs, the n traders of an era whose volume is settled in
      full together earn at least the reward, less half a unit and reward / 10^18 each. */
  lemma SettledEraIsPaidOut(c: Config, reward: nat, free: map<Account, nat>, issuance: nat, ops: seq<Op>, e: nat)
    requires c.eraDuration > 0 && forall i :: 0 <= i < |ops| ==> RewardHeld(ops[i])
    requires Run(c, Fresh(reward, free, issuance), ops).now <= c.terminateAt
    requires TotalVolume(Run(c, Fresh(reward, free, issuance), ops).history, e) > 0
    requires Open(Run(c, Fresh(reward, free, issuance), ops).rewards, e) == 0
    ensures var ss := Settlements(Run(c, Fresh(reward, free, issuance), ops).history, e);
            2 * (QUINTILL * reward) <= 2 * (QUINTILL * EraEarned(ss)) + |ss| * (QUINTILL + 2 * reward)
  {
    var s := Run(c, Fresh(reward, free, issuance), ops);
    hide Run, Settlements, Open, TotalVolume, SettledExactly, TraderOk, PotsAtLeast, EraEarned, ValuedExactly;
    RunsRefineHistory(c, reward, free, issuance, ops);
    RunValuedExactly(c, reward, free, issuance, ops);
    PotsAreHeld(s.history, reward, e);
    assert EraOk(c, s, e) && SettledExactly(s.history, e);
    assert Settlements(s.history, e) != [] by { NothingSettled(); }
    EraUsesThePot(c, s, e, reward);
  }

  lemma NothingSettled()
    ensures SumOf(VolumesOf([])) == 0
  {
  }

  /** One settlement: within the programme the trader's part of the reward, up to rounding; after its end,
      nothing. */
  lemma SettlementConfirms(c: Config, s: State, at: nat, vol: nat, who: Account)
    requires Settles(s, at, who) && Rotate(c, s, at, vol, who).Ok?
    requires s.RewardOf(who).pendingVol <= Get(s.volumes, s.RewardOf(who).lastModify)
    ensures var s', was := Rotate(c, s, at, vol, who).value, s.RewardOf(who);
            var part, whole := was.pendingVol, Get(s.volumes, was.lastModify);
            var earned := s'.RewardOf(who).confirmed - was.confirmed;
            && earned >= 0
            && (s.now > c.terminateAt ==> earned == 0)
            && (s.now <= c.terminateAt ==>
                  && 2 * (whole * earned) <= 2 * (part * s.eraReward) + whole
                  && 2 * (QUINTILL * (part * s.eraReward))
                     <= 2 * (QUINTILL * (whole * earned)) + whole * (QUINTILL + 2 * s.eraReward))
  {
    var was := s.RewardOf(who);
    var part, whole := was.pendingVol, Get(s.volumes, was.lastModify);
    assert whole > 0;
    ShareBound(part, whole, s.eraReward);
    ShareAtLeast(part, whole, s.eraReward);
    EmptyPot(part, whole);
    hide Share;
    assert s.now <= c.terminateAt ==> Pot(c, s) == s.eraReward;
  }

  lemma EmptyPot(part: nat, whole: nat)
    requires whole > 0
    ensures Share(part, whole, 0) == 0
  {
  }

  /** A claim leaves nothing confirmed: everything the trader has earned is paid. */
  lemma ClaimPaysEverything(c: Config, init: State, s: State, who: Account)
    requires c.eraDuration > 0 && ClaimReward(c, s, who).Ok? && MoneyOk(init, s, who)
    ensures var s' := ClaimReward(c, s, who).value;
            && s'.RewardOf(who).confirmed == 0
            && ClaimedBy(s'.history, who) == Earned(s'.history, who)
            && Get(s'.free, who) - Get(s.free, who) == Earned(s'.history, who) - ClaimedBy(s.history, who)
  {
    ClaimIs(c, s, who);
    ClaimMoney(c, init, s, who, who);
    hide ClaimReward, Rotate;
    assert PayOut(Rotate(c, s, Era(c, s.now), 0, who).value, who).value.RewardOf(who).confirmed == 0;
  }

  /** Eras are the stretches of `eraDuration` blocks that start at its multiples. */
  lemma ErasPartitionTime(c: Config, now: nat, then': nat)
    requires c.eraDuration > 0
    ensures Era(c, now) <= now < Era(c, now) + c.eraDuration && Era(c, now) % c.eraDuration == 0
    ensures Era(c, now) == Era(c, then') <==> now / c.eraDuration == then' / c.eraDuration
  {
    var d := c.eraDuration;
    assert now == d * (now / d) + now % d && then' == d * (then' / d) + then' % d;
    DivUnique(d * (now / d), d, now / d, 0);
    DivUnique(d * (then' / d), d, then' / d, 0);
  }

  /** A new reward and a new block change just that. */
  lemma AdministrationChanges(c: Config, s: State, amount: nat)
    requires c.eraDuration > 0
    ensures Step(c, s, SetEraRewards(amount)) == Ok(s.(eraReward := amount))
    ensures Step(c, s, NextBlock) == Ok(s.(now := s.now + 1))
  {
  }

  /** A trade is accepted whenever the volumes and the trader's confirmed reward fit, and joins the volume of the
      era under way. */
  lemma TradeAcceptedIff(c: Config, s: State, who: Account, vol: nat)
    requires c.eraDuration > 0 && vol > 0
    requires s.RewardOf(who).pendingVol <= Get(s.volumes, s.RewardOf(who).lastModify)
    ensures var at, was := Era(c, s.now), s.RewardOf(who);
            SaveTrading(c, s, who, vol).Ok? <==>
              && Get(s.volumes, at) + vol <= U128_MAX
              && (at == was.lastModify ==> was.pendingVol + vol <= U128_MAX)
              && (Settles(s, at, who) ==>
                    was.confirmed + Share(was.pendingVol, Get(s.volumes, was.lastModify), Pot(c, s)) <= U128_MAX)
    ensures SaveTrading(c, s, who, vol).Ok? ==>
              var s' := SaveTrading(c, s, who, vol).value;
              && s'.volumes == s.volumes[Era(c, s.now) := Get(s.volumes, Era(c, s.now)) + vol]
              && s'.RewardOf(who).lastModify == Era(c, s.now) && s'.RewardOf(who).pendingVol >= vol
  {
    hide Share;
  }
}
