/** The loops that add up and pay out season shares. */
module ShareLoops {
  import opened Results
  import opened FixedPoint
  import opened MapSums
  import opened VerifierTypes
  import opened VerifierState
  import opened PendingShares

  /** The shares of one season so far: all tokens but those still to do. */
  predicate AddedUp(shares: map<Token, nat>, b: Bonus, stake: nat, todo: set<Token>, r: map<Token, nat>)
    requires b.staked > 0
  {
    && r.Keys == shares.Keys + (b.profit.Keys - todo)
    && forall t :: t in r ==>
         r[t] == Get(shares, t) + if t in b.profit && t !in todo then Share(stake, b.staked, b.profit[t]) else 0
  }

  lemma AddToken(shares: map<Token, nat>, b: Bonus, stake: nat, todo: set<Token>, r: map<Token, nat>, t: Token)
    requires b.staked > 0 && t in todo && t in b.profit && AddedUp(shares, b, stake, todo, r)
    ensures AddedUp(shares, b, stake, todo - {t}, r[t := Get(r, t) + Share(stake, b.staked, b.profit[t])])
  {
    hide Share;
  }

  lemma AddedAll(shares: map<Token, nat>, b: Bonus, stake: nat, r: map<Token, nat>)
    requires b.staked > 0 && AddedUp(shares, b, stake, {}, r)
    ensures r == Merge(shares, SeasonShares(b, stake))
  {
    hide Share;
    var m := Merge(shares, SeasonShares(b, stake));
    assert r.Keys == m.Keys;
    assert forall t :: t in r ==> r[t] == m[t];
  }

  /** Adds what a stake draws from one season to the shares collected so far. */
  method AddSeason(shares: map<Token, nat>, b: Bonus, stake: nat) returns (r: map<Token, nat>)
    ensures r == Merge(shares, SeasonShares(b, stake))
  {
    hide Merge, SeasonShares, Share;
    r := shares;
    if b.staked == 0 || b.profit == map[] {
      NothingToAdd(shares, b, stake);
      return;
    }
    var ratio := Proportion(stake, b.staked);
    var todo := b.profit.Keys;
    while todo != {}
      invariant todo <= b.profit.Keys && AddedUp(shares, b, stake, todo, r)
      decreases |todo|
    {
      ghost var some := AnyOf(todo);
      assert some in todo;
      var t :| t in todo;
      AddToken(shares, b, stake, todo, r, t);
      assert Share(stake, b.staked, b.profit[t]) == Scaled(ratio, b.profit[t]) by { ShareIsScaled(stake, b.staked, b.profit[t]); }
      r := r[t := Get(r, t) + Scaled(ratio, b.profit[t])];
      todo := todo - {t};
    }
    AddedAll(shares, b, stake, r);
  }

  lemma ShareIsScaled(part: nat, whole: nat, pot: nat)
    requires whole > 0
    ensures Share(part, whole, pot) == Scaled(Proportion(part, whole), pot)
  {
  }

  lemma NothingToAdd(shares: map<Token, nat>, b: Bonus, stake: nat)
    requires b.staked == 0 || b.profit == map[]
    ensures Merge(shares, SeasonShares(b, stake)) == shares
  {
    assert SeasonShares(b, stake) == map[];
    MergeNothing(shares);
  }

  /** Collects the shares of the seasons in [from, to). */
  method CollectShares(s: State, d: Account, from: nat, to: nat, stake: nat) returns (shares: map<Token, nat>)
    ensures shares == Shares(s, d, from, to, stake)
  {
    hide Merge, SeasonShares;
    shares := map[];
    var season := from;
    while season < to
      invariant from <= season && (season <= to || season == from)
      invariant shares == Shares(s, d, from, season, stake)
    {
      shares := AddSeason(shares, s.BonusOf(d, season), stake);
      season := season + 1;
    }
  }

  lemma CreditGrows(s: State, u: Account, done: map<Token, nat>, t: Token, x: nat)
    requires t !in done
    ensures Credited(s, u, done[t := x])
            == Credited(s, u, done)[(t, u) := Balance(s.BalanceOf(t, u).free + x, s.BalanceOf(t, u).reserved)]
    ensures s.(balances := Credited(s, u, done)).BalanceOf(t, u) == s.BalanceOf(t, u)
  {
    CreditedPut(s, u, done[t := x], t);
    assert done[t := x] - {t} == done;
  }

  lemma NothingDone(s: State, u: Account, shares: map<Token, nat>)
    ensures CreditFits(s, u, map[]) && Part(map[], shares)
  {
  }

  /** One more token: it fits or the whole credit does not. */
  lemma CreditStep(s: State, u: Account, shares: map<Token, nat>, done: map<Token, nat>, t: Token)
    requires t in shares && t !in done && Part(done, shares) && CreditFits(s, u, done)
    ensures var b, next := s.(balances := Credited(s, u, done)).BalanceOf(t, u), done[t := shares[t]];
            && Part(next, shares)
            && Credited(s, u, next) == Credited(s, u, done)[(t, u) := Balance(b.free + shares[t], b.reserved)]
            && (if Fits(b.free + shares[t]) then CreditFits(s, u, next) else !CreditFits(s, u, shares))
  {
    hide Credited, State.BalanceOf;
    CreditGrows(s, u, done, t, shares[t]);
    PartGrows(done, shares, t);
  }

  /** One season of the query: what all its tokens give together. */
  method TotalOfSeason(b: Bonus, stake: nat) returns (total: nat)
    ensures total == SeasonTotal(b, stake)
  {
    hide Share;
    total := 0;
    ghost var shares := SeasonShares(b, stake);
    if b.staked == 0 || b.profit == map[] {
      assert shares == map[];
      return;
    }
    var ratio := Proportion(stake, b.staked);
    var todo := b.profit.Keys;
    ghost var left := shares;
    while todo != {}
      invariant todo <= b.profit.Keys && left.Keys == todo && forall t :: t in left ==> left[t] == shares[t]
      invariant total + Weigh(left, Plain()) == Weigh(shares, Plain())
      decreases |todo|
    {
      ghost var some := AnyOf(todo);
      assert some in todo;
      var t :| t in todo;
      WeighDrop(left, Plain(), t);
      ShareIsScaled(stake, b.staked, b.profit[t]);
      total := total + Scaled(ratio, b.profit[t]);
      todo := todo - {t};
      left := left - {t};
    }
    assert left == map[];
  }

  /** The query over the seasons in [from, to), refused when the total does not fit. */
  method TotalOfSeasons(s: State, d: Account, from: nat, to: nat, stake: nat) returns (r: Result<nat, Error>)
    ensures r == if Fits(SeasonTotals(s, d, from, to, stake)) then Ok(SeasonTotals(s, d, from, to, stake)) else Err(Overflow)
  {
    hide SeasonTotal;
    var total, season := 0, from;
    while season < to
      invariant from <= season && (season <= to || season == from)
      invariant total == SeasonTotals(s, d, from, season, stake) && Fits(total)
    {
      var x := TotalOfSeason(s.BonusOf(d, season), stake);
      if !Fits(total + x) {
        TotalsGrow(s, d, from, season + 1, to, stake);
        return Err(Overflow);
      }
      total := total + x;
      season := season + 1;
    }
    return Ok(total);
  }

  lemma {:induction false} TotalsGrow(s: State, d: Account, from: nat, mid: nat, to: nat, stake: nat)
    requires mid <= to
    ensures SeasonTotals(s, d, from, mid, stake) <= SeasonTotals(s, d, from, to, stake)
    decreases (to)
  {
    hide SeasonTotal;
    if mid < to && from < to {
      TotalsGrow(s, d, from, mid, to - 1, stake);
    }
  }
}
