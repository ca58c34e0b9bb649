/** The pending-shares query against what a claim really credits. */
module PendingShares {
  import opened MapSums
  import opened VerifierTypes
  import opened VerifierState
  import opened VerifierSteps
  import opened StakeLedgers
  import opened Seasons

  function Plain<K>(): (K, nat) -> nat { (k, v) => v }

  /** All tokens of one season together, as the query adds them up. */
  ghost function SeasonTotal(b: Bonus, stake: nat): nat {
    Weigh(SeasonShares(b, stake), Plain())
  }

  ghost function SeasonTotals(s: State, d: Account, from: nat, to: nat, stake: nat): nat
    decreases (to)
  {
    if to <= from then 0
    else SeasonTotals(s, d, from, to - 1, stake) + SeasonTotal(s.BonusOf(d, to - 1), stake)
  }

  /** `pending_shares_of_dominator`: zero for an unknown dominator, one that starts at zero, and for
      a stranger. */
  ghost function Pending(c: Config, s: State, d: Account, u: Account): nat
    requires c.seasonDuration > 0
  {
    var was := s.StakingOf(d, u);
    if d !in s.dominators || s.dominators[d].startFrom == 0 || was.amount == 0 then 0
    else SeasonTotals(s, d, was.fromSeason, SeasonOf(c, s, d), was.amount)
  }

  // ---- adding up maps ----

  lemma {:induction false} MergeTotal(a: map<Token, nat>, b: map<Token, nat>)
    ensures Weigh(Merge(a, b), Plain()) == Weigh(a, Plain()) + Weigh(b, Plain())
    decreases |b|
  {
    hide Merge;
    if b == map[] {
      MergeNothing(a);
    } else {
      var t := AnyKey(b);
      var rest := b - {t};
      MergeTotal(a, rest);
      WeighDrop(b, Plain(), t);
      MergePut(a, b, t);
      WeighPut<Token, nat>(Merge(a, rest), Plain(), t, Get(a, t) + b[t]);
    }
  }

  lemma MergeNothing(a: map<Token, nat>)
    ensures Merge(a, map[]) == a
  {
    var none: map<Token, nat> := map[];
    var m := Merge(a, none);
    assert m.Keys == a.Keys;
    assert forall t :: t in a ==> m[t] == a[t];
    assert m == a;
  }

  lemma MergePut(a: map<Token, nat>, b: map<Token, nat>, t: Token)
    requires t in b
    ensures var m := Merge(a, b - {t});
            Merge(a, b) == m[t := Get(a, t) + b[t]] && Get(m, t) == Get(a, t) && (t in m <==> t in a)
  {
    var m := Merge(a, b - {t});
    assert (a.Keys + b.Keys) == (a.Keys + (b - {t}).Keys) + {t};
    forall k | k in Merge(a, b) ensures Merge(a, b)[k] == m[t := Get(a, t) + b[t]][k] {
    }
  }

  lemma {:induction false} SharesTotal(s: State, d: Account, from: nat, to: nat, stake: nat)
    ensures Weigh(Shares(s, d, from, to, stake), Plain()) == SeasonTotals(s, d, from, to, stake)
    decreases (to)
  {
    hide SeasonShares, Merge;
    if from < to {
      SharesTotal(s, d, from, to - 1, stake);
      MergeTotal(Shares(s, d, from, to - 1, stake), SeasonShares(s.BonusOf(d, to - 1), stake));
    }
  }

  // ---- what a claim credits ----

  type Balances = map<(Token, Account), Balance>

  function FreeWeight(u: Account, k: (Token, Account), b: Balance): nat {
    if k.1 == u then b.free else 0
  }

  function FreeOf(u: Account): ((Token, Account), Balance) -> nat {
    (k, b) => FreeWeight(u, k, b)
  }

  /** All free units of `u`, tokens added up as the query adds them. */
  ghost function Wealth(m: Balances, u: Account): nat {
    Weigh(m, FreeOf(u))
  }

  lemma CreditedPut(s: State, u: Account, shares: map<Token, nat>, t: Token)
    requires t in shares
    ensures var rest := Credited(s, u, shares - {t});
            && Credited(s, u, shares) == rest[(t, u) := Balance(s.BalanceOf(t, u).free + shares[t], s.BalanceOf(t, u).reserved)]
            && ((t, u) in rest ==> rest[(t, u)] == s.BalanceOf(t, u))
            && ((t, u) !in rest ==> s.BalanceOf(t, u).free == 0)
  {
  }

  lemma {:induction false} CreditedTotal(s: State, u: Account, shares: map<Token, nat>)
    ensures Wealth(Credited(s, u, shares), u) == Wealth(s.balances, u) + Weigh(shares, Plain())
    decreases |shares|
  {
    hide Credited;
    if shares == map[] {
      NothingCredited(s, u);
    } else {
      var t := AnyKey(shares);
      var rest := Credited(s, u, shares - {t});
      CreditedTotal(s, u, shares - {t});
      CreditedPut(s, u, shares, t);
      WeighDrop(shares, Plain(), t);
      WeighPut(rest, FreeOf(u), (t, u), Balance(s.BalanceOf(t, u).free + shares[t], s.BalanceOf(t, u).reserved));
    }
  }

  lemma NothingCredited(s: State, u: Account)
    ensures Credited(s, u, map[]) == s.balances
  {
    forall k | k in s.balances ensures Credited(s, u, map[])[k] == s.balances[k] {
      assert k == (k.0, k.1);
    }
  }

  lemma CreditedAt(s: State, u: Account, shares: map<Token, nat>, t: Token, v: Account)
    ensures s.(balances := Credited(s, u, shares)).BalanceOf(t, v)
            == Balance(s.BalanceOf(t, v).free + (if v == u then Get(shares, t) else 0), s.BalanceOf(t, v).reserved)
  {
  }

  /** The units of token `t` that the recorded payments give to `u`. */
  function Recorded(h: History, u: Account, t: Token): nat {
    if h.Genesis? then 0
    else Recorded(h.before, u, t)
         + if h.last.SeasonPaid? && h.last.staker == u then Get(SeasonShares(h.last.bonus, h.last.stake), t) else 0
  }

  lemma {:induction false} SharesRecorded(s: State, d: Account, u: Account, from: nat, to: nat, stake: nat, v: Account, t: Token)
    ensures Recorded(PaidHistory(s, d, u, from, to, stake), v, t)
            == Recorded(s.history, v, t) + if v == u then Get(Shares(s, d, from, to, stake), t) else 0
    decreases (to)
  {
    hide SeasonShares;
    if from < to {
      SharesRecorded(s, d, u, from, to - 1, stake, v, t);
    }
  }

  /** Taking shares credits every account, in every token, exactly what it records as paid. */
  lemma TakingCreditsWhatItRecords(s: State, d: Account, u: Account, from: nat, to: nat, stake: nat, v: Account, t: Token)
    requires TakeShares(s, d, u, from, to, stake).Ok?
    ensures var s' := TakeShares(s, d, u, from, to, stake).value;
            && s'.BalanceOf(t, v).free - s.BalanceOf(t, v).free == Recorded(s'.history, v, t) - Recorded(s.history, v, t)
            && s'.BalanceOf(t, v).reserved == s.BalanceOf(t, v).reserved
  {
    hide PaidHistory, Credited, Shares, CreditFits, Recorded;
    CreditedAt(s, u, Shares(s, d, from, to, stake), t, v);
    SharesRecorded(s, d, u, from, to, stake, v, t);
  }

  lemma ClaimTakes(c: Config, s: State, u: Account, d: Account)
    requires c.Valid() && DoClaim(c, s, u, d).Ok?
    ensures d in s.dominators && (d, u) in s.stakings
    ensures DoClaim(c, s, u, d).value.balances
            == Credited(s, u, Shares(s, d, s.stakings[(d, u)].fromSeason, SeasonOf(c, s, d), s.stakings[(d, u)].amount))
  {
    hide Credited, Shares, PaidHistory, CreditFits;
  }

  /** In every reachable state the query equals the total that a claim credits at that moment. */
  lemma PendingIsWhatAClaimCredits(c: Config, ops: seq<Op>, u: Account, d: Account)
    requires c.Valid() && DoClaim(c, Run(c, ops), u, d).Ok?
    ensures var s := Run(c, ops);
            Wealth(DoClaim(c, s, u, d).value.balances, u) == Wealth(s.balances, u) + Pending(c, s, d, u)
  {
    var s := Run(c, ops);
    SeasonClocks(c, ops, d, u);
    StakersAreReserved(c, ops, d, u);
    hide Run, DoClaim, Wealth, Shares, Credited;
    ClaimTakes(c, s, u, d);
    var was := s.stakings[(d, u)];
    var shares := Shares(s, d, was.fromSeason, SeasonOf(c, s, d), was.amount);
    CreditedTotal(s, u, shares);
    SharesTotal(s, d, was.fromSeason, SeasonOf(c, s, d), was.amount);
  }
}
