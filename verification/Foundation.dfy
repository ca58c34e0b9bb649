/** Vesting of pre-locked funds: a first amount after a delay, then equal amounts at intervals. */
module Foundation {
  import opened Results
  import opened FixedPoint
  import opened MapSums

  type Account = int

  datatype Fund = Fund(delay: nat, interval: nat, times: nat, amount: nat, first: nat) {
    predicate Valid() { delay >= 1 && interval >= 1 && times >= 1 }

    function Locked(): nat { first + times * amount }
  }

  datatype Balance = Balance(free: nat, reserved: nat)

  datatype State = State(funds: map<Account, Fund>, balances: map<Account, Balance>) {
    function BalanceOf(u: Account): Balance {
      if u in balances then balances[u] else Balance(0, 0)
    }

    predicate Valid() { forall u :: u in funds ==> funds[u].Valid() }
  }

  /** `Currency::unreserve` frees what there is, up to `x`. */
  function Unreserve(b: Balance, x: nat): Balance {
    var y := Min(x, b.reserved);
    Balance(b.free + y, b.reserved - y)
  }

  /** A fund, as long as it lasts, and the balance it is paid into. */
  datatype Vested = Vested(fund: Option<Fund>, balance: Balance)

  /** Tick `k` for one account. */
  function Unlock(f: Fund, b: Balance, k: nat): Vested
    requires f.Valid()
  {
    if k > f.delay && (k - f.delay) % f.interval == 0 then
      Vested(if f.times == 1 then None else Some(f.(times := f.times - 1)), Unreserve(b, f.amount))
    else if k == f.delay then Vested(Some(f), Unreserve(b, f.first))
    else Vested(Some(f), b)
  }

  function UnlockAt(s: State, k: nat, u: Account): Vested
    requires s.Valid() && u in s.funds
  {
    Unlock(s.funds[u], s.BalanceOf(u), k)
  }

  /** Tick `k` for every account. */
  function UnlockAll(s: State, k: nat): State
    requires s.Valid()
  {
    State(map u | u in s.funds && UnlockAt(s, k, u).fund.Some? :: UnlockAt(s, k, u).fund.value,
          map u | u in s.balances.Keys + s.funds.Keys ::
            if u in s.funds then UnlockAt(s, k, u).balance else s.balances[u])
  }

  lemma UnlockKeepsValid(s: State, k: nat)
    requires s.Valid()
    ensures UnlockAll(s, k).Valid()
  {
  }

  /** Each block whose number is a multiple of the duration is a tick. */
  function Block(duration: nat, s: State, now: nat): (s': State)
    requires duration > 0 && s.Valid()
    ensures s'.Valid()
  {
    UnlockKeepsValid(s, now / duration);
    if now % duration != 0 then s else UnlockAll(s, now / duration)
  }

  /** Storage after block `n`; the hook first runs in block 1. */
  function AfterBlocks(duration: nat, s: State, n: nat): (s': State)
    requires duration > 0 && s.Valid()
    ensures s'.Valid()
  {
    if n == 0 then s else Block(duration, AfterBlocks(duration, s, n - 1), n)
  }

  // ---- the closed form ----

  /** Instalments paid by tick `k`. */
  function Paid(f: Fund, k: nat): nat
    requires f.Valid()
  {
    if k < f.delay then 0 else Min(f.times, FloorDiv(k - f.delay, f.interval))
  }

  function Released(f: Fund, k: nat): nat
    requires f.Valid()
  {
    if k < f.delay then 0 else f.first + Paid(f, k) * f.amount
  }

  /** Account `u` at tick `k` of the schedule `f` that started from balance `b`. */
  predicate OnSchedule(s: State, u: Account, f: Fund, b: Balance, k: nat)
    requires f.Valid()
  {
    var out := Released(f, k);
    && out <= f.Locked() <= b.reserved
    && s.BalanceOf(u) == Balance(b.free + out, b.reserved - out)
    && (if Paid(f, k) < f.times then u in s.funds && s.funds[u] == f.(times := f.times - Paid(f, k)) else u !in s.funds)
  }

  lemma Instalment(x: nat, d: nat)
    requires d > 0
    ensures FloorDiv(x + 1, d) == FloorDiv(x, d) + if (x + 1) % d == 0 then 1 else 0
  {
    var q, r := x / d, x % d;
    assert x == d * q + r;
    if r + 1 < d {
      DivUnique(x + 1, d, q, r + 1);
    } else {
      assert x + 1 == d * (q + 1);
      DivUnique(x + 1, d, q + 1, 0);
    }
  }

  lemma PaidStep(f: Fund, k: nat)
    requires f.Valid()
    ensures Paid(f, k + 1)
            == Paid(f, k) + if k + 1 > f.delay && (k + 1 - f.delay) % f.interval == 0 && Paid(f, k) < f.times then 1 else 0
    ensures k + 1 <= f.delay ==> Paid(f, k + 1) == 0
  {
    if k >= f.delay {
      Instalment(k - f.delay, f.interval);
    } else if k + 1 == f.delay {
      DivUnique(0, f.interval, 0, 0);
    }
  }

  lemma ReleasedBound(f: Fund, k: nat)
    requires f.Valid()
    ensures Released(f, k) <= f.Locked()
  {
    MulMono(Paid(f, k), f.times, f.amount);
  }

  /** One tick takes a fund from its state at tick `k` to its state at tick `k + 1`. */
  lemma TickFund(f: Fund, b: Balance, k: nat)
    requires f.Valid() && f.Locked() <= b.reserved && Paid(f, k) < f.times
    requires Released(f, k) <= f.Locked() && Released(f, k + 1) <= f.Locked()
    ensures var now, then' := Released(f, k), Released(f, k + 1);
            Unlock(f.(times := f.times - Paid(f, k)), Balance(b.free + now, b.reserved - now), k + 1)
            == Vested(if Paid(f, k + 1) < f.times then Some(f.(times := f.times - Paid(f, k + 1))) else None,
                      Balance(b.free + then', b.reserved - then'))
  {
    PaidStep(f, k);
    hide Paid;
    Distribute(Paid(f, k), 1, f.amount);
  }

  /** Once paid in full, nothing more is released. */
  lemma StaysPaid(f: Fund, k: nat)
    requires f.Valid() && Paid(f, k) == f.times
    ensures Paid(f, k + 1) == f.times && Released(f, k + 1) == Released(f, k)
  {
    PaidStep(f, k);
  }

  lemma TickOnSchedule(s: State, u: Account, f: Fund, b: Balance, k: nat)
    requires s.Valid() && f.Valid() && OnSchedule(s, u, f, b, k)
    ensures OnSchedule(UnlockAll(s, k + 1), u, f, b, k + 1)
  {
    hide Paid, Released, Unlock;
    ReleasedBound(f, k);
    ReleasedBound(f, k + 1);
    PaidBound(f, k);
    PaidBound(f, k + 1);
    if Paid(f, k) < f.times {
      TickFund(f, b, k);
    } else {
      StaysPaid(f, k);
    }
  }

  lemma PaidBound(f: Fund, k: nat)
    requires f.Valid()
    ensures Paid(f, k) <= f.times
  {
  }

  /** Vesting closed form: after block `n`, at tick k = n / duration, what was released is 0 before the
      delay and first + min(times, (k - delay) / interval) * amount from then on; the rest is still
      reserved, and the record is gone exactly when all instalments are paid. */
  lemma {:induction false} VestingClosedForm(duration: nat, s: State, u: Account, n: nat)
    requires duration > 0 && s.Valid() && u in s.funds && s.funds[u].Locked() <= s.BalanceOf(u).reserved
    ensures OnSchedule(AfterBlocks(duration, s, n), u, s.funds[u], s.BalanceOf(u), FloorDiv(n, duration))
  {
    hide OnSchedule, UnlockAll;
    var f, b := s.funds[u], s.BalanceOf(u);
    if n == 0 {
      DivUnique(0, duration, 0, 0);
      StartsOnSchedule(s, u);
    } else {
      VestingClosedForm(duration, s, u, n - 1);
      Instalment(n - 1, duration);
      if n % duration == 0 {
        TickOnSchedule(AfterBlocks(duration, s, n - 1), u, f, b, FloorDiv(n - 1, duration));
      }
    }
  }

  lemma StartsOnSchedule(s: State, u: Account)
    requires s.Valid() && u in s.funds && s.funds[u].Locked() <= s.BalanceOf(u).reserved
    ensures OnSchedule(s, u, s.funds[u], s.BalanceOf(u), 0)
  {
  }

  /** The record disappears exactly at tick delay + times * interval, with everything released. */
  lemma RecordEnds(f: Fund, k: nat)
    requires f.Valid()
    ensures Paid(f, k) == f.times <==> k >= f.delay + f.times * f.interval
    ensures k >= f.delay + f.times * f.interval ==> Released(f, k) == f.Locked()
  {
    MulMono(1, f.times, f.interval);
    if k >= f.delay {
      var x, d := k - f.delay, f.interval;
      var q := x / d;
      assert x == d * q + x % d;
      if q < f.times {
        MulMono(q + 1, f.times, d);
        Distribute(q, 1, d);
      } else {
        MulMono(f.times, q, d);
      }
    }
  }

  // ---- genesis ----

  type Grants = seq<(Account, Fund)>

  /** Everything a list of grants locks for `u`. */
  function LockedFor(list: Grants, u: Account): nat {
    if list == [] then 0
    else
      var (v, f) := list[|list| - 1];
      LockedFor(list[..|list| - 1], u) + if v == u then f.Locked() else 0
  }

  /** The fund on record for `u`: the last one listed. */
  function FundFor(list: Grants, u: Account): Option<Fund> {
    if list == [] then None
    else if list[|list| - 1].0 == u then Some(list[|list| - 1].1)
    else FundFor(list[..|list| - 1], u)
  }

  /** The state of `u` after the grants: all of them reserved, nothing free, the last one on record. */
  predicate Granted(s: State, list: Grants, u: Account) {
    && s.BalanceOf(u) == Balance(0, LockedFor(list, u))
    && (u in s.funds <==> FundFor(list, u).Some?)
    && (u in s.funds ==> s.funds[u] == FundFor(list, u).value)
  }

  lemma {:induction false} FundIsLocked(list: Grants, u: Account)
    requires FundFor(list, u).Some?
    ensures FundFor(list, u).value.Locked() <= LockedFor(list, u)
  {
    if list[|list| - 1].0 != u {
      FundIsLocked(list[..|list| - 1], u);
    }
  }

  lemma {:induction false} FundIsListed(list: Grants, u: Account)
    requires FundFor(list, u).Some? && forall i :: 0 <= i < |list| ==> list[i].1.Valid()
    ensures FundFor(list, u).value.Valid()
  {
    if list[|list| - 1].0 != u {
      FundIsListed(list[..|list| - 1], u);
    }
  }

  lemma NothingGranted(s: State)
    requires s == State(map[], map[])
    ensures forall u :: Granted(s, [], u)
  {
  }

  lemma GenesisIsSound(s: State, list: Grants)
    requires (forall u :: Granted(s, list, u)) && forall i :: 0 <= i < |list| ==> list[i].1.Valid()
    ensures s.Valid() && forall u :: u in s.funds ==> s.funds[u].Locked() <= s.BalanceOf(u).reserved
  {
    forall u | u in s.funds ensures s.funds[u].Valid() && s.funds[u].Locked() <= s.BalanceOf(u).reserved {
      assert Granted(s, list, u);
      FundIsLocked(list, u);
      FundIsListed(list, u);
    }
  }

  /** One more grant moves the state of its own account only. */
  lemma GrantStep(s: State, s': State, list: Grants, v: Account, f: Fund, u: Account)
    requires Granted(s, list, u)
    requires s' == State(s.funds[v := f], s.balances[v := Balance(s.BalanceOf(v).free, s.BalanceOf(v).reserved + f.Locked())])
    ensures Granted(s', list + [(v, f)], u)
  {
    assert (list + [(v, f)])[..|list|] == list;
  }

  /** The pallet's storage, updated in place. */
  class Vault {
    const duration: nat
    var now: nat
    var funds: map<Account, Fund>
    var balances: map<Account, Balance>
    ghost var start: State

    ghost function Model(): State
      reads this
    {
      State(funds, balances)
    }

    function BalanceOf(u: Account): Balance
      reads this
    {
      if u in balances then balances[u] else Balance(0, 0)
    }

    /** Block `now` of the schedule that began with `start`, in which every fund was reserved in full. */
    ghost predicate Valid()
      reads this
    {
      && duration > 0 && start.Valid() && Model() == AfterBlocks(duration, start, now)
      && forall u :: u in start.funds ==> start.funds[u].Locked() <= start.BalanceOf(u).reserved
    }

    /** Genesis: every listed fund is deposited and reserved in full; of several for one account the
        last one is on record. */
    constructor Build(list: Grants, d: nat)
      ensures duration == d && now == 0 && start == Model()
      ensures forall u :: Granted(Model(), list, u)
      ensures d > 0 && (forall i :: 0 <= i < |list| ==> list[i].1.Valid()) ==> Valid()
    {
      hide Granted;
      duration, now, funds, balances := d, 0, map[], map[];
      new;
      NothingGranted(Model());
      for i := 0 to |list|
        invariant duration == d && now == 0
        invariant forall u :: Granted(Model(), list[..i], u)
      {
        ghost var s := Model();
        assert list[..i + 1] == list[..i] + [list[i]];
        Deposit(list[i].0, list[i].1);
        ghost var next, done := Model(), list[..i + 1];
        forall u ensures Granted(next, done, u) { GrantStep(s, next, list[..i], list[i].0, list[i].1, u); }
      }
      assert list[..|list|] == list;
      start := Model();
      if forall i :: 0 <= i < |list| ==> list[i].1.Valid() {
        GenesisIsSound(start, list);
      }
    }

    method Deposit(u: Account, f: Fund)
      modifies this`funds, this`balances
      ensures Model() == State(old(funds)[u := f],
                               old(balances)[u := Balance(old(BalanceOf(u)).free, old(BalanceOf(u)).reserved + f.Locked())])
    {
      var b, total := BalanceOf(u), f.amount * f.times + f.first;
      b := b.(free := b.free + total);
      b := Balance(b.free - total, b.reserved + total);
      balances := balances[u := b];
      funds := funds[u := f];
    }

    /** The hook of the next block. Every account that started with a fund is on its schedule. */
    method OnInitialize()
      requires Valid()
      modifies this`now, this`funds, this`balances
      ensures Valid() && now == old(now) + 1
      ensures forall u :: u in start.funds ==>
                OnSchedule(Model(), u, start.funds[u], start.BalanceOf(u), FloorDiv(now, duration))
    {
      hide UnlockAll, OnSchedule;
      now := now + 1;
      if now % duration == 0 { UnlockFund(now / duration); }
      forall u | u in start.funds ensures OnSchedule(Model(), u, start.funds[u], start.BalanceOf(u), FloorDiv(now, duration)) {
        VestingClosedForm(duration, start, u, now);
      }
    }

    /** Serves the accounts one by one, in any order, changing the map that is being walked. */
    method UnlockFund(k: nat)
      requires Model().Valid()
      modifies this`funds, this`balances
      ensures Model() == UnlockAll(old(Model()), k)
    {
      var todo := funds.Keys;
      ghost var s := Model();
      while todo != {}
        invariant todo <= s.funds.Keys
        invariant forall u :: u in todo ==> SameAt(s, Model(), u)
        invariant forall u :: u !in s.funds ==> SameAt(s, Model(), u)
        invariant forall u :: u in s.funds && u !in todo ==> Served(s, Model(), k, u)
        decreases |todo|
      {
        ghost var some := AnyOf(todo);
        assert some in todo;
        var u :| u in todo;
        assert SameAt(s, Model(), u);
        ghost var now := Model();
        Serve(k, u);
        todo := todo - {u};
        forall v | v != u && SameAt(s, now, v) ensures SameAt(s, Model(), v) {
          KeepsUntouched(s, now, Model(), v);
        }
        forall v | v != u && v in s.funds && Served(s, now, k, v) ensures Served(s, Model(), k, v) {
          KeepsServed(s, now, Model(), k, v);
        }
      }
      AllServed(s, Model(), k);
    }

    method Serve(k: nat, u: Account)
      requires u in funds && funds[u].Valid()
      modifies this`funds, this`balances
      ensures var v := Unlock(old(funds)[u], old(BalanceOf(u)), k);
              && u in balances && balances[u] == v.balance
              && (u in funds <==> v.fund.Some?) && (u in funds ==> funds[u] == v.fund.value)
      ensures forall v :: v != u ==> SameAt(old(Model()), Model(), v)
    {
      var f, b := funds[u], BalanceOf(u);
      if k > f.delay && (k - f.delay) % f.interval == 0 {
        b := Unreserve(b, f.amount);
        f := f.(times := f.times - 1);
        if f.times == 0 {
          funds := funds - {u};
        } else {
          funds := funds[u := f];
        }
      } else if k == f.delay {
        b := Unreserve(b, f.first);
      }
      balances := balances[u := b];
    }
  }

  predicate SameAt(s: State, now: State, u: Account) {
    && (u in now.funds <==> u in s.funds) && (u in s.funds ==> now.funds[u] == s.funds[u])
    && (u in now.balances <==> u in s.balances) && (u in s.balances ==> now.balances[u] == s.balances[u])
  }

  /** What serving `u` once, from state `s`, leaves of it in `now`. */
  predicate Served(s: State, now: State, k: nat, u: Account)
    requires s.Valid() && u in s.funds
  {
    var v := UnlockAt(s, k, u);
    && u in now.balances && now.balances[u] == v.balance
    && (u in now.funds <==> v.fund.Some?) && (u in now.funds ==> now.funds[u] == v.fund.value)
  }

  lemma KeepsUntouched(s: State, now: State, next: State, u: Account)
    requires SameAt(s, now, u) && SameAt(now, next, u)
    ensures SameAt(s, next, u)
  {
  }

  lemma KeepsServed(s: State, now: State, next: State, k: nat, u: Account)
    requires s.Valid() && u in s.funds && Served(s, now, k, u) && SameAt(now, next, u)
    ensures Served(s, next, k, u)
  {
  }

  lemma AllServed(s: State, now: State, k: nat)
    requires s.Valid() && (forall u :: u in s.funds ==> Served(s, now, k, u))
    requires forall u :: u !in s.funds ==> SameAt(s, now, u)
    ensures now == UnlockAll(s, k)
  {
    hide Unlock;
    var s' := UnlockAll(s, k);
    forall u ensures SameAt(s', now, u) {
      if u in s.funds {
        assert Served(s, now, k, u);
      } else {
        assert SameAt(s, now, u);
      }
    }
    SameEverywhere(s', now);
  }

  lemma SameEverywhere(s: State, now: State)
    requires forall u :: SameAt(s, now, u)
    ensures s == now
  {
    forall u ensures (u in s.funds <==> u in now.funds) && (u in s.balances <==> u in now.balances) {
      assert SameAt(s, now, u);
    }
    forall u | u in s.funds ensures s.funds[u] == now.funds[u] { assert SameAt(s, now, u); }
    forall u | u in s.balances ensures s.balances[u] == now.balances[u] { assert SameAt(s, now, u); }
    assert s.funds == now.funds && s.balances == now.balances;
  }
}
