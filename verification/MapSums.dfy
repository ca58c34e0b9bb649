/** Sums over finite storage maps, and how one write or one removal moves them. */
module MapSums {

  function Get<K>(m: map<K, nat>, k: K): nat {
    if k in m then m[k] else 0
  }

  ghost function AnyKey<K, V>(m: map<K, V>): (k: K)
    requires m != map[]
    ensures k in m
  {
    var k :| k in m;
    k
  }

  ghost function AnyOf<K>(s: set<K>): (k: K)
    requires s != {}
    ensures k in s
  {
    var k :| k in s;
    k
  }

  lemma SameMap<K, V>(m: map<K, V>, n: map<K, V>)
    requires m.Keys == n.Keys && forall k :: k in m ==> m[k] == n[k]
    ensures m == n
  {
  }

  ghost predicate Part<K, V>(m: map<K, V>, n: map<K, V>) {
    forall k :: k in m ==> k in n && m[k] == n[k]
  }

  lemma PartGrows<K, V>(m: map<K, V>, n: map<K, V>, k: K)
    requires Part(m, n) && k in n
    ensures Part(m[k := n[k]], n)
  {
  }

  lemma WholePart<K, V>(m: map<K, V>, n: map<K, V>)
    requires Part(m, n) && m.Keys == n.Keys
    ensures m == n
  {
  }

  /** The total weight of the entries of `m`. */
  ghost function Weigh<K, V>(m: map<K, V>, w: (K, V) -> nat): nat
    decreases |m|
  {
    if m == map[] then 0
    else
      var k := AnyKey(m);
      w(k, m[k]) + Weigh(m - {k}, w)
  }

  lemma {:induction false} WeighDrop<K, V>(m: map<K, V>, w: (K, V) -> nat, k: K)
    requires k in m
    ensures Weigh(m, w) == w(k, m[k]) + Weigh(m - {k}, w)
    decreases |m|
  {
    var c := AnyKey(m);
    if c != k {
      var mc, mk := m - {c}, m - {k};
      WeighDrop(mc, w, k);
      WeighDrop(mk, w, c);
      assert mc - {k} == mk - {c};
    }
  }

  lemma WeighPut<K, V>(m: map<K, V>, w: (K, V) -> nat, k: K, v: V)
    ensures Weigh(m[k := v], w) == Weigh(m, w) - (if k in m then w(k, m[k]) else 0) + w(k, v)
    ensures k in m ==> w(k, m[k]) <= Weigh(m, w)
  {
    WeighDrop(m[k := v], w, k);
    if k in m {
      WeighDrop(m, w, k);
      assert m[k := v] - {k} == m - {k};
    } else {
      assert m[k := v] - {k} == m;
    }
  }

  /** Two maps with the same keys and the same weight on every key weigh the same. */
  lemma {:induction false} WeighSame<K, V>(m: map<K, V>, n: map<K, V>, w: (K, V) -> nat, x: (K, V) -> nat)
    requires m.Keys == n.Keys
    requires forall k :: k in m ==> w(k, m[k]) == x(k, n[k])
    ensures Weigh(m, w) == Weigh(n, x)
    decreases |m|
  {
    if m == map[] {
      assert n == map[];
    } else {
      var k := AnyKey(m);
      WeighDrop(n, x, k);
      var mk, nk := m - {k}, n - {k};
      assert forall j :: j in mk ==> w(j, mk[j]) == x(j, nk[j]);
      WeighSame(mk, nk, w, x);
    }
  }

  lemma {:induction false} WeighNothing<K, V>(m: map<K, V>, w: (K, V) -> nat)
    requires forall k :: k in m ==> w(k, m[k]) == 0
    ensures Weigh(m, w) == 0
    decreases |m|
  {
    if m != map[] {
      var k := AnyKey(m);
      WeighNothing(m - {k}, w);
    }
  }

  /** Entries without weight do not change a sum. */
  lemma {:induction false} WeighExtend<K, V>(m: map<K, V>, n: map<K, V>, w: (K, V) -> nat)
    requires m.Keys <= n.Keys
    requires forall k :: k in n ==> w(k, n[k]) == if k in m then w(k, m[k]) else 0
    ensures Weigh(n, w) == Weigh(m, w)
    decreases |n|
  {
    if n == map[] {
      assert m == map[];
    } else {
      var k := AnyKey(n);
      var nk, mk := n - {k}, m - {k};
      WeighExtend(mk, nk, w);
      if k in m {
        WeighDrop(m, w, k);
      } else {
        assert mk == m;
      }
    }
  }
}
