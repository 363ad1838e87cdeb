/**
 Counting and summing over maps: the little arithmetic that reference counts,
 activity counters and byte accounts need.
 */
module Counting {

  type Addr = int

  // An entry that is missing counts as 0.
  function At(m: map<Addr, int>, k: Addr): int {
    if k in m then m[k] else 0
  }

  // How many of the given keys are mapped to x.
  ghost function Count<K(!new)>(m: map<K, Addr>, keys: set<K>, x: Addr): nat {
    |Fiber(m, keys, x)|
  }

  ghost function Fiber<K(!new)>(m: map<K, Addr>, keys: set<K>, x: Addr): set<K> {
    set k | k in keys && k in m && m[k] == x
  }

  lemma CountPut<K(!new)>(m: map<K, Addr>, keys: set<K>, k: K, v: Addr, x: Addr)
    requires k !in keys
    ensures Count(m[k := v], keys + {k}, x) == Count(m, keys, x) + (if x == v then 1 else 0)
  {
    var before, after := Fiber(m, keys, x), Fiber(m[k := v], keys + {k}, x);
    assert after == if x == v then before + {k} else before;
  }

  lemma CountDel<K(!new)>(m: map<K, Addr>, keys: set<K>, k: K, x: Addr)
    requires k in keys && k in m
    ensures Count(m, keys - {k}, x) == Count(m, keys, x) - (if x == m[k] then 1 else 0)
    ensures Count(m - {k}, keys - {k}, x) == Count(m, keys - {k}, x)
  {
    var before, after := Fiber(m, keys, x), Fiber(m, keys - {k}, x);
    assert after == if x == m[k] then before - {k} else before;
    assert Fiber(m - {k}, keys - {k}, x) == after;
  }

  lemma CountFrame<K(!new)>(m: map<K, Addr>, n: map<K, Addr>, keys: set<K>, x: Addr)
    requires forall k | k in keys :: (k in m <==> k in n) && (k in m ==> m[k] == n[k])
    ensures Count(m, keys, x) == Count(n, keys, x)
  {
    assert Fiber(m, keys, x) == Fiber(n, keys, x);
  }

  lemma CountZero<K(!new)>(m: map<K, Addr>, keys: set<K>, x: Addr, k: K)
    requires Count(m, keys, x) == 0 && k in keys && k in m
    ensures m[k] != x
  {
    assert k !in Fiber(m, keys, x);
  }

  lemma CountNone<K(!new)>(m: map<K, Addr>, keys: set<K>, x: Addr)
    requires forall k | k in keys && k in m :: m[k] != x
    ensures Count(m, keys, x) == 0
  {
    assert Fiber(m, keys, x) == {};
  }

  lemma CountSub<K(!new)>(m: map<K, Addr>, keys: set<K>, more: set<K>, x: Addr)
    requires keys <= more && Count(m, more, x) == 0
    ensures Count(m, keys, x) == 0
  {
    assert Fiber(m, more, x) == {};
    assert Fiber(m, keys, x) <= Fiber(m, more, x);
  }

  // -------------------------------------------------------------------------

  lemma EmptyOrNot(m: map<Addr, int>)
    ensures m == map[] || exists k :: k in m
  {
    if forall k :: k !in m {
      assert m == map[];
    }
  }

  ghost function Sum(m: map<Addr, int>): int
    decreases |m|
  {
    if m == map[] then 0
    else
      EmptyOrNot(m);
      var k :| k in m;
      m[k] + Sum(m - {k})
  }

  lemma {:induction false} SumDel(m: map<Addr, int>, k: Addr)
    requires k in m
    ensures Sum(m) == m[k] + Sum(m - {k})
    decreases |m|
  {
    var j :| j in m && Sum(m) == m[j] + Sum(m - {j});
    if j != k {
      SumDel(m - {j}, k);
      SumDel(m - {k}, j);
      assert m - {j} - {k} == m - {k} - {j};
    }
  }

  lemma SumPut(m: map<Addr, int>, k: Addr, v: int)
    ensures Sum(m[k := v]) == (if k in m then Sum(m) - m[k] else Sum(m)) + v
  {
    SumDel(m[k := v], k);
    assert m[k := v] - {k} == m - {k};
    if k in m {
      SumDel(m, k);
    } else {
      assert m - {k} == m;
    }
  }

  lemma {:induction false} SumPositive(m: map<Addr, int>)
    requires forall k | k in m :: m[k] >= 0
    ensures Sum(m) >= 0
    decreases |m|
  {
    if m != map[] {
      EmptyOrNot(m);
      var k :| k in m;
      SumDel(m, k);
      SumPositive(m - {k});
    }
  }

  // -------------------------------------------------------------------------
  // A ledger of byte charges: every holder names an account and an amount.

  datatype Entry = Entry(account: Addr, amount: nat)

  ghost function Of(ledger: map<Addr, Entry>, x: Addr): map<Addr, int> {
    map k | k in ledger && ledger[k].account == x :: ledger[k].amount
  }

  ghost function Balance(ledger: map<Addr, Entry>, x: Addr): int {
    Sum(Of(ledger, x))
  }

  lemma BalancePut(ledger: map<Addr, Entry>, k: Addr, e: Entry, x: Addr)
    requires k in ledger ==> ledger[k].account == e.account
    ensures Balance(ledger[k := e], x)
         == Balance(ledger, x) + (if x != e.account then 0 else e.amount - (if k in ledger then ledger[k].amount else 0))
  {
    if x == e.account {
      assert Of(ledger[k := e], x) == Of(ledger, x)[k := e.amount];
      SumPut(Of(ledger, x), k, e.amount);
    } else {
      assert Of(ledger[k := e], x) == Of(ledger, x);
    }
  }

  lemma BalanceDel(ledger: map<Addr, Entry>, k: Addr, x: Addr)
    requires k in ledger
    ensures Balance(ledger - {k}, x) == Balance(ledger, x) - (if x == ledger[k].account then ledger[k].amount else 0)
  {
    if x == ledger[k].account {
      assert Of(ledger - {k}, x) == Of(ledger, x) - {k};
      SumDel(Of(ledger, x), k);
    } else {
      assert Of(ledger - {k}, x) == Of(ledger, x);
    }
  }

  lemma BalancePositive(ledger: map<Addr, Entry>, x: Addr)
    ensures Balance(ledger, x) >= 0
  {
    SumPositive(Of(ledger, x));
  }

  lemma BalanceZero(ledger: map<Addr, Entry>, x: Addr)
    requires forall k | k in ledger :: ledger[k].account != x
    ensures Balance(ledger, x) == 0
  {
    assert forall k :: k !in Of(ledger, x);
  }
}
