/** Native-currency balances kept as a finite map from accounts to amounts
    (an account missing from the map holds nothing), the one primitive that
    moves funds between two accounts, and the sum of all balances, which
    every transfer leaves unchanged. */
module Ledger {

  function Bal<K>(m: map<K, nat>, k: K): nat {
    if k in m then m[k] else 0
  }

  /** Moves `amount` from `src` to `dst`. The caller checks that `src` can pay:
      a debit below zero aborts the whole call in both hosts. */
  function Transfer<K(!new)>(m: map<K, nat>, src: K, dst: K, amount: nat): (r: map<K, nat>)
    requires Bal(m, src) >= amount
    ensures src != dst ==> Bal(r, src) == Bal(m, src) - amount && Bal(r, dst) == Bal(m, dst) + amount
    ensures src == dst ==> Bal(r, src) == Bal(m, src)
    ensures forall k :: k != src && k != dst ==> Bal(r, k) == Bal(m, k)
  {
    var m1 := m[src := Bal(m, src) - amount];
    m1[dst := Bal(m1, dst) + amount]
  }

  ghost function Pick<K>(m: map<K, nat>): (k: K)
    requires m != map[]
    ensures k in m
  {
    var k :| k in m; k
  }

  /** The sum of all balances in `m`. */
  ghost function Total<K>(m: map<K, nat>): nat
    decreases |m|
  {
    if m == map[] then 0
    else
      var k := Pick(m);
      assert m.Keys == (m - {k}).Keys + {k};
      m[k] + Total(m - {k})
  }

  /** The sum may be taken out of `m` starting at any key, not only the one
      `Pick` chooses. */
  lemma {:induction false} TotalRemove<K>(m: map<K, nat>, k: K)
    requires k in m
    ensures Total(m) == m[k] + Total(m - {k})
    decreases |m|
  {
    var j := Pick(m);
    assert m.Keys == (m - {j}).Keys + {j};
    if j != k {
      assert (m - {j}).Keys == (m - {j} - {k}).Keys + {k};
      TotalRemove(m - {j}, k);
      TotalRemove(m - {k}, j);
      assert m - {j} - {k} == m - {k} - {j};
    }
  }

  /** Overwriting one balance changes the sum by the difference. */
  lemma {:induction false} TotalUpdate<K>(m: map<K, nat>, k: K, v: nat)
    ensures Total(m[k := v]) == Total(m) - Bal(m, k) + v
  {
    TotalRemove(m[k := v], k);
    assert m[k := v] - {k} == m - {k};
    if k in m {
      TotalRemove(m, k);
    } else {
      assert m - {k} == m;
    }
  }

  /** Every transfer conserves the total amount of currency. */
  lemma TransferConserves<K(!new)>(m: map<K, nat>, src: K, dst: K, amount: nat)
    requires Bal(m, src) >= amount
    ensures Total(Transfer(m, src, dst, amount)) == Total(m)
  {
    var m1 := m[src := Bal(m, src) - amount];
    TotalUpdate(m, src, Bal(m, src) - amount);
    TotalUpdate(m1, dst, Bal(m1, dst) + amount);
  }
}
