/**
 * Sums: the per-beneficiary payout record as a map that defaults to zero,
 * and the sum of its entries, which the ledger's total must always equal.
 */
module Sums {
  import opened Cheques

  /** The recorded amount for `k`, zero for a key never written. */
  function Lookup(m: map<Address, nat>, k: Address): nat
  {
    if k in m then m[k] else 0
  }

  /** The sum of all entries of `m`. */
  ghost function Total(m: map<Address, nat>): nat
    decreases |m|
  {
    if m == map[] then 0
    else
      var k :| k in m;
      assert |m - {k}| < |m| by { assert (m - {k}).Keys == m.Keys - {k}; }
      m[k] + Total(m - {k})
  }

  /** The sum may be taken apart at any key, not only at the one `Total` happens to pick. */
  lemma {:induction false} TotalAt(m: map<Address, nat>, k: Address)
    requires k in m
    ensures Total(m) == m[k] + Total(m - {k})
    decreases |m|
  {
    var j :| j in m && Total(m) == m[j] + Total(m - {j});
    if j != k {
      var mj, mk := m - {j}, m - {k};
      assert (mj).Keys == m.Keys - {j};
      assert (mk).Keys == m.Keys - {k};
      assert k in mj && j in mk;
      TotalAt(mj, k);
      TotalAt(mk, j);
      assert mj - {k} == mk - {j};
    }
  }

  /** Writing `v` at `k` changes the sum by the difference between `v` and the old entry. */
  lemma {:induction false} TotalUpdate(m: map<Address, nat>, k: Address, v: nat)
    ensures Total(m[k := v]) + Lookup(m, k) == Total(m) + v
  {
    var m' := m[k := v];
    TotalAt(m', k);
    assert m' - {k} == m - {k};
    if k in m {
      TotalAt(m, k);
    } else {
      assert m - {k} == m;
    }
  }

  /** No single entry exceeds the sum. */
  lemma {:induction false} LookupBelowTotal(m: map<Address, nat>, k: Address)
    ensures Lookup(m, k) <= Total(m)
  {
    if k in m {
      TotalAt(m, k);
    }
  }
}
