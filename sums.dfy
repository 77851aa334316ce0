/** Totals of the balances held in a map of accounts. */
module Sums {
  import opened States

  /** Some key of a non-empty map. */
  ghost function Pick(m: map<Pubkey, nat>): (k: Pubkey)
    requires m != map[]
    ensures k in m
  {
    var k :| k in m; k
  }

  /** The sum of all balances in `m`. */
  ghost function Sum(m: map<Pubkey, nat>): (s: nat)
    decreases m.Keys
  {
    if m == map[] then 0
    else
      var k := Pick(m);
      m[k] + Sum(m - {k})
  }

  /** Any key, not only the one `Sum` picks, can be split off the total. */
  lemma {:induction false} SumRemove(m: map<Pubkey, nat>, k: Pubkey)
    requires k in m
    ensures Sum(m) == m[k] + Sum(m - {k})
    decreases m.Keys
  {
    var j := Pick(m);
    if j != k {
      SumRemove(m - {j}, k);
      SumRemove(m - {k}, j);
      assert m - {j} - {k} == m - {k} - {j};
    }
  }

  /** Each balance is at most the total. */
  lemma BalanceAtMostSum(m: map<Pubkey, nat>, k: Pubkey)
    requires k in m
    ensures m[k] <= Sum(m)
  {
    SumRemove(m, k);
  }

  /** Overwriting one balance changes the total by the difference. */
  lemma SumUpdate(m: map<Pubkey, nat>, k: Pubkey, v: nat)
    ensures Sum(m[k := v]) + (if k in m then m[k] else 0) == Sum(m) + v
  {
    SumRemove(m[k := v], k);
    assert m[k := v] - {k} == m - {k};
    if k in m {
      SumRemove(m, k);
    } else {
      assert m - {k} == m;
    }
  }

  /** Removing one balance lowers the total by exactly that balance. */
  lemma SumWithout(m: map<Pubkey, nat>, k: Pubkey)
    ensures Sum(m - {k}) + (if k in m then m[k] else 0) == Sum(m)
  {
    if k in m {
      SumRemove(m, k);
    } else {
      assert m - {k} == m;
    }
  }

  /** Accounts that all hold zero add up to zero. */
  lemma {:induction false} SumAllZero(m: map<Pubkey, nat>)
    requires forall k :: k in m ==> m[k] == 0
    ensures Sum(m) == 0
    decreases m.Keys
  {
    if m != map[] {
      SumAllZero(m - {Pick(m)});
    }
  }
}
