/** The sum of the values of a map does not depend on the order in which they are added. */
module Sums {
  import opened PoolSpec

  lemma {:induction false} Pick(m: map<string, int>, id: string)
    requires id in m
    ensures SumOf(m) == m[id] + SumOf(m - {id})
    decreases |m|
  {
    var k :| k in m && SumOf(m) == m[k] + SumOf(m - {k});
    if k != id {
      Pick(m - {k}, id);
      Pick(m - {id}, k);
      assert m - {k} - {id} == m - {id} - {k};
    }
  }

  lemma Update(m: map<string, int>, id: string, v: int)
    ensures SumOf(m[id := v]) == SumOf(m) - (if id in m then m[id] else 0) + v
  {
    Pick(m[id := v], id);
    assert m[id := v] - {id} == m - {id};
    if id in m {
      Pick(m, id);
    } else {
      assert m - {id} == m;
    }
  }

  /** Every value between 1 and bound: so is the average, and dropping keys lowers the sum. */
  lemma {:induction false} Bounded(m: map<string, int>, bound: int)
    requires forall id :: id in m ==> 1 <= m[id] <= bound
    ensures |m| <= SumOf(m) <= |m| * bound
    decreases |m|
  {
    if m != map[] {
      var id :| id in m;
      Pick(m, id);
      Bounded(m - {id}, bound);
      assert |m - {id}| == |m| - 1;
      assert (|m| - 1) * bound + bound == |m| * bound;
    }
  }

  lemma {:induction false} Restricted(m: map<string, int>, m': map<string, int>)
    requires forall id :: id in m ==> m[id] >= 0
    requires m'.Keys <= m.Keys && forall id :: id in m' ==> m'[id] == m[id]
    ensures SumOf(m') <= SumOf(m)
    decreases |m|
  {
    if m.Keys == m'.Keys {
      assert m == m';
    } else {
      var id :| id in m && id !in m';
      Pick(m, id);
      Restricted(m - {id}, m');
    }
  }
}
