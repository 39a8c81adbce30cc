/** Resource quantities in millivalues, the integer width they are computed in,
    and sums over maps, whose iteration order the program leaves open. */
module Quantities {

  /** Resource name to millivalue. A missing resource reads as zero. */
  type Amounts = map<string, int>

  const MAX_INT64: int := 0x7FFF_FFFF_FFFF_FFFF
  const TWO_63: int := 0x8000_0000_0000_0000
  const TWO_64: int := 0x1_0000_0000_0000_0000

  /** The ledger computes in Int64; Unbounded is the arithmetic it is meant to be. */
  datatype Width = Unbounded | Int64

  function Wrap(x: int): int {
    (x + TWO_63) % TWO_64 - TWO_63
  }

  function Norm(w: Width, x: int): int {
    if w.Int64? then Wrap(x) else x
  }

  function Add(w: Width, x: int, y: int): int {
    Norm(w, x + y)
  }

  function Sub(w: Width, x: int, y: int): int {
    Norm(w, x - y)
  }

  function Get(m: Amounts, r: string): int {
    if r in m then m[r] else 0
  }

  /** In-place `m[r] += d[r]` for every r of d. */
  function Plus(w: Width, m: Amounts, d: Amounts): Amounts {
    map r | r in m.Keys + d.Keys :: if r in d then Add(w, Get(m, r), d[r]) else m[r]
  }

  lemma WrapAbsorbs(x: int, y: int)
    ensures Wrap(Wrap(x) + Wrap(y)) == Wrap(x + y)
    ensures Wrap(Wrap(x) + y) == Wrap(x + y)
  {
    var k := (x + TWO_63) / TWO_64;
    var j := (y + TWO_63) / TWO_64;
    assert Wrap(x) == x - k * TWO_64;
    assert Wrap(y) == y - j * TWO_64;
    WrapPeriod(x + y, -k);
    WrapPeriod(x + y, -k - j);
    assert Wrap(x) + Wrap(y) == x + y + (-k - j) * TWO_64;
    assert Wrap(x) + y == x + y + (-k) * TWO_64;
  }

  lemma WrapPeriod(x: int, k: int)
    ensures Wrap(x + k * TWO_64) == Wrap(x)
  {
    var q := (x + TWO_63) / TWO_64;
    assert x + TWO_63 + k * TWO_64 == (q + k) * TWO_64 + (x + TWO_63) % TWO_64;
  }

  /** The sum of a map's values, in no particular order. */
  ghost function MapSum(m: Amounts): int
    decreases |m|
  {
    if m == map[] then 0
    else
      var k :| k in m;
      m[k] + MapSum(m - {k})
  }

  /** Any key can be taken out first: the sum does not depend on the order. */
  lemma {:induction false} MapSumRemove(m: Amounts, k: string)
    requires k in m
    ensures MapSum(m) == m[k] + MapSum(m - {k})
    decreases |m|
  {
    var j :| j in m && MapSum(m) == m[j] + MapSum(m - {j});
    if j != k {
      MapSumRemove(m - {j}, k);
      MapSumRemove(m - {k}, j);
      assert m - {j} - {k} == m - {k} - {j};
    }
  }

  lemma MapSumInsert(m: Amounts, k: string, v: int)
    requires k !in m
    ensures MapSum(m[k := v]) == MapSum(m) + v
  {
    MapSumRemove(m[k := v], k);
    assert m[k := v] - {k} == m;
  }

  lemma MapSumUpdate(m: Amounts, k: string, v: int)
    requires k in m
    ensures MapSum(m[k := v]) == MapSum(m) - m[k] + v
  {
    MapSumRemove(m, k);
    MapSumRemove(m[k := v], k);
    assert m[k := v] - {k} == m - {k};
  }

  /** A sum of non-negative values is zero exactly when they all are. */
  lemma {:induction false} MapSumNonNegative(m: Amounts)
    requires forall k :: k in m ==> m[k] >= 0
    ensures MapSum(m) >= 0
    ensures MapSum(m) == 0 <==> forall k :: k in m ==> m[k] == 0
    decreases |m|
  {
    if m != map[] {
      var k :| k in m && MapSum(m) == m[k] + MapSum(m - {k});
      MapSumNonNegative(m - {k});
      assert forall j :: j in m ==> j == k || j in m - {k};
    }
  }

  lemma {:induction false} MapSumMonotone(m: Amounts, m': Amounts)
    requires forall k :: k in m <==> k in m'
    requires forall k :: k in m ==> m[k] <= m'[k]
    ensures MapSum(m) <= MapSum(m')
    decreases |m|
  {
    if m == map[] {
      assert m' == map[];
    } else {
      var k :| k in m;
      MapSumRemove(m, k);
      MapSumRemove(m', k);
      MapSumMonotone(m - {k}, m' - {k});
    }
  }

  lemma {:induction false} LeastKey(m: Amounts) returns (least: string)
    requires m != map[]
    ensures least in m && forall k :: k in m ==> m[least] <= m[k]
    decreases |m|
  {
    least :| least in m;
    var rest := m - {least};
    assert forall k :: k in m ==> k == least || k in rest;
    if rest != map[] {
      var other := LeastKey(rest);
      if m[other] < m[least] {
        least := other;
      }
    }
  }

  lemma {:induction false} MapSumAtMost(m: Amounts, bound: int)
    requires forall k :: k in m ==> m[k] <= bound
    ensures MapSum(m) <= bound * |m|
    decreases |m|
  {
    if m != map[] {
      var k :| k in m && MapSum(m) == m[k] + MapSum(m - {k});
      MapSumAtMost(m - {k}, bound);
      assert (m - {k}).Keys == m.Keys - {k};
      assert |m - {k}| == |m| - 1;
      assert bound * (|m| - 1) == bound * |m| - bound;
    }
  }
}
