/** Sums over accounts and over outcomes. */
module Sums {
  import opened Foundations
  import Arithmetic

  function At(m: map<Address, uint256>, a: Address): uint256 {
    if a in m then m[a] else 0
  }

  ghost function Total(m: map<Address, uint256>): nat {
    if m == map[] then 0 else
      var a :| a in m;
      m[a] + Total(m - {a})
  }

  /** The sum does not depend on the order in which it is taken. */
  lemma {:induction false} TotalWithout(m: map<Address, uint256>, a: Address)
    ensures Total(m) == At(m, a) + Total(m - {a})
    decreases m
  {
    if a !in m {
      assert m - {a} == m;
    } else {
      var b :| b in m && Total(m) == m[b] + Total(m - {b});
      if b != a {
        TotalWithout(m - {b}, a);
        TotalWithout(m - {a}, b);
        assert m - {b} - {a} == m - {a} - {b};
      }
    }
  }

  lemma TotalSet(m: map<Address, uint256>, a: Address, v: uint256)
    ensures Total(m[a := v]) == Total(m) - At(m, a) + v
  {
    TotalWithout(m, a);
    TotalWithout(m[a := v], a);
    assert m[a := v] - {a} == m - {a};
  }

  lemma TwoAccounts(m: map<Address, uint256>, a: Address, b: Address)
    ensures At(m, a) <= Total(m)
    ensures a != b ==> At(m, a) + At(m, b) <= Total(m)
  {
    TotalWithout(m, a);
    TotalWithout(m - {a}, b);
  }

  lemma {:induction false} TotalOfOne(m: map<Address, uint256>, a: Address)
    requires forall b :: b != a ==> At(m, b) == 0
    ensures Total(m) == At(m, a)
    decreases m
  {
    if m == map[] {
    } else {
      var b :| b in m && Total(m) == m[b] + Total(m - {b});
      assert forall c :: c != b ==> At(m - {b}, c) == At(m, c);
      TotalOfOne(m - {b}, if b == a then b else a);
      if b != a { assert At(m, b) == 0; }
    }
  }

  // Sums over the outcomes of a market, from outcome i on.

  function Dot(xs: seq<nat>, ps: seq<nat>, i: nat): nat
    requires |xs| == |ps| && i <= |xs|
    decreases |xs| - i
  {
    if i == |xs| then 0 else
      Arithmetic.NonNegative(xs[i], ps[i]);
      xs[i] * ps[i] + Dot(xs, ps, i + 1)
  }

  function Sum(ps: seq<nat>, i: nat): nat
    requires i <= |ps|
    decreases |ps| - i
  {
    if i == |ps| then 0 else ps[i] + Sum(ps, i + 1)
  }

  lemma {:induction false} DotAdds(xs: seq<nat>, us: seq<nat>, vs: seq<nat>, ps: seq<nat>, i: nat)
    requires |xs| == |us| == |vs| == |ps| && i <= |xs|
    requires forall j :: i <= j < |xs| ==> xs[j] == us[j] + vs[j]
    ensures Dot(xs, ps, i) == Dot(us, ps, i) + Dot(vs, ps, i)
    decreases |xs| - i
  {
    if i < |xs| {
      DotAdds(xs, us, vs, ps, i + 1);
      assert xs[i] * ps[i] == us[i] * ps[i] + vs[i] * ps[i];
    }
  }

  lemma {:induction false} DotConstant(xs: seq<nat>, k: nat, ps: seq<nat>, i: nat)
    requires |xs| == |ps| && i <= |xs|
    requires forall j :: i <= j < |xs| ==> xs[j] == k
    ensures Dot(xs, ps, i) == k * Sum(ps, i)
    decreases |xs| - i
  {
    if i < |xs| {
      DotConstant(xs, k, ps, i + 1);
      assert k * (ps[i] + Sum(ps, i + 1)) == k * ps[i] + k * Sum(ps, i + 1);
    }
  }

  lemma {:induction false} DotMonotone(us: seq<nat>, xs: seq<nat>, ps: seq<nat>, i: nat)
    requires |us| == |xs| == |ps| && i <= |xs|
    requires forall j :: i <= j < |xs| ==> us[j] <= xs[j]
    ensures Dot(us, ps, i) <= Dot(xs, ps, i)
    decreases |xs| - i
  {
    if i < |xs| {
      DotMonotone(us, xs, ps, i + 1);
      Arithmetic.Monotone(us[i], xs[i], ps[i]);
    }
  }

  lemma {:induction false} DotSame(us: seq<nat>, xs: seq<nat>, ps: seq<nat>, i: nat)
    requires |us| == |xs| == |ps| && i <= |xs|
    requires forall j :: i <= j < |xs| ==> us[j] == xs[j]
    ensures Dot(us, ps, i) == Dot(xs, ps, i)
    decreases |xs| - i
  {
    if i < |xs| {
      DotSame(us, xs, ps, i + 1);
    }
  }

  lemma {:induction false} SumConstant(ps: seq<nat>, p: nat, i: nat)
    requires i <= |ps|
    requires forall j :: i <= j < |ps| ==> ps[j] == p
    ensures Sum(ps, i) == (|ps| - i) * p
    decreases |ps| - i
  {
    if i < |ps| {
      SumConstant(ps, p, i + 1);
      assert (|ps| - i) * p == (|ps| - i - 1) * p + p;
    }
  }
}
