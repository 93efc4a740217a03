/** Sums of a natural-valued function over a finite set, and a number beyond a finite set. */
module Sums {

  ghost function Sum(keys: set<nat>, f: nat -> nat): nat {
    if keys == {} then 0
    else
      var k :| k in keys;
      f(k) + Sum(keys - {k}, f)
  }

  /** The sum does not depend on which element is taken first. */
  lemma {:induction false} SumTakes(keys: set<nat>, f: nat -> nat, x: nat)
    requires x in keys
    ensures Sum(keys, f) == f(x) + Sum(keys - {x}, f)
    decreases |keys|
  {
    var k :| k in keys && Sum(keys, f) == f(k) + Sum(keys - {k}, f);
    if k != x {
      SumTakes(keys - {k}, f, x);
      SumTakes(keys - {x}, f, k);
      assert keys - {k} - {x} == keys - {x} - {k};
    }
  }

  lemma {:induction false} SumMonotone(keys: set<nat>, f: nat -> nat, g: nat -> nat)
    requires forall k | k in keys :: f(k) <= g(k)
    ensures Sum(keys, f) <= Sum(keys, g)
    decreases |keys|
  {
    if keys != {} {
      var k :| k in keys;
      SumTakes(keys, f, k);
      SumTakes(keys, g, k);
      SumMonotone(keys - {k}, f, g);
    }
  }

  lemma {:induction false} SumSame(keys: set<nat>, f: nat -> nat, g: nat -> nat)
    requires forall k | k in keys :: f(k) == g(k)
    ensures Sum(keys, f) == Sum(keys, g)
    decreases |keys|
  {
    if keys != {} {
      var k :| k in keys;
      SumTakes(keys, f, k);
      SumTakes(keys, g, k);
      SumSame(keys - {k}, f, g);
    }
  }

  lemma {:induction false} PositiveTerm(keys: set<nat>, f: nat -> nat) returns (x: nat)
    requires Sum(keys, f) > 0
    ensures x in keys && f(x) > 0
    decreases |keys|
  {
    x :| x in keys;
    if f(x) == 0 {
      SumTakes(keys, f, x);
      x := PositiveTerm(keys - {x}, f);
    }
  }

  /** If no value rises, and the value at x falls when `falls` is set, so does the sum. */
  lemma SumFalls(keys: set<nat>, f: nat -> nat, g: nat -> nat, falls: bool, x: nat)
    requires falls ==> x in keys
    requires forall k :: g(k) + (if falls && x == k then 1 else 0) <= f(k)
    ensures Sum(keys, g) + (if falls then 1 else 0) <= Sum(keys, f)
  {
    if falls {
      SumTakes(keys, f, x);
      SumTakes(keys, g, x);
      SumMonotone(keys - {x}, g, f);
    } else {
      SumMonotone(keys, g, f);
    }
  }

  // ---- Fresh numbers ----

  lemma {:induction false} Above(keys: set<nat>) returns (n: nat)
    ensures forall k | k in keys :: k < n
    decreases |keys|
  {
    if keys == {} {
      n := 0;
    } else {
      var k :| k in keys;
      var m := Above(keys - {k});
      n := if k < m then m else k + 1;
      assert forall q | q in keys :: q == k || q in keys - {k};
    }
  }
}
