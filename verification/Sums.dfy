/** Finite sums over sets, the common currency of every conservation law in the model. */
module Sums {

  /** The sum of f over the finite set s; the order of summation is irrelevant (see SumRemove). */
  ghost function Sum<K(!new)>(s: set<K>, f: K -> nat): nat {
    if s == {} then 0 else var k :| k in s; f(k) + Sum(s - {k}, f)
  }

  lemma {:induction false} SumRemove<K(!new)>(s: set<K>, f: K -> nat, k: K)
    requires k in s
    ensures Sum(s, f) == f(k) + Sum(s - {k}, f)
  {
    var j :| j in s && Sum(s, f) == f(j) + Sum(s - {j}, f);
    if j != k {
      SumRemove(s - {j}, f, k);
      SumRemove(s - {k}, f, j);
      assert s - {j} - {k} == s - {k} - {j};
    }
  }

  lemma {:induction false} SumCong<K(!new)>(s: set<K>, f: K -> nat, g: K -> nat)
    requires forall x :: x in s ==> f(x) == g(x)
    ensures Sum(s, f) == Sum(s, g)
  {
    if s != {} {
      var k :| k in s;
      SumRemove(s, f, k);
      SumRemove(s, g, k);
      SumCong(s - {k}, f, g);
    }
  }

  lemma {:induction false} SumZero<K(!new)>(s: set<K>, f: K -> nat)
    requires forall x :: x in s ==> f(x) == 0
    ensures Sum(s, f) == 0
  {
    if s != {} {
      var k :| k in s;
      SumRemove(s, f, k);
      SumZero(s - {k}, f);
    }
  }

  /** Elements on which f vanishes may be added to the index set. */
  lemma {:induction false} SumSupport<K(!new)>(s: set<K>, t: set<K>, f: K -> nat)
    requires s <= t
    requires forall x :: x in t && x !in s ==> f(x) == 0
    ensures Sum(s, f) == Sum(t, f)
  {
    if s != t {
      var k :| k in t && k !in s;
      SumRemove(t, f, k);
      SumSupport(s, t - {k}, f);
    }
  }

  /** Changing a summand at the single point k, whether k enters, leaves or stays in the index set. */
  lemma SumPoint<K(!new)>(s: set<K>, f: K -> nat, t: set<K>, g: K -> nat, k: K)
    requires forall x :: x != k ==> f(x) == g(x)
    requires forall x :: x !in s ==> f(x) == 0
    requires forall x :: x !in t ==> g(x) == 0
    ensures Sum(t, g) + f(k) == Sum(s, f) + g(k)
  {
    var u := s + t + {k};
    SumSupport(s, u, f);
    SumSupport(t, u, g);
    SumRemove(u, f, k);
    SumRemove(u, g, k);
    SumCong(u - {k}, f, g);
  }

  /** Every summand is bounded by the sum. */
  lemma SumMember<K(!new)>(s: set<K>, f: K -> nat, k: K)
    requires k in s
    ensures f(k) <= Sum(s, f)
  {
    SumRemove(s, f, k);
  }

  /** Fewer elements do not sum up to more. */
  lemma SumWithin<K(!new)>(s: set<K>, t: set<K>, f: K -> nat)
    requires s <= t
    ensures Sum(s, f) <= Sum(t, f)
  {
    var g: K -> nat := k => if k in s then f(k) else 0;
    SumCong(s, f, g);
    SumSupport(s, t, g);
    SumMono(t, g, f);
  }

  lemma {:induction false} SumPlus<K(!new)>(s: set<K>, f: K -> nat, g: K -> nat, h: K -> nat)
    requires forall x :: x in s ==> h(x) == f(x) + g(x)
    ensures Sum(s, h) == Sum(s, f) + Sum(s, g)
  {
    if s != {} {
      var k :| k in s;
      SumRemove(s, f, k);
      SumRemove(s, g, k);
      SumRemove(s, h, k);
      SumPlus(s - {k}, f, g, h);
    }
  }

  lemma {:induction false} SumMono<K(!new)>(s: set<K>, f: K -> nat, g: K -> nat)
    requires forall x :: x in s ==> f(x) <= g(x)
    ensures Sum(s, f) <= Sum(s, g)
  {
    if s != {} {
      var k :| k in s;
      SumRemove(s, f, k);
      SumRemove(s, g, k);
      SumMono(s - {k}, f, g);
    }
  }

  lemma Distribute(a: nat, x: nat, y: nat)
    ensures a * (x + y) == a * x + a * y
  {
  }

  /** A pointwise bound a * f <= b * g + c * h carries over to the sums. */
  lemma {:induction false} SumScaled<K(!new)>(s: set<K>, f: K -> nat, g: K -> nat, h: K -> nat, a: nat, b: nat, c: nat)
    requires forall x :: x in s ==> a * f(x) <= b * g(x) + c * h(x)
    ensures a * Sum(s, f) <= b * Sum(s, g) + c * Sum(s, h)
  {
    if s == {} {
      SumZero(s, f);
    } else {
      var k :| k in s;
      var r := s - {k};
      SumScaled(r, f, g, h, a, b, c);
      assert a * f(k) <= b * g(k) + c * h(k);
      Distribute(a, f(k), Sum(r, f));
      Distribute(b, g(k), Sum(r, g));
      Distribute(c, h(k), Sum(r, h));
      SumRemove(s, f, k);
      SumRemove(s, g, k);
      SumRemove(s, h, k);
    }
  }

  lemma {:induction false} SumOnes<K(!new)>(s: set<K>)
    ensures Sum(s, k => 1) == |s|
  {
    if s == {} {
      SumZero(s, k => 1);
    } else {
      var k :| k in s;
      SumRemove(s, k => 1, k);
      SumOnes(s - {k});
      SumCong(s - {k}, k => 1, k => 1);
    }
  }

  /**
    Dividing b among the elements of s in proportion to their weights g out of a total weight a,
    each part being too large by less than one unit, hands out less than b and one unit for each element.
   */
  lemma SumOfParts<K(!new)>(s: set<K>, f: K -> nat, g: K -> nat, a: nat, b: nat)
    requires 0 < a && Sum(s, g) <= a && s != {}
    requires forall x :: x in s ==> a * f(x) < b * g(x) + a
    ensures Sum(s, f) < b + |s|
  {
    var one: K -> nat := k => 1;
    assert forall x :: x in s ==> (a - 1) * one(x) == a - 1;
    SumScaled(s, f, g, one, a, b, a - 1);
    SumOnes(s);
    SumCong(s, one, k => 1);
    CancelParts(a, Sum(s, f), b, Sum(s, g), |s|);
  }

  lemma CancelParts(a: nat, x: nat, b: nat, y: nat, n: nat)
    requires 0 < a && y <= a && 0 < n && a * x <= b * y + (a - 1) * n
    ensures x < b + n
  {
    MulUpTo(b, y, a);
    Distribute(a, b, n);
    assert (a - 1) * n == a * n - n;
    if b + n <= x {
      MulUpTo(a, b + n, x);
    }
  }

  lemma MulUpTo(a: nat, x: nat, y: nat)
    requires x <= y
    ensures a * x <= a * y
  {
  }

  /** The sum over s of the elements that key sends to g. */
  ghost function Group<K(!new), G(!new)>(s: set<K>, f: K -> nat, key: K -> G, g: G): nat {
    Sum((set k | k in s && key(k) == g), f)
  }

  /** Summing group by group gives the sum. */
  lemma {:induction false} SumByGroup<K(!new), G(!new)>(s: set<K>, f: K -> nat, key: K -> G, groups: set<G>)
    requires forall k :: k in s ==> key(k) in groups
    ensures Sum(s, f) == Sum(groups, g => Group(s, f, key, g))
  {
    if s == {} {
      SumZero(groups, g => Group(s, f, key, g));
    } else {
      var k :| k in s;
      var r := s - {k};
      SumRemove(s, f, k);
      SumByGroup(r, f, key, groups);
      var all := g => Group(s, f, key, g);
      var rest := g => Group(r, f, key, g);
      forall g | g in groups && g != key(k)
        ensures all(g) == rest(g)
      {
        assert (set x | x in s && key(x) == g) == (set x | x in r && key(x) == g);
      }
      var here := set x | x in s && key(x) == key(k);
      assert here - {k} == set x | x in r && key(x) == key(k);
      SumRemove(here, f, k);
      SumRemove(groups, all, key(k));
      SumRemove(groups, rest, key(k));
      SumCong(groups - {key(k)}, all, rest);
    }
  }

  /** The same with the groups given as sets, and their sums by a function. */
  lemma SumByPart<K(!new), G(!new)>(s: set<K>, f: K -> nat, key: K -> G, groups: set<G>, part: G -> set<K>,
                                    total: G -> nat)
    requires forall k :: k in s ==> key(k) in groups
    requires forall g, k :: g in groups ==> (k in part(g) <==> k in s && key(k) == g)
    requires forall g :: g in groups ==> total(g) == Sum(part(g), f)
    ensures Sum(s, f) == Sum(groups, total)
  {
    SumByGroup(s, f, key, groups);
    forall g | g in groups ensures Group(s, f, key, g) == total(g) {
      assert part(g) == set k | k in s && key(k) == g;
    }
    SumCong(groups, g => Group(s, f, key, g), total);
  }

  function Row<K(!new), L(!new)>(f: (K, L) -> nat, k: K): L -> nat {
    l => f(k, l)
  }

  function Column<K(!new), L(!new)>(f: (K, L) -> nat, l: L): K -> nat {
    k => f(k, l)
  }

  /** Double sums may be taken in either order. */
  lemma {:induction false} SumSwap<K(!new), L(!new)>(s: set<K>, t: set<L>, f: (K, L) -> nat,
                                                     rows: K -> nat, columns: L -> nat)
    requires forall k :: k in s ==> rows(k) == Sum(t, Row(f, k))
    requires forall l :: l in t ==> columns(l) == Sum(s, Column(f, l))
    ensures Sum(s, rows) == Sum(t, columns)
  {
    if s == {} {
      SumZero(t, columns);
    } else {
      var k :| k in s;
      var r := s - {k};
      var rest := l => Sum(r, Column(f, l));
      SumRemove(s, rows, k);
      SumSwap(r, t, f, rows, rest);
      forall l | l in t ensures columns(l) == Row(f, k)(l) + rest(l) {
        SumRemove(s, Column(f, l), k);
      }
      SumPlus(t, Row(f, k), rest, columns);
    }
  }

  /** f(0) + ... + f(n - 1). */
  ghost function SumUpTo(n: nat, f: nat -> nat): nat {
    if n == 0 then 0 else SumUpTo(n - 1, f) + f(n - 1)
  }

  lemma {:induction false} SumUpToCong(n: nat, f: nat -> nat, g: nat -> nat)
    requires forall e :: 0 <= e < n ==> f(e) == g(e)
    ensures SumUpTo(n, f) == SumUpTo(n, g)
  {
    if n > 0 {
      SumUpToCong(n - 1, f, g);
    }
  }
}
