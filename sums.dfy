/**
 * Sums of a per-row quantity over a sequence of rows and over a set of
 * keys of a table.  A handler's accumulator loop computes the first; the
 * second is the value the loop must reach whatever order the store
 * returns the rows in.
 */
module Sums {

  /** The sum the accumulator loops compute, in list order. */
  function SeqSum<V>(s: seq<V>, f: V -> int): int {
    if s == [] then 0 else SeqSum(s[..|s| - 1], f) + f(s[|s| - 1])
  }

  /** The sum of `f` over the rows of `m` whose keys are in `ks`. */
  ghost function SetSum<K, V>(m: map<K, V>, ks: set<K>, f: V -> int): int
    requires ks <= m.Keys
    decreases ks
  {
    if ks == {} then 0 else var k :| k in ks; f(m[k]) + SetSum(m, ks - {k}, f)
  }

  /** The elements of a list, as a set. */
  function Elems<K>(s: seq<K>): set<K> {
    set k | k in s
  }

  ghost predicate Distinct<K>(s: seq<K>) {
    forall i, j :: 0 <= i < j < |s| ==> s[i] != s[j]
  }

  /** Any row may be taken out of a set-sum first. */
  lemma {:induction false} SetSumRemove<K, V>(m: map<K, V>, ks: set<K>, x: K, f: V -> int)
    requires ks <= m.Keys && x in ks
    ensures SetSum(m, ks, f) == f(m[x]) + SetSum(m, ks - {x}, f)
    decreases ks
  {
    var y :| y in ks && SetSum(m, ks, f) == f(m[y]) + SetSum(m, ks - {y}, f);
    if y != x {
      SetSumRemove(m, ks - {y}, x, f);
      SetSumRemove(m, ks - {x}, y, f);
      assert ks - {y} - {x} == ks - {x} - {y};
    }
  }

  /** Adding one new row adds its value to the set-sum. */
  lemma SetSumInsert<K, V>(m: map<K, V>, ks: set<K>, x: K, f: V -> int)
    requires ks <= m.Keys && x in m && x !in ks
    ensures SetSum(m, ks + {x}, f) == SetSum(m, ks, f) + f(m[x])
  {
    SetSumRemove(m, ks + {x}, x, f);
    assert ks + {x} - {x} == ks;
  }

  /** A set-sum depends only on the rows whose keys it ranges over. */
  lemma {:induction false} SetSumFrame<K, V>(m1: map<K, V>, m2: map<K, V>, ks: set<K>, f: V -> int)
    requires ks <= m1.Keys && ks <= m2.Keys
    requires forall k :: k in ks ==> m1[k] == m2[k]
    ensures SetSum(m1, ks, f) == SetSum(m2, ks, f)
    decreases ks
  {
    if ks != {} {
      var k :| k in ks;
      SetSumRemove(m1, ks, k, f);
      SetSumRemove(m2, ks, k, f);
      SetSumFrame(m1, m2, ks - {k}, f);
    }
  }

  /**
   * Summing a duplicate-free listing of rows, in any order, gives the
   * set-sum over their keys: the accumulator loops compute a value that
   * depends on the table alone.
   */
  lemma {:induction false} SeqSumEnumerates<K, V>(m: map<K, V>, keys: seq<K>, rows: seq<V>, f: V -> int)
    requires Distinct(keys) && |rows| == |keys|
    requires forall i :: 0 <= i < |keys| ==> keys[i] in m && rows[i] == m[keys[i]]
    ensures Elems(keys) <= m.Keys
    ensures SeqSum(rows, f) == SetSum(m, Elems(keys), f)
    decreases |keys|
  {
    if keys != [] {
      var n := |keys| - 1;
      var front := keys[..n];
      SeqSumEnumerates(m, front, rows[..n], f);
      assert Elems(keys) == Elems(front) + {keys[n]};
      assert keys[n] !in Elems(front);
      SetSumInsert(m, Elems(front), keys[n], f);
    } else {
      assert Elems(keys) == {};
    }
  }

  /** The sum of a list that ends with `x`. */
  lemma SeqSumSnoc<V>(s: seq<V>, x: V, f: V -> int)
    ensures SeqSum(s + [x], f) == SeqSum(s, f) + f(x)
  {
    assert (s + [x])[..|s|] == s;
  }

  /** Sums are additive over concatenation. */
  lemma {:induction false} SeqSumAppend<V>(s: seq<V>, t: seq<V>, f: V -> int)
    ensures SeqSum(s + t, f) == SeqSum(s, f) + SeqSum(t, f)
    decreases |t|
  {
    if t == [] {
      assert s + t == s;
    } else {
      var n := |t| - 1;
      SeqSumAppend(s, t[..n], f);
      assert (s + t)[..|s + t| - 1] == s + t[..n];
    }
  }

  /** Two lists whose elements contribute equally, position by position, have equal sums. */
  lemma {:induction false} SeqSumPointwise<A, B>(a: seq<A>, f: A -> int, b: seq<B>, g: B -> int)
    requires |a| == |b|
    requires forall i :: 0 <= i < |a| ==> f(a[i]) == g(b[i])
    ensures SeqSum(a, f) == SeqSum(b, g)
    decreases |a|
  {
    if a != [] {
      var n := |a| - 1;
      SeqSumPointwise(a[..n], f, b[..n], g);
    }
  }
}
