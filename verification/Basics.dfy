/** Small shared vocabulary: optional values, minimum and maximum, counting over a finite map. */
module Basics {
  datatype Option<+T> = None | Some(value: T)

  function Min(a: int, b: int): int { if a <= b then a else b }

  function Max(a: int, b: int): int { if a >= b then a else b }

  function Lookup<K, V>(m: map<K, V>, k: K): Option<V> { if k in m then Some(m[k]) else None }

  /** Ceiling of a / 1000 for any integer, as `Math.ceil` gives it. */
  function CeilSeconds(ms: int): int { (ms + 999) / 1000 }

  /** The keys of the entries of `m` that satisfy `p`. */
  ghost function Matching<K(!new), V>(m: map<K, V>, p: V -> bool): set<K> {
    set k | k in m && p(m[k])
  }

  /** How many entries of `m` satisfy `p`. */
  ghost function Count<K(!new), V>(m: map<K, V>, p: V -> bool): nat {
    |Matching(m, p)|
  }

  /** Writing one entry moves a count by what that entry was and by what it becomes. */
  lemma CountUpdate<K(!new), V>(m: map<K, V>, k: K, v: V, p: V -> bool)
    ensures Count(m[k := v], p) == Count(m, p) - (if k in m && p(m[k]) then 1 else 0) + (if p(v) then 1 else 0)
  {
    var before, after := Matching(m, p), Matching(m[k := v], p);
    forall j | j != k ensures j in before <==> j in after {}
    if p(v) {
      assert after == (before - {k}) + {k};
    } else {
      assert after == before - {k};
    }
  }

  lemma CountWitness<K(!new), V>(m: map<K, V>, k: K, p: V -> bool)
    requires k in m && p(m[k])
    ensures Count(m, p) >= 1
  {
    assert k in Matching(m, p);
  }

  lemma CountMonotone<K(!new), V>(m: map<K, V>, p: V -> bool, q: V -> bool)
    requires forall k :: k in m && p(m[k]) ==> q(m[k])
    ensures Count(m, p) <= Count(m, q)
  {
    Subset(Matching(m, p), Matching(m, q));
  }

  lemma {:induction false} Subset<T>(a: set<T>, b: set<T>)
    requires a <= b
    ensures |a| <= |b|
  {
    assert a + (b - a) == b;
  }

  /** The members of `s` that `f` sends to `k`. */
  ghost function Fibre<T(!new), K(!new)>(s: set<T>, f: T -> K, k: K): set<T> {
    set x | x in s && f(x) == k
  }

  /** If `f` sends `s` into `keys`, and no key is hit more than `m` times, `s` has at most `m` members per key. */
  lemma {:induction false} Fibres<T(!new), K(!new)>(s: set<T>, f: T -> K, keys: set<K>, m: nat)
    requires forall x :: x in s ==> f(x) in keys
    requires forall k :: k in keys ==> |Fibre(s, f, k)| <= m
    ensures |s| <= m * |keys|
    decreases keys
  {
    if keys == {} {
      assert s == {};
    } else {
      var k :| k in keys;
      var here := Fibre(s, f, k);
      var rest := s - here;
      forall j | j in keys - {k} ensures |Fibre(rest, f, j)| <= m {
        assert Fibre(rest, f, j) == Fibre(s, f, j);
      }
      Fibres(rest, f, keys - {k}, m);
      assert |s| == |here| + |rest|;
      assert |keys - {k}| == |keys| - 1;
      assert m * |keys| == m * (|keys| - 1) + m;
    }
  }

  /** Two starts of windows of length `len` are the same or at least `len` apart. */
  predicate Apart(v: int, w: int, len: int) { v == w || v + len <= w || w + len <= v }

  /**
   * Fixed windows: members whose windows overlap one interval of the window's
   * length lie in at most two windows, so they are at most twice a window's share.
   */
  lemma TwoWindowsCover<T(!new)>(ids: set<T>, start: T -> int, len: int, from: int, share: nat)
    requires forall i :: i in ids ==> from - len < start(i) < from + len
    requires forall i, j :: i in ids && j in ids ==> Apart(start(i), start(j), len)
    requires forall i :: i in ids ==> |Fibre(ids, start, start(i))| <= share
    ensures |ids| <= 2 * share
  {
    if i :| i in ids {
      var one := Fibre(ids, start, start(i));
      if j :| j in ids && j !in one {
        var two := Fibre(ids, start, start(j));
        forall k | k in ids ensures k in one + two {
          assert Apart(start(i), start(j), len) && Apart(start(i), start(k), len) && Apart(start(j), start(k), len);
        }
        Subset(ids, one + two);
      } else {
        Subset(ids, one);
      }
    }
  }
}
