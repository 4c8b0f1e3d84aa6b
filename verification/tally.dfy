/** Counting occurrences, as the `defaultdict(int)` tallies of the graph
    statistics do, and the fact that the counts of all distinct values of a
    sequence add up to its length. */
module Tally {
  import opened Common

  /** How often `x` occurs in `s`. */
  function Count<T(==)>(s: seq<T>, x: T): nat
  {
    if s == [] then 0
    else Count(s[..|s| - 1], x) + (if s[|s| - 1] == x then 1 else 0)
  }

  lemma CountSnoc<T>(s: seq<T>, y: T, x: T)
    ensures Count(s + [y], x) == Count(s, x) + (if y == x then 1 else 0)
  {
    assert (s + [y])[..|s|] == s;
  }

  /** The count is the multiplicity in the multiset of `s`; in particular it
      is positive exactly for the elements of `s`. */
  lemma {:induction false} CountMultiplicity<T>(s: seq<T>, x: T)
    ensures Count(s, x) == multiset(s)[x]
    ensures Count(s, x) > 0 <==> x in s
  {
    if s != [] {
      var p := s[..|s| - 1];
      CountMultiplicity(p, x);
      assert s == p + [s[|s| - 1]];
    }
  }

  /** `s` with every occurrence of `x` removed. */
  function Without<T(==)>(s: seq<T>, x: T): seq<T>
  {
    if s == [] then []
    else Without(s[..|s| - 1], x) + (if s[|s| - 1] == x then [] else [s[|s| - 1]])
  }

  lemma {:induction false} WithoutCounts<T>(s: seq<T>, x: T)
    ensures |s| == Count(s, x) + |Without(s, x)|
    ensures Elems(Without(s, x)) == Elems(s) - {x}
    ensures forall y | y != x :: Count(Without(s, x), y) == Count(s, y)
  {
    if s != [] {
      var p, z := s[..|s| - 1], s[|s| - 1];
      WithoutCounts(p, x);
      assert s == p + [z];
      var w := Without(p, x);
      assert Elems(s) == Elems(p) + {z};
      if z != x {
        assert Without(s, x) == w + [z];
        forall y | y != x ensures Count(w + [z], y) == Count(s, y) {
          CountSnoc(w, z, y);
          CountSnoc(p, z, y);
        }
        assert Elems(w + [z]) == Elems(w) + {z};
      } else {
        assert Without(s, x) == w;
        forall y | y != x ensures Count(w, y) == Count(s, y) {
          CountSnoc(p, z, y);
        }
      }
    }
  }

  /** The counts in `s` of the values listed in `keys`, added up. */
  function Total<T(==)>(keys: seq<T>, s: seq<T>): int
  {
    if keys == [] then 0
    else Total(keys[..|keys| - 1], s) + Count(s, keys[|keys| - 1])
  }

  lemma {:induction false} TotalCongruent<T>(keys: seq<T>, s: seq<T>, t: seq<T>)
    requires forall k | k in keys :: Count(s, k) == Count(t, k)
    ensures Total(keys, s) == Total(keys, t)
  {
    if keys != [] {
      TotalCongruent(keys[..|keys| - 1], s, t);
      assert keys[|keys| - 1] in keys;
    }
  }

  /** Counting every distinct value once accounts for every element. */
  lemma {:induction false} TotalAll<T>(keys: seq<T>, s: seq<T>)
    requires Distinct(keys) && Elems(s) <= Elems(keys)
    ensures Total(keys, s) == |s|
  {
    if keys == [] {
      NoElems(s);
    } else {
      var p, k := keys[..|keys| - 1], keys[|keys| - 1];
      var w := Without(s, k);
      WithoutCounts(s, k);
      DistinctSplit(keys);
      TotalCongruent(p, s, w);
      TotalAll(p, w);
    }
  }

  /** Only the empty sequence has no elements. */
  lemma NoElems<T>(s: seq<T>)
    ensures Elems(s) == {} <==> s == []
  {
    if s != [] {
      assert s[0] in Elems(s);
    }
  }

  /** The last element of a sequence without repeats is not among the others. */
  lemma DistinctSplit<T>(keys: seq<T>)
    requires Distinct(keys) && keys != []
    ensures Distinct(keys[..|keys| - 1]) && keys[|keys| - 1] !in keys[..|keys| - 1]
    ensures Elems(keys) == Elems(keys[..|keys| - 1]) + {keys[|keys| - 1]}
  {
    assert keys == keys[..|keys| - 1] + [keys[|keys| - 1]];
  }

  /** `m` is a dictionary filled in the order of `s`: its keys are the
      elements of `s` and `order`, its key order, lists them as first seen. */
  ghost predicate Keyed<T(!new), V>(order: seq<T>, m: map<T, V>, s: seq<T>)
  {
    order == FirstSeen(s) && m.Keys == Elems(s)
  }

  /** Setting `m[x]` after `s` keeps the key order: `x` is appended when new. */
  lemma KeyedStep<T(!new), V>(order: seq<T>, m: map<T, V>, s: seq<T>, x: T, v: V)
    requires Keyed(order, m, s)
    ensures Keyed(if x in m then order else order + [x], m[x := v], s + [x])
  {
    FirstSeenSnoc(s, x);
    assert x in m <==> x in s;
    assert m[x := v].Keys == m.Keys + {x};
    assert Elems(s + [x]) == Elems(s) + {x};
  }

  /** `counts` is the `defaultdict(int)` filled by counting `s`, and `order`
      is its key order. */
  ghost predicate Tallies<T(!new)>(order: seq<T>, counts: map<T, int>, s: seq<T>)
  {
    && Keyed(order, counts, s)
    && forall x | x in counts :: counts[x] == Count(s, x)
  }

  /** `counts[x] += 1` on a `defaultdict(int)`. */
  function Bump<T>(counts: map<T, int>, x: T): map<T, int>
  {
    counts[x := (if x in counts then counts[x] else 0) + 1]
  }

  lemma FirstSeenSnoc<T>(s: seq<T>, x: T)
    ensures FirstSeen(s + [x]) == if x in s then FirstSeen(s) else FirstSeen(s) + [x]
  {
    assert (s + [x])[..|s|] == s;
    assert x in s <==> x in Elems(FirstSeen(s));
  }

  lemma BumpCounts<T>(counts: map<T, int>, s: seq<T>, x: T)
    requires counts.Keys == Elems(s)
    requires forall y | y in counts :: counts[y] == Count(s, y)
    ensures forall y | y in Bump(counts, x) :: Bump(counts, x)[y] == Count(s + [x], y)
  {
    forall y | y in Bump(counts, x) ensures Bump(counts, x)[y] == Count(s + [x], y) {
      CountSnoc(s, x, y);
      if y == x && x !in counts {
        CountMultiplicity(s, x);
      }
    }
  }

  /** One more element keeps the tally exact. */
  lemma TallyStep<T(!new)>(order: seq<T>, counts: map<T, int>, s: seq<T>, x: T)
    requires Tallies(order, counts, s)
    ensures Tallies(if x in counts then order else order + [x], Bump(counts, x), s + [x])
  {
    KeyedStep(order, counts, s, x, (if x in counts then counts[x] else 0) + 1);
    BumpCounts(counts, s, x);
  }

  /** `counts[x] += 1` on a `defaultdict(int)` whose key order is `order`. */
  method Increment<T(!new)>(order: seq<T>, counts: map<T, int>, ghost s: seq<T>, x: T)
    returns (order': seq<T>, counts': map<T, int>)
    requires Tallies(order, counts, s)
    ensures Tallies(order', counts', s + [x])
  {
    TallyStep(order, counts, s, x);
    order' := order;
    if x !in counts {
      order' := order + [x];
    }
    counts' := Bump(counts, x);
  }

  /** The tally's values, in key order, added up. */
  function SumValues<T>(order: seq<T>, counts: map<T, int>): int
    requires Elems(order) <= counts.Keys
  {
    if order == [] then 0
    else
      assert order[|order| - 1] in Elems(order);
      SumValues(order[..|order| - 1], counts) + counts[order[|order| - 1]]
  }

  lemma {:induction false} SumValuesTotal<T>(order: seq<T>, counts: map<T, int>, s: seq<T>)
    requires Elems(order) <= counts.Keys
    requires forall x | x in order :: counts[x] == Count(s, x)
    ensures SumValues(order, counts) == Total(order, s)
  {
    if order != [] {
      SumValuesTotal(order[..|order| - 1], counts, s);
      assert order[|order| - 1] in order;
    }
  }

  /** The values of a tally add up to the length of what it counted. */
  lemma TallySum<T(!new)>(order: seq<T>, counts: map<T, int>, s: seq<T>)
    requires Tallies(order, counts, s)
    ensures SumValues(order, counts) == |s|
  {
    SumValuesTotal(order, counts, s);
    TotalAll(order, s);
  }

  /** The tally's values in key order: `list(counts.values())`. */
  function Values<T>(order: seq<T>, counts: map<T, int>): (v: seq<int>)
    requires Elems(order) <= counts.Keys
    ensures |v| == |order| && forall i | 0 <= i < |order| :: v[i] == counts[order[i]]
  {
    seq(|order|, i requires 0 <= i < |order| => assert order[i] in Elems(order); counts[order[i]])
  }

  /** Python's `max` of a non-empty list. */
  function Max(xs: seq<int>): (m: int)
    requires xs != []
    ensures m in xs && forall x | x in xs :: x <= m
  {
    if |xs| == 1 then xs[0]
    else
      var m := Max(xs[1..]);
      assert forall x | x in xs :: x == xs[0] || x in xs[1..];
      if xs[0] > m then xs[0] else m
  }

  /** Python's `min` of a non-empty list. */
  function Min(xs: seq<int>): (m: int)
    requires xs != []
    ensures m in xs && forall x | x in xs :: m <= x
  {
    if |xs| == 1 then xs[0]
    else
      var m := Min(xs[1..]);
      assert forall x | x in xs :: x == xs[0] || x in xs[1..];
      if xs[0] < m then xs[0] else m
  }
}
