/** Values shared by every stage of the pipeline: optional and fallible
    results, file paths, the fields of a tab-separated line, the three-column
    integer rows of the triple and rating files, and the orderings that
    Python's insertion-ordered dictionaries give. */
module Common {

  datatype Option<T> = None | Some(value: T)

  /** A file on disk, named by directory, stem and extension. */
  datatype Path = Path(dir: string, stem: string, ext: string)

  /** Why a stage stops: a file it must open is absent, or a line whose
      first three fields it converts with `int()` holds something else. */
  datatype Error = MissingFile(path: Path) | NotAnInteger(line: nat)

  datatype Result<T> = Ok(value: T) | Err(error: Error)

  /** One tab-separated field: `Num(n)` when Python's `int()` accepts the
      text and yields `n`, `Str(s)` when it raises `ValueError`. */
  datatype Field = Num(n: int) | Str(s: string)

  type Line = seq<Field>

  /** A tab-separated file with its header line. */
  datatype Table = Table(header: Line, rows: seq<Line>)

  /** One row of an `(n, 3)` integer matrix: a triple `(head, relation, tail)`
      of `kg_final` or a rating `(user, item, label)` of `ratings_final`. */
  datatype Row = Row(c0: int, c1: int, c2: int)

  function Elems<T>(s: seq<T>): set<T>
  {
    set x | x in s
  }

  predicate Distinct<T(==)>(s: seq<T>)
  {
    forall i, j | 0 <= i < j < |s| :: s[i] != s[j]
  }

  lemma DistinctSnoc<T>(s: seq<T>, x: T)
    requires Distinct(s) && x !in s
    ensures Distinct(s + [x]) && Elems(s + [x]) == Elems(s) + {x}
  {
  }

  /** The distinct elements of `s`, in order of first occurrence: the key
      order of a Python dictionary filled from `s`. */
  function FirstSeen<T(==)>(s: seq<T>): (r: seq<T>)
    ensures Distinct(r) && Elems(r) == Elems(s)
    ensures |r| <= |s|
  {
    if s == [] then []
    else
      var p := FirstSeen(s[..|s| - 1]);
      assert Elems(s) == Elems(s[..|s| - 1]) + {s[|s| - 1]} by {
        assert s == s[..|s| - 1] + [s[|s| - 1]];
      }
      if s[|s| - 1] in p then p else p + [s[|s| - 1]]
  }

  /** `m` numbers the elements of `order` consecutively from `base`, in order. */
  ghost predicate NumberedFrom<K>(m: map<K, int>, order: seq<K>, base: int)
  {
    m.Keys == Elems(order) && forall i | 0 <= i < |order| :: m[order[i]] == base + i
  }

  /** A consecutive numbering is a bijection from the numbered keys onto
      `[base, base + |order|)`, and the order it follows has no repeats. */
  lemma NumberingIsBijection<K>(m: map<K, int>, order: seq<K>, base: int)
    requires NumberedFrom(m, order, base)
    ensures Distinct(order) && |m| == |order|
    ensures forall v :: v in m.Values <==> base <= v < base + |order|
    ensures forall k1, k2 | k1 in m && k2 in m && k1 != k2 :: m[k1] != m[k2]
  {
    forall v | v in m.Values ensures base <= v < base + |order| {
      var k :| k in m && m[k] == v;
      var i :| 0 <= i < |order| && order[i] == k;
    }
    forall v | base <= v < base + |order| ensures v in m.Values {
      assert m[order[v - base]] == v;
    }
    forall k1, k2 | k1 in m && k2 in m && k1 != k2 ensures m[k1] != m[k2] {
      var i :| 0 <= i < |order| && order[i] == k1;
      var j :| 0 <= j < |order| && order[j] == k2;
    }
    DistinctCard(order);
  }

  /** A sequence without repeats has as many elements as its set. */
  lemma {:induction false} DistinctCard<T>(s: seq<T>)
    requires Distinct(s)
    ensures |Elems(s)| == |s|
  {
    if s != [] {
      var p := s[..|s| - 1];
      DistinctCard(p);
      assert s == p + [s[|s| - 1]];
      assert Elems(s) == Elems(p) + {s[|s| - 1]};
      assert s[|s| - 1] !in Elems(p);
    }
  }

  /** A sequence has no repeats exactly when no element occurs twice in its multiset. */
  lemma {:induction false} DistinctMultiset<T>(s: seq<T>)
    ensures Distinct(s) <==> forall x :: multiset(s)[x] <= 1
  {
    if s != [] {
      var p, y := s[..|s| - 1], s[|s| - 1];
      DistinctMultiset(p);
      assert s == p + [y];
      if Distinct(s) {
        assert Distinct(p);
        assert y !in p;
      } else {
        var i, j :| 0 <= i < j < |s| && s[i] == s[j];
        if j < |s| - 1 {
          assert p[i] == p[j];
          var x :| multiset(p)[x] > 1;
          assert multiset(s)[x] == multiset(p)[x] + multiset([y])[x];
        } else {
          assert s[i] in p;
          assert multiset(s)[y] == multiset(p)[y] + 1;
        }
      }
    }
  }

  /** A permutation of a sequence without repeats has no repeats. */
  lemma DistinctPermutation<T>(a: seq<T>, b: seq<T>)
    requires Distinct(a) && multiset(a) == multiset(b)
    ensures Distinct(b)
  {
    DistinctMultiset(a);
    DistinctMultiset(b);
  }

  /** Some element of a non-empty set (the iteration of a Python set, whose
      order the model does not fix). */
  lemma PickFrom<T>(s: set<T>) returns (x: T)
    requires s != {}
    ensures x in s
  {
    if forall y :: y !in s {
      assert false;
    }
    x :| x in s;
  }

  /** The elements of a set in some order, each once. */
  lemma {:induction false} Enumerate<T>(s: set<T>) returns (e: seq<T>)
    ensures Distinct(e) && Elems(e) == s && |e| == |s|
    decreases |s|
  {
    if s == {} {
      e := [];
    } else {
      var x := PickFrom(s);
      var rest := Enumerate(s - {x});
      e := rest + [x];
      assert Elems(e) == Elems(rest) + {x};
    }
  }

  /** A map takes at most as many values as it has keys. */
  lemma {:induction false} ValuesCard<K, V>(m: map<K, V>)
    ensures |m.Values| <= |m|
  {
    if m != map[] {
      var k :| k in m;
      var rest := m - {k};
      ValuesCard(rest);
      assert m.Values <= rest.Values + {m[k]} by {
        forall v | v in m.Values ensures v in rest.Values + {m[k]} {
          var k' :| k' in m && m[k'] == v;
          if k' != k {
            assert k' in rest;
          }
        }
      }
      assert |rest.Keys| == |m.Keys - {k}|;
      SubsetCard(m.Values, rest.Values + {m[k]});
    }
  }

  /** The integers `lo .. hi-1`. */
  function Interval(lo: int, hi: int): set<int>
  {
    Elems(seq(if lo <= hi then hi - lo else 0, i => lo + i))
  }

  lemma IntervalSpec(lo: int, hi: int)
    ensures forall x :: x in Interval(lo, hi) <==> lo <= x < hi
    ensures lo <= hi ==> |Interval(lo, hi)| == hi - lo
  {
    var s := seq(if lo <= hi then hi - lo else 0, i => lo + i);
    forall x | lo <= x < hi ensures x in Interval(lo, hi) {
      assert s[x - lo] == x;
    }
    DistinctCard(s);
  }

  lemma SubsetCard<T>(a: set<T>, b: set<T>)
    requires a <= b
    ensures |a| <= |b|
  {
    assert b == a + (b - a);
  }
}
