/** The labelling threshold of `preprocess_music` (src/preprocess.py:153-155):
    the median of every kept weight, or 1 when there is none. The median of
    integers is a multiple of one half, so the model keeps twice its value
    and labels a weight `w` positive when `2 * w` reaches it. */
module Threshold {
  import opened Common
  import opened Ranking

  function Id(x: int): int
  {
    x
  }

  /** Twice the median of the weights: the middle one of the sorted weights
      counted twice, or the sum of the two middle ones. Twice the fallback
      threshold 1 when there are no weights. */
  function Threshold2(ws: seq<int>): int
  {
    if ws == [] then 2
    else
      SortDescSpec(ws, Id);
      Middle2(SortDesc(ws, Id))
  }

  /** Twice the median of a sorted non-empty sequence. */
  function Middle2(s: seq<int>): int
    requires s != []
  {
    var n := |s|;
    if n % 2 == 1 then 2 * s[n / 2] else s[n / 2 - 1] + s[n / 2]
  }

  /** `label = 1 if weight >= threshold else 0`. */
  function Label(w: int, threshold2: int): int
  {
    if 2 * w >= threshold2 then 1 else 0
  }

  function Repeat(k: int, n: nat): seq<int>
  {
    if n == 0 then [] else [k] + Repeat(k, n - 1)
  }

  /** The copies of `k` in a sequence of integers are fixed by how many
      there are. */
  lemma {:induction false} WithKeyCount(s: seq<int>, k: int)
    ensures WithKey(s, Id, k) == Repeat(k, multiset(s)[k])
  {
    if s != [] {
      WithKeyCount(s[1..], k);
      assert s == [s[0]] + s[1..];
      assert multiset(s)[k] == (if s[0] == k then 1 else 0) + multiset(s[1..])[k];
    }
  }

  /** The median depends on the weights only, not on the order in which the
      dictionaries hand them out. */
  lemma MedianIgnoresOrder(a: seq<int>, b: seq<int>)
    requires multiset(a) == multiset(b)
    ensures Threshold2(a) == Threshold2(b)
  {
    assert |a| == |multiset(a)| == |multiset(b)| == |b|;
    if a != [] {
      SortDescSpec(a, Id);
      SortDescSpec(b, Id);
      forall k ensures WithKey(SortDesc(a, Id), Id, k) == WithKey(SortDesc(b, Id), Id, k) {
        WithKeyCount(a, k);
        WithKeyCount(b, k);
      }
      StableSortUnique(SortDesc(a, Id), SortDesc(b, Id), Id);
    }
  }

  /** How many weights reach the threshold. */
  function Reaching(s: seq<int>, threshold2: int): nat
  {
    if s == [] then 0 else (if 2 * s[0] >= threshold2 then 1 else 0) + Reaching(s[1..], threshold2)
  }

  /** How many weights do not exceed the threshold. */
  function NotExceeding(s: seq<int>, threshold2: int): nat
  {
    if s == [] then 0 else (if 2 * s[0] <= threshold2 then 1 else 0) + NotExceeding(s[1..], threshold2)
  }

  lemma {:induction false} CountsSplit(a: seq<int>, b: seq<int>, t: int)
    ensures Reaching(a + b, t) == Reaching(a, t) + Reaching(b, t)
    ensures NotExceeding(a + b, t) == NotExceeding(a, t) + NotExceeding(b, t)
  {
    if a == [] {
      assert a + b == b;
    } else {
      CountsSplit(a[1..], b, t);
      assert (a + b)[0] == a[0];
      assert (a + b)[1..] == a[1..] + b;
    }
  }

  lemma {:induction false} CountsInsert(x: int, s: seq<int>, t: int)
    ensures Reaching(Insert(x, s, Id), t) == Reaching(s, t) + (if 2 * x >= t then 1 else 0)
    ensures NotExceeding(Insert(x, s, Id), t) == NotExceeding(s, t) + (if 2 * x <= t then 1 else 0)
  {
    if s == [] || s[0] <= x {
      assert ([x] + s)[1..] == s;
    } else {
      CountsInsert(x, s[1..], t);
      assert ([s[0]] + Insert(x, s[1..], Id))[1..] == Insert(x, s[1..], Id);
    }
  }

  lemma {:induction false} CountsSort(s: seq<int>, t: int)
    ensures Reaching(SortDesc(s, Id), t) == Reaching(s, t)
    ensures NotExceeding(SortDesc(s, Id), t) == NotExceeding(s, t)
  {
    if s != [] {
      CountsSort(s[1..], t);
      CountsInsert(s[0], SortDesc(s[1..], Id), t);
    }
  }

  lemma {:induction false} AllReach(s: seq<int>, t: int)
    requires forall i | 0 <= i < |s| :: 2 * s[i] >= t
    ensures Reaching(s, t) == |s|
  {
    if s != [] {
      AllReach(s[1..], t);
    }
  }

  lemma {:induction false} NoneExceed(s: seq<int>, t: int)
    requires forall i | 0 <= i < |s| :: 2 * s[i] <= t
    ensures NotExceeding(s, t) == |s|
  {
    if s != [] {
      NoneExceed(s[1..], t);
    }
  }

  /** The median splits the weights: at least half of them reach the
      threshold and at least half do not exceed it. */
  lemma MedianSplits(ws: seq<int>)
    requires ws != []
    ensures 2 * Reaching(ws, Threshold2(ws)) >= |ws|
    ensures 2 * NotExceeding(ws, Threshold2(ws)) >= |ws|
  {
    SortDescSpec(ws, Id);
    CountsSort(ws, Threshold2(ws));
    SortedReaching(SortDesc(ws, Id));
    SortedNotExceeding(SortDesc(ws, Id));
  }

  lemma DescendingInts(s: seq<int>)
    requires DescendingBy(s, Id)
    ensures forall i, j | 0 <= i <= j < |s| :: s[i] >= s[j]
  {
    forall i, j | 0 <= i <= j < |s| ensures s[i] >= s[j] {
      if i < j {
        assert Id(s[i]) >= Id(s[j]);
      }
    }
  }

  lemma ReachingPrefix(s: seq<int>, k: nat, t: int)
    requires k <= |s|
    requires forall i | 0 <= i < k :: 2 * s[i] >= t
    ensures Reaching(s, t) >= k
  {
    assert s == s[..k] + s[k..];
    CountsSplit(s[..k], s[k..], t);
    AllReach(s[..k], t);
  }

  lemma NotExceedingSuffix(s: seq<int>, j: nat, t: int)
    requires j <= |s|
    requires forall i | j <= i < |s| :: 2 * s[i] <= t
    ensures NotExceeding(s, t) >= |s| - j
  {
    assert s == s[..j] + s[j..];
    CountsSplit(s[..j], s[j..], t);
    NoneExceed(s[j..], t);
  }

  lemma SortedReaching(s: seq<int>)
    requires s != [] && DescendingBy(s, Id)
    ensures 2 * Reaching(s, Middle2(s)) >= |s|
  {
    DescendingInts(s);
    var n, m := |s|, |s| / 2;
    if n % 2 == 1 {
      assert n == 2 * m + 1 && Middle2(s) == 2 * s[m];
      ReachingPrefix(s, m + 1, Middle2(s));
    } else {
      assert n == 2 * m && Middle2(s) == s[m - 1] + s[m];
      ReachingPrefix(s, m, Middle2(s));
    }
  }

  lemma SortedNotExceeding(s: seq<int>)
    requires s != [] && DescendingBy(s, Id)
    ensures 2 * NotExceeding(s, Middle2(s)) >= |s|
  {
    DescendingInts(s);
    var n, m := |s|, |s| / 2;
    if n % 2 == 1 {
      assert n == 2 * m + 1 && Middle2(s) == 2 * s[m];
    } else {
      assert n == 2 * m && Middle2(s) == s[m - 1] + s[m];
    }
    NotExceedingSuffix(s, m, Middle2(s));
  }
}
