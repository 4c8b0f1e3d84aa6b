/** `ratings_final.txt` (src/preprocess.py:153-186): the weights that set the
    threshold, and per user one line for every listened artist, labelled by
    the threshold, followed by as many sampled unheard artists labelled 0 as
    there are positives, or as there are unheard artists if fewer. */
module Ratings {
  import opened Common
  import opened Threshold

  /** The least element of a non-empty set of integers. */
  lemma {:induction false} LeastOf(s: set<int>) returns (k: int)
    requires s != {}
    ensures k in s && forall j | j in s :: k <= j
    decreases |s|
  {
    var x := PickFrom(s);
    if s == {x} {
      k := x;
    } else {
      var k' := LeastOf(s - {x});
      k := if x < k' then x else k';
      forall j | j in s ensures k <= j {
        if j != x {
          assert j in s - {x};
        }
      }
    }
  }

  lemma HasLeast(s: set<int>)
    requires s != {}
    ensures exists k | k in s :: forall j | j in s :: k <= j
  {
    var k := LeastOf(s);
  }

  ghost function MinKey(s: set<int>): (k: int)
    requires s != {}
    ensures k in s && forall j | j in s :: k <= j
  {
    HasLeast(s);
    var k :| k in s && forall j | j in s :: k <= j;
    k
  }

  lemma MinKeyOfSubset(s: set<int>, t: set<int>, k: int)
    requires t <= s && k in t && s != {} && k == MinKey(s)
    ensures MinKey(t) == k
  {
  }

  /** The values of a dictionary, with their repetitions. */
  ghost function ValueBag(m: map<int, int>): multiset<int>
    decreases |m|
  {
    if m == map[] then multiset{}
    else
      var k := MinKey(m.Keys);
      multiset{m[k]} + ValueBag(m - {k})
  }

  /** `ValueBag` does not depend on the key it takes out first. */
  lemma {:induction false} ValueBagRemove(m: map<int, int>, k: int)
    requires k in m
    ensures ValueBag(m) == multiset{m[k]} + ValueBag(m - {k})
    decreases |m|
  {
    var k0 := MinKey(m.Keys);
    if k != k0 {
      ValueBagRemove(m - {k0}, k);
      ValueBagAfter(m, k, k0);
    }
  }

  lemma ValueBagAfter(m: map<int, int>, k: int, k0: int)
    requires k in m && m.Keys != {} && k0 == MinKey(m.Keys) && k != k0
    ensures ValueBag(m - {k}) == multiset{m[k0]} + ValueBag(m - {k0} - {k})
  {
    var m' := m - {k};
    assert k0 in m'.Keys;
    MinKeyOfSubset(m.Keys, m'.Keys, k0);
    assert m' - {k0} == m - {k0} - {k};
  }

  /** The multiset of `all_weights`: every value of every inner dictionary,
      the users taken in `order`. */
  ghost function WeightBag(order: seq<int>, weights: map<int, map<int, int>>): multiset<int>
  {
    if order == [] then multiset{}
    else
      var u := order[|order| - 1];
      WeightBag(order[..|order| - 1], weights) + (if u in weights then ValueBag(weights[u]) else multiset{})
  }

  /** `all_weights = [w for weights in user_weights.values() for w in
      weights.values()]` (src/preprocess.py:153), the outer dictionary's keys
      being `order`. */
  method AllWeights(order: seq<int>, weights: map<int, map<int, int>>) returns (ws: seq<int>)
    requires Elems(order) == weights.Keys
    ensures multiset(ws) == WeightBag(order, weights)
  {
    ws := [];
    for i := 0 to |order|
      invariant multiset(ws) == WeightBag(order[..i], weights)
    {
      assert order[..i + 1][..i] == order[..i];
      var vs := Values(weights[order[i]]);
      ws := ws + vs;
    }
    assert order[..|order|] == order;
  }

  /** The inner `for w in weights.values()`, in the dictionary's order, which
      the model leaves open. */
  method Values(m: map<int, int>) returns (vs: seq<int>)
    ensures multiset(vs) == ValueBag(m)
  {
    vs := [];
    var rest := m;
    while rest != map[]
      invariant multiset(vs) + ValueBag(rest) == ValueBag(m)
      decreases |rest|
    {
      ghost var someKey := PickFrom(rest.Keys);
      var a :| a in rest;
      ValueBagRemove(rest, a);
      vs := vs + [rest[a]];
      rest := rest - {a};
    }
  }

  /** `user_weights[user_id]`: a `defaultdict(dict)` reads a missing user as
      an empty dictionary. */
  function WeightsOf(weights: map<int, map<int, int>>, u: int): map<int, int>
  {
    if u in weights then weights[u] else map[]
  }

  /** `.get(artist_idx, 0)`. */
  function Get(w: map<int, int>, a: int): int
  {
    if a in w then w[a] else 0
  }

  function Min(x: int, y: int): int
  {
    if x < y then x else y
  }

  /** The lines written for one user: every positive once, labelled by its
      weight against the threshold, then `min(|pos|, |unheard|)` distinct
      unheard artists labelled 0. */
  ghost predicate RatingBlock(rows: seq<Row>, userIdx: int, pos: set<int>, w: map<int, int>, threshold2: int, allArtists: set<int>)
  {
    var np := |pos|;
    && |rows| == np + Min(np, |allArtists - pos|)
    && (forall i | 0 <= i < |rows| :: rows[i].c0 == userIdx)
    && (forall i | 0 <= i < np :: rows[i].c1 in pos && rows[i].c2 == Label(Get(w, rows[i].c1), threshold2))
    && (forall a | a in pos :: exists i | 0 <= i < np :: rows[i].c1 == a)
    && (forall i | np <= i < |rows| :: rows[i].c1 in allArtists && rows[i].c1 !in pos && rows[i].c2 == 0)
    && (forall i, j | np <= i < j < |rows| :: rows[i].c1 != rows[j].c1)
  }

  /** The lines of one user (src/preprocess.py:170-186); the order in which a
      Python set yields the positives and the draw of `np.random.choice` are
      left open. */
  method UserRatings(userIdx: int, pos: set<int>, w: map<int, int>, threshold2: int, allArtists: set<int>)
    returns (rows: seq<Row>)
    ensures RatingBlock(rows, userIdx, pos, w, threshold2, allArtists)
  {
    rows := PositiveLines(userIdx, pos, w, threshold2);
    var neg := allArtists - pos;
    var nNeg := Min(|pos|, |neg|);
    if nNeg > 0 {
      var posRows := rows;
      var negRows := NegativeLines(userIdx, neg, nNeg);
      rows := posRows + negRows;
      forall a | a in pos ensures exists i | 0 <= i < |pos| :: rows[i].c1 == a {
        var i :| 0 <= i < |posRows| && posRows[i].c1 == a;
        assert rows[i] == posRows[i];
      }
    }
  }

  /** The positive lines for the artists `order`, in that order. */
  function PositiveRows(userIdx: int, order: seq<int>, w: map<int, int>, threshold2: int): (rows: seq<Row>)
    ensures |rows| == |order|
    ensures forall i | 0 <= i < |order| :: rows[i] == Row(userIdx, order[i], Label(Get(w, order[i]), threshold2))
  {
    seq(|order|, i requires 0 <= i < |order| => Row(userIdx, order[i], Label(Get(w, order[i]), threshold2)))
  }

  /** One line per positive, `f'{user_idx}\t{artist_idx}\t{label}'`
      (src/preprocess.py:173-177). */
  method PositiveLines(userIdx: int, pos: set<int>, w: map<int, int>, threshold2: int) returns (rows: seq<Row>)
    ensures |rows| == |pos|
    ensures forall i | 0 <= i < |rows| :: rows[i].c0 == userIdx && rows[i].c1 in pos && rows[i].c2 == Label(Get(w, rows[i].c1), threshold2)
    ensures forall a | a in pos :: exists i | 0 <= i < |rows| :: rows[i].c1 == a
  {
    rows := [];
    var todo := pos;
    ghost var done: seq<int> := [];
    while todo != {}
      invariant Visiting(done, todo, pos)
      invariant rows == PositiveRows(userIdx, done, w, threshold2)
      decreases todo
    {
      ghost var someIdx := PickFrom(todo);
      var artistIdx :| artistIdx in todo;
      var weight := Get(w, artistIdx);
      var rating := if 2 * weight >= threshold2 then 1 else 0;
      PositiveRowsSnoc(userIdx, done, artistIdx, w, threshold2);
      VisitOne(done, todo, pos, artistIdx);
      rows := rows + [Row(userIdx, artistIdx, rating)];
      done := done + [artistIdx];
      todo := todo - {artistIdx};
    }
    assert Elems(done) == pos;
    PositiveRowsCover(userIdx, done, w, threshold2);
  }

  /** The artists of `pos` taken so far, in order, and those still to take. */
  ghost predicate Visiting(done: seq<int>, todo: set<int>, pos: set<int>)
  {
    Elems(done) + todo == pos && Elems(done) !! todo && Distinct(done)
  }

  lemma VisitOne(done: seq<int>, todo: set<int>, pos: set<int>, a: int)
    requires Visiting(done, todo, pos) && a in todo
    ensures Visiting(done + [a], todo - {a}, pos)
  {
    assert a !in Elems(done);
    DistinctSnoc(done, a);
  }

  lemma PositiveRowsSnoc(userIdx: int, order: seq<int>, a: int, w: map<int, int>, threshold2: int)
    ensures PositiveRows(userIdx, order + [a], w, threshold2)
         == PositiveRows(userIdx, order, w, threshold2) + [Row(userIdx, a, Label(Get(w, a), threshold2))]
  {
  }

  /** Lines for distinct artists: one per artist, each labelled by its weight. */
  lemma PositiveRowsCover(userIdx: int, order: seq<int>, w: map<int, int>, threshold2: int)
    requires Distinct(order)
    ensures var rows := PositiveRows(userIdx, order, w, threshold2);
            && |rows| == |Elems(order)|
            && (forall i | 0 <= i < |rows| :: rows[i].c0 == userIdx && rows[i].c1 in Elems(order) && rows[i].c2 == Label(Get(w, rows[i].c1), threshold2))
            && (forall a | a in Elems(order) :: exists i | 0 <= i < |rows| :: rows[i].c1 == a)
  {
    var rows := PositiveRows(userIdx, order, w, threshold2);
    DistinctCard(order);
    forall a | a in Elems(order) ensures exists i | 0 <= i < |rows| :: rows[i].c1 == a {
      var i :| 0 <= i < |order| && order[i] == a;
      assert rows[i].c1 == a;
    }
  }

  /** `np.random.choice(list(neg_artists), size=n_neg, replace=False)`: `n`
      distinct unheard artists, each written with label 0
      (src/preprocess.py:181-186). */
  method NegativeLines(userIdx: int, neg: set<int>, n: nat) returns (rows: seq<Row>)
    requires n <= |neg|
    ensures |rows| == n
    ensures forall i | 0 <= i < |rows| :: rows[i].c0 == userIdx && rows[i].c1 in neg && rows[i].c2 == 0
    ensures forall i, j | 0 <= i < j < |rows| :: rows[i].c1 != rows[j].c1
  {
    ghost var e := Enumerate(neg);
    assert Distinct(e[..n]) && Elems(e[..n]) <= neg && |e[..n]| == n;
    var sampled :| Distinct(sampled) && Elems(sampled) <= neg && |sampled| == n;
    rows := [];
    for j := 0 to |sampled|
      invariant |rows| == j
      invariant forall i | 0 <= i < j :: rows[i] == Row(userIdx, sampled[i], 0)
    {
      rows := rows + [Row(userIdx, sampled[j], 0)];
    }
    forall i | 0 <= i < |rows| ensures rows[i].c1 in neg {
      assert sampled[i] in Elems(sampled);
    }
    forall i, j | 0 <= i < j < |rows| ensures rows[i].c1 != rows[j].c1 {
      assert rows[i].c1 == sampled[i] && rows[j].c1 == sampled[j];
      assert Distinct(sampled);
      assert sampled[i] != sampled[j];
    }
  }

  function Concat(blocks: seq<seq<Row>>): seq<Row>
  {
    if blocks == [] then [] else Concat(blocks[..|blocks| - 1]) + blocks[|blocks| - 1]
  }

  /** The writing loop over `user_pos_ratings.items()` (src/preprocess.py:166-186),
      whose keys are `users` in insertion order: the file is the users'
      blocks one after the other. */
  method WriteRatings(users: seq<int>, pos: map<int, set<int>>, weights: map<int, map<int, int>>,
                      userIndex: map<int, int>, threshold2: int, allArtists: set<int>)
    returns (rows: seq<Row>, ghost blocks: seq<seq<Row>>)
    requires Elems(users) == pos.Keys && pos.Keys <= userIndex.Keys
    ensures |blocks| == |users| && rows == Concat(blocks)
    ensures forall i | 0 <= i < |users| ::
              users[i] in pos && users[i] in userIndex &&
              RatingBlock(blocks[i], userIndex[users[i]], pos[users[i]], WeightsOf(weights, users[i]), threshold2, allArtists)
  {
    rows, blocks := [], [];
    for k := 0 to |users|
      invariant |blocks| == k && rows == Concat(blocks)
      invariant forall i | 0 <= i < k :: UserBlock(blocks[i], users[i], pos, weights, userIndex, threshold2, allArtists)
    {
      var userId := users[k];
      assert userId in Elems(users);
      var block := UserRatings(userIndex[userId], pos[userId], WeightsOf(weights, userId), threshold2, allArtists);
      ConcatSnoc(blocks, block);
      ghost var blocks' := blocks + [block];
      forall i | 0 <= i < k + 1 ensures UserBlock(blocks'[i], users[i], pos, weights, userIndex, threshold2, allArtists) {
        if i < k {
          assert blocks'[i] == blocks[i];
        }
      }
      rows := rows + block;
      blocks := blocks';
    }
  }

  /** The lines written for the user `u` of the loop. */
  ghost predicate UserBlock(block: seq<Row>, u: int, pos: map<int, set<int>>, weights: map<int, map<int, int>>,
                            userIndex: map<int, int>, threshold2: int, allArtists: set<int>)
  {
    u in pos && u in userIndex && RatingBlock(block, userIndex[u], pos[u], WeightsOf(weights, u), threshold2, allArtists)
  }

  lemma ConcatSnoc(blocks: seq<seq<Row>>, block: seq<Row>)
    ensures Concat(blocks + [block]) == Concat(blocks) + block
  {
    assert (blocks + [block])[..|blocks|] == blocks;
  }

  /** Every line of the file is labelled 0 or 1, and a line labelled 1 is a
      listened artist whose weight reaches the threshold. */
  lemma {:induction false} RatingLabels(users: seq<int>, pos: map<int, set<int>>, weights: map<int, map<int, int>>,
                                       userIndex: map<int, int>, threshold2: int, allArtists: set<int>, blocks: seq<seq<Row>>)
    requires |blocks| == |users|
    requires forall i | 0 <= i < |users| ::
               users[i] in pos && users[i] in userIndex &&
               RatingBlock(blocks[i], userIndex[users[i]], pos[users[i]], WeightsOf(weights, users[i]), threshold2, allArtists)
    ensures forall r | r in Concat(blocks) :: r.c2 == 0 || r.c2 == 1
    ensures forall r | r in Concat(blocks) && r.c2 == 1 ::
              exists i | 0 <= i < |users| :: r.c0 == userIndex[users[i]] && r.c1 in pos[users[i]]
                                           && 2 * Get(WeightsOf(weights, users[i]), r.c1) >= threshold2
  {
    if blocks != [] {
      var n := |blocks| - 1;
      RatingLabels(users[..n], pos, weights, userIndex, threshold2, allArtists, blocks[..n]);
      forall r | r in blocks[n]
        ensures r.c2 == 0 || r.c2 == 1
        ensures r.c2 == 1 ==> r.c0 == userIndex[users[n]] && r.c1 in pos[users[n]]
                              && 2 * Get(WeightsOf(weights, users[n]), r.c1) >= threshold2
      {
        var j :| 0 <= j < |blocks[n]| && blocks[n][j] == r;
      }
      forall r | r in Concat(blocks) && r.c2 == 1
        ensures exists i | 0 <= i < |users| :: r.c0 == userIndex[users[i]] && r.c1 in pos[users[i]]
                                              && 2 * Get(WeightsOf(weights, users[i]), r.c1) >= threshold2
      {
        if r in Concat(blocks[..n]) {
          var i :| 0 <= i < n && r.c0 == userIndex[users[..n][i]] && r.c1 in pos[users[..n][i]]
                   && 2 * Get(WeightsOf(weights, users[..n][i]), r.c1) >= threshold2;
          assert users[..n][i] == users[i];
        } else {
          assert r in blocks[n];
        }
      }
    }
  }
}
