/** Artist-artist similarity by co-listening (src/preprocess.py:241-275):
    the users of every artist, then for every user every unordered pair of
    the artists it listened to, in canonical order `(smaller, larger)`,
    counted once per user; the pairs with at least two co-listeners are
    kept. */
module Similarity {
  import opened Common
  import opened Relations
  import Tally

  /** `artist_users[artist_idx]` holds user `u`. */
  predicate Hears(listeners: map<int, set<int>>, a: int, u: int)
  {
    a in listeners && u in listeners[a]
  }

  /** The user indices of the relations with artist `a`. */
  function ListenersOf(rels: seq<Relation>, a: int, nArtists: int): set<int>
  {
    if rels == [] then {}
    else
      var r := rels[|rels| - 1];
      ListenersOf(rels[..|rels| - 1], a, nArtists) + (if r.artist == a then {r.userEntity - nArtists} else {})
  }

  function ArtistsOfRelations(rels: seq<Relation>): seq<int>
  {
    seq(|rels|, i requires 0 <= i < |rels| => rels[i].artist)
  }

  lemma {:induction false} NoRelations(rels: seq<Relation>, a: int, nArtists: int)
    requires a !in Elems(ArtistsOfRelations(rels))
    ensures ListenersOf(rels, a, nArtists) == {}
  {
    if rels != [] {
      var p := rels[..|rels| - 1];
      assert ArtistsOfRelations(rels) == ArtistsOfRelations(p) + [rels[|rels| - 1].artist];
      NoRelations(p, a, nArtists);
    }
  }

  /** `artist_users` after the relations `rels`: keyed by their artists in
      first-seen order, each holding the set of its users. */
  ghost predicate ArtistUsers(rels: seq<Relation>, nArtists: int, order: seq<int>, listeners: map<int, set<int>>)
  {
    && Tally.Keyed(order, listeners, ArtistsOfRelations(rels))
    && forall a | a in listeners :: listeners[a] == ListenersOf(rels, a, nArtists)
  }

  lemma RelationSnoc(rels: seq<Relation>, r: Relation, nArtists: int)
    ensures ArtistsOfRelations(rels + [r]) == ArtistsOfRelations(rels) + [r.artist]
    ensures forall a :: ListenersOf(rels + [r], a, nArtists)
                        == ListenersOf(rels, a, nArtists) + (if r.artist == a then {r.userEntity - nArtists} else {})
  {
    assert (rels + [r])[..|rels|] == rels;
  }

  /** `artist_users[artist_idx].add(user_idx)` on a `defaultdict(set)`
      (src/preprocess.py:247-249). */
  method AddListener(order: seq<int>, listeners: map<int, set<int>>, ghost rels: seq<Relation>, r: Relation, nArtists: int)
    returns (order': seq<int>, listeners': map<int, set<int>>)
    requires ArtistUsers(rels, nArtists, order, listeners)
    ensures ArtistUsers(rels + [r], nArtists, order', listeners')
  {
    RelationSnoc(rels, r, nArtists);
    var userIdx := r.userEntity - nArtists;
    if r.artist !in listeners {
      NoRelations(rels, r.artist, nArtists);
    }
    listeners' := listeners[r.artist := (if r.artist in listeners then listeners[r.artist] else {}) + {userIdx}];
    forall a | a in listeners' ensures listeners'[a] == ListenersOf(rels + [r], a, nArtists) {
      if a != r.artist {
        assert listeners'[a] == listeners[a];
      }
    }
    Tally.KeyedStep(order, listeners, ArtistsOfRelations(rels), r.artist, listeners'[r.artist]);
    order' := order;
    if r.artist !in listeners {
      order' := order + [r.artist];
    }
  }

  /** The `artist_users` loop (src/preprocess.py:245-249): the artists in
      first-seen order, each with the set of its users. */
  method BuildArtistUsers(rels: seq<Relation>, nArtists: int) returns (order: seq<int>, listeners: map<int, set<int>>)
    ensures order == FirstSeen(ArtistsOfRelations(rels)) && listeners.Keys == Elems(order)
    ensures forall a | a in listeners :: listeners[a] == ListenersOf(rels, a, nArtists)
  {
    order, listeners := [], map[];
    for i := 0 to |rels|
      invariant ArtistUsers(rels[..i], nArtists, order, listeners)
    {
      assert rels[..i + 1] == rels[..i] + [rels[i]];
      order, listeners := AddListener(order, listeners, rels[..i], rels[i], nArtists);
    }
    assert rels[..|rels|] == rels;
  }

  /** The number of users among `0 .. n-1` that listened to both artists. */
  function CoCount(listeners: map<int, set<int>>, a1: int, a2: int, n: nat): nat
  {
    if n == 0 then 0
    else CoCount(listeners, a1, a2, n - 1) + (if Hears(listeners, a1, n - 1) && Hears(listeners, a2, n - 1) then 1 else 0)
  }

  function CoListeners(listeners: map<int, set<int>>, a1: int, a2: int, n: nat): set<int>
  {
    set u | 0 <= u < n && Hears(listeners, a1, u) && Hears(listeners, a2, u)
  }

  /** The count is the number of co-listeners, whatever order the users are
      visited in. */
  lemma {:induction false} CoCountIsCard(listeners: map<int, set<int>>, a1: int, a2: int, n: nat)
    ensures CoCount(listeners, a1, a2, n) == |CoListeners(listeners, a1, a2, n)|
  {
    if n > 0 {
      CoCountIsCard(listeners, a1, a2, n - 1);
      if Hears(listeners, a1, n - 1) && Hears(listeners, a2, n - 1) {
        assert CoListeners(listeners, a1, a2, n) == CoListeners(listeners, a1, a2, n - 1) + {n - 1};
      } else {
        assert CoListeners(listeners, a1, a2, n) == CoListeners(listeners, a1, a2, n - 1);
      }
    }
  }

  /** The canonical order of a pair: `if artist1 > artist2: swap`. */
  function Canon(a: int, b: int): (int, int)
  {
    if a > b then (b, a) else (a, b)
  }

  /** `user_artists` for one user: the artists, in `artist_users` order, that
      the user listened to. */
  function HeardBy(order: seq<int>, listeners: map<int, set<int>>, u: int): seq<int>
  {
    if order == [] then []
    else
      var a := order[|order| - 1];
      HeardBy(order[..|order| - 1], listeners, u) + (if Hears(listeners, a, u) then [a] else [])
  }

  lemma {:induction false} HeardBySpec(order: seq<int>, listeners: map<int, set<int>>, u: int)
    requires Distinct(order)
    ensures Distinct(HeardBy(order, listeners, u))
    ensures forall a :: a in HeardBy(order, listeners, u) <==> a in order && Hears(listeners, a, u)
  {
    if order != [] {
      var p := order[..|order| - 1];
      HeardBySpec(p, listeners, u);
      assert order == p + [order[|order| - 1]];
      assert order[|order| - 1] !in p;
    }
  }

  /** The pairs counted for positions `(i', j')` of `list` that the nested
      loops have passed when they stand at `(i, j)`. */
  function Done(list: seq<int>, i: int, j: int): set<(int, int)>
  {
    set i', j' | 0 <= i' < j' < |list| && (i' < i || (i' == i && j' < j)) :: Canon(list[i'], list[j'])
  }

  function Get(sim: map<(int, int), int>, p: (int, int)): int
  {
    if p in sim then sim[p] else 0
  }

  /** The counters while the loops of user `u` stand at `(i, j)`. */
  ghost predicate Counting(sim: map<(int, int), int>, simOrder: seq<(int, int)>, listeners: map<int, set<int>>,
                           u: nat, list: seq<int>, i: int, j: int)
  {
    && Distinct(simOrder) && Elems(simOrder) == sim.Keys
    && (forall p | p in sim :: p.0 < p.1 && sim[p] >= 1)
    && (forall p: (int, int) | p.0 < p.1 ::
          Get(sim, p) == CoCount(listeners, p.0, p.1, u) + (if p in Done(list, i, j) then 1 else 0))
  }

  /** In a list without repeats, two positions' canonical pair determines the
      positions. */
  lemma CanonInjective(list: seq<int>, i1: int, j1: int, i2: int, j2: int)
    requires Distinct(list)
    requires 0 <= i1 < j1 < |list| && 0 <= i2 < j2 < |list|
    requires Canon(list[i1], list[j1]) == Canon(list[i2], list[j2])
    ensures i1 == i2 && j1 == j2
  {
  }

  lemma DoneStep(list: seq<int>, i: int, j: int)
    requires Distinct(list) && 0 <= i < j < |list|
    ensures Done(list, i, j + 1) == Done(list, i, j) + {Canon(list[i], list[j])}
    ensures Canon(list[i], list[j]) !in Done(list, i, j)
    ensures list[i] != list[j]
  {
    var c := Canon(list[i], list[j]);
    if c in Done(list, i, j) {
      var i', j' :| 0 <= i' < j' < |list| && (i' < i || (i' == i && j' < j)) && Canon(list[i'], list[j']) == c;
      CanonInjective(list, i, j, i', j');
    }
  }

  lemma DoneRow(list: seq<int>, i: int)
    requires 0 <= i < |list|
    ensures Done(list, i, |list|) == Done(list, i + 1, 0)
    ensures Done(list, i, i + 1) == Done(list, i, 0)
  {
  }

  /** After every position pair, the pairs counted for a user are the
      canonical pairs of two distinct artists that the user listened to. */
  lemma DoneAll(order: seq<int>, listeners: map<int, set<int>>, u: int, p: (int, int))
    requires Distinct(order) && p.0 < p.1
    ensures var list := HeardBy(order, listeners, u);
            p in Done(list, |list|, 0) <==> p.0 in order && p.1 in order && Hears(listeners, p.0, u) && Hears(listeners, p.1, u)
  {
    var list := HeardBy(order, listeners, u);
    HeardBySpec(order, listeners, u);
    if p.0 in list && p.1 in list {
      var i' :| 0 <= i' < |list| && list[i'] == p.0;
      var j' :| 0 <= j' < |list| && list[j'] == p.1;
      if i' < j' {
        assert Canon(list[i'], list[j']) == p;
      } else {
        assert Canon(list[j'], list[i']) == p;
      }
    }
  }

  /** Incrementing the counter of the pair at `(i, j)`, first inserting it
      at the end of the key order when new. */
  lemma CountingStep(sim: map<(int, int), int>, simOrder: seq<(int, int)>, listeners: map<int, set<int>>,
                     u: nat, list: seq<int>, i: int, j: int, c: (int, int))
    requires Distinct(list) && 0 <= i < j < |list| && c == Canon(list[i], list[j])
    requires Counting(sim, simOrder, listeners, u, list, i, j)
    ensures Counting(sim[c := Get(sim, c) + 1], if c in sim then simOrder else simOrder + [c], listeners, u, list, i, j + 1)
  {
    DoneStep(list, i, j);
  }

  lemma NextUser(sim: map<(int, int), int>, simOrder: seq<(int, int)>, listeners: map<int, set<int>>,
                 u: nat, order: seq<int>)
    requires Distinct(order) && listeners.Keys == Elems(order)
    requires Counting(sim, simOrder, listeners, u, HeardBy(order, listeners, u), |HeardBy(order, listeners, u)|, 0)
    ensures Counting(sim, simOrder, listeners, u + 1, [], 0, 0)
  {
    forall p: (int, int) | p.0 < p.1 ensures Get(sim, p) == CoCount(listeners, p.0, p.1, u + 1) {
      DoneAll(order, listeners, u, p);
    }
  }

  /** The counting loops of src/preprocess.py:254-268, over the users
      `0 .. n_users-1`. */
  method CoListening(order: seq<int>, listeners: map<int, set<int>>, nUsers: nat)
    returns (sim: map<(int, int), int>, simOrder: seq<(int, int)>)
    requires Distinct(order) && listeners.Keys == Elems(order)
    ensures Distinct(simOrder) && Elems(simOrder) == sim.Keys
    ensures forall p | p in sim :: p.0 < p.1 && sim[p] == CoCount(listeners, p.0, p.1, nUsers) && sim[p] >= 1
    ensures forall p: (int, int) | p.0 < p.1 && CoCount(listeners, p.0, p.1, nUsers) > 0 :: p in sim
  {
    sim, simOrder := map[], [];
    for u := 0 to nUsers
      invariant Counting(sim, simOrder, listeners, u, [], 0, 0)
    {
      var userArtists := UserArtists(order, listeners, u);
      HeardBySpec(order, listeners, u);
      StartUser(sim, simOrder, listeners, u, userArtists);
      sim, simOrder := CountUser(sim, simOrder, listeners, u, userArtists);
      NextUser(sim, simOrder, listeners, u, order);
    }
    CountingDone(sim, simOrder, listeners, nUsers);
  }

  /** No pair of a new user's list is counted yet. */
  lemma StartUser(sim: map<(int, int), int>, simOrder: seq<(int, int)>, listeners: map<int, set<int>>,
                  u: nat, list: seq<int>)
    requires Counting(sim, simOrder, listeners, u, [], 0, 0)
    ensures Counting(sim, simOrder, listeners, u, list, 0, 0)
  {
    assert Done(list, 0, 0) == Done([], 0, 0);
  }

  /** After the last user every counter is its pair's number of co-listeners,
      and every pair with a co-listener has a counter. */
  lemma CountingDone(sim: map<(int, int), int>, simOrder: seq<(int, int)>, listeners: map<int, set<int>>, n: nat)
    requires Counting(sim, simOrder, listeners, n, [], 0, 0)
    ensures Distinct(simOrder) && Elems(simOrder) == sim.Keys
    ensures forall p | p in sim :: p.0 < p.1 && sim[p] == CoCount(listeners, p.0, p.1, n) && sim[p] >= 1
    ensures forall p: (int, int) | p.0 < p.1 && CoCount(listeners, p.0, p.1, n) > 0 :: p in sim
  {
    forall p | p in sim ensures sim[p] == CoCount(listeners, p.0, p.1, n) {
      assert Get(sim, p) == sim[p];
    }
    forall p: (int, int) | p.0 < p.1 && CoCount(listeners, p.0, p.1, n) > 0 ensures p in sim {
      assert Get(sim, p) > 0;
    }
  }

  /** The loop over the artist pairs of one user. */
  method CountUser(sim0: map<(int, int), int>, simOrder0: seq<(int, int)>, listeners: map<int, set<int>>,
                   u: nat, userArtists: seq<int>)
    returns (sim: map<(int, int), int>, simOrder: seq<(int, int)>)
    requires Distinct(userArtists)
    requires Counting(sim0, simOrder0, listeners, u, userArtists, 0, 0)
    ensures Counting(sim, simOrder, listeners, u, userArtists, |userArtists|, 0)
  {
    sim, simOrder := sim0, simOrder0;
    for i := 0 to |userArtists|
      invariant Counting(sim, simOrder, listeners, u, userArtists, i, 0)
    {
      sim, simOrder := CountRow(sim, simOrder, listeners, u, userArtists, i);
    }
  }

  /** The pairs `(user_artists[i], user_artists[j])` for `j > i`. */
  method CountRow(sim0: map<(int, int), int>, simOrder0: seq<(int, int)>, listeners: map<int, set<int>>,
                  u: nat, userArtists: seq<int>, i: nat)
    returns (sim: map<(int, int), int>, simOrder: seq<(int, int)>)
    requires Distinct(userArtists) && i < |userArtists|
    requires Counting(sim0, simOrder0, listeners, u, userArtists, i, 0)
    ensures Counting(sim, simOrder, listeners, u, userArtists, i + 1, 0)
  {
    sim, simOrder := sim0, simOrder0;
    DoneRow(userArtists, i);
    for j := i + 1 to |userArtists|
      invariant Counting(sim, simOrder, listeners, u, userArtists, i, j)
    {
      var artist1, artist2 := userArtists[i], userArtists[j];
      if artist1 > artist2 {
        artist1, artist2 := artist2, artist1;
      }
      sim, simOrder := IncrementPair(sim, simOrder, listeners, u, userArtists, i, j, (artist1, artist2));
    }
  }

  /** `artist_similarity[(artist1, artist2)] += 1` on a `defaultdict(int)`
      whose key order is `simOrder` (src/preprocess.py:268). */
  method IncrementPair(sim: map<(int, int), int>, simOrder: seq<(int, int)>, ghost listeners: map<int, set<int>>,
                       ghost u: nat, ghost list: seq<int>, ghost i: int, ghost j: int, c: (int, int))
    returns (sim': map<(int, int), int>, simOrder': seq<(int, int)>)
    requires Distinct(list) && 0 <= i < j < |list| && c == Canon(list[i], list[j])
    requires Counting(sim, simOrder, listeners, u, list, i, j)
    ensures Counting(sim', simOrder', listeners, u, list, i, j + 1)
  {
    CountingStep(sim, simOrder, listeners, u, list, i, j, c);
    simOrder' := simOrder;
    if c !in sim {
      simOrder' := simOrder + [c];
    }
    sim' := sim[c := Get(sim, c) + 1];
  }

  /** The inner loop building `user_artists` (src/preprocess.py:256-259). */
  method UserArtists(order: seq<int>, listeners: map<int, set<int>>, u: int) returns (list: seq<int>)
    requires listeners.Keys == Elems(order)
    ensures list == HeardBy(order, listeners, u)
  {
    list := [];
    for k := 0 to |order|
      invariant list == HeardBy(order[..k], listeners, u)
    {
      assert order[..k + 1][..k] == order[..k];
      var artistIdx := order[k];
      assert artistIdx in Elems(order);
      if u in listeners[artistIdx] {
        list := list + [artistIdx];
      }
    }
    assert order[..|order|] == order;
  }

  datatype Similar = Similar(artist1: int, artist2: int, count: int)

  /** The filter `count >= min_co_listens` with `min_co_listens = 2`
      (src/preprocess.py:271-275), over the counters in key order. */
  function Frequent(sim: map<(int, int), int>, order: seq<(int, int)>): seq<Similar>
    requires Elems(order) <= sim.Keys
  {
    if order == [] then []
    else
      var p := order[|order| - 1];
      assert p in Elems(order);
      assert Elems(order[..|order| - 1]) <= Elems(order);
      Frequent(sim, order[..|order| - 1]) + (if sim[p] >= 2 then [Similar(p.0, p.1, sim[p])] else [])
  }

  /** The kept pairs are exactly the counted pairs with a count of at least
      two, each with its count, and none twice when the key order has no
      repeats. */
  lemma {:induction false} FrequentSpec(sim: map<(int, int), int>, order: seq<(int, int)>)
    requires Elems(order) <= sim.Keys
    ensures forall t | t in Frequent(sim, order) ::
              (t.artist1, t.artist2) in Elems(order) && t.count == sim[(t.artist1, t.artist2)] && t.count >= 2
    ensures forall p | p in Elems(order) && sim[p] >= 2 :: Similar(p.0, p.1, sim[p]) in Frequent(sim, order)
    ensures Distinct(order) ==> Distinct(Frequent(sim, order))
  {
    if order != [] {
      var q, p := order[..|order| - 1], order[|order| - 1];
      assert order == q + [p];
      assert Elems(order) == Elems(q) + {p};
      FrequentSpec(sim, q);
      if Distinct(order) {
        assert p !in Elems(q);
      }
    }
  }

  method KeepFrequent(sim: map<(int, int), int>, simOrder: seq<(int, int)>) returns (kept: seq<Similar>)
    requires Elems(simOrder) == sim.Keys
    ensures kept == Frequent(sim, simOrder)
  {
    kept := [];
    for k := 0 to |simOrder|
      invariant kept == Frequent(sim, simOrder[..k])
    {
      assert simOrder[..k + 1][..k] == simOrder[..k];
      var p := simOrder[k];
      assert p in Elems(simOrder);
      var count := sim[p];
      if count >= 2 {
        kept := kept + [Similar(p.0, p.1, count)];
      }
    }
    assert simOrder[..|simOrder|] == simOrder;
  }


  /** Every kept pair is in canonical order, is listened to by its count of
      users, which is at least 2, and every pair of artists with at least two
      co-listeners is kept. */
  lemma SimilarPairs(listeners: map<int, set<int>>, nUsers: nat, sim: map<(int, int), int>, kept: seq<Similar>)
    requires forall p | p in sim :: p.0 < p.1 && sim[p] == CoCount(listeners, p.0, p.1, nUsers)
    requires forall p: (int, int) | p.0 < p.1 && CoCount(listeners, p.0, p.1, nUsers) > 0 :: p in sim
    requires forall t | t in kept :: (t.artist1, t.artist2) in sim && t.count == sim[(t.artist1, t.artist2)] && t.count >= 2
    requires forall p | p in sim && sim[p] >= 2 :: Similar(p.0, p.1, sim[p]) in kept
    ensures forall t | t in kept :: t.artist1 < t.artist2 && t.count >= 2
                                     && t.count == |CoListeners(listeners, t.artist1, t.artist2, nUsers)|
    ensures forall a1, a2 | a1 < a2 && |CoListeners(listeners, a1, a2, nUsers)| >= 2 ::
              Similar(a1, a2, |CoListeners(listeners, a1, a2, nUsers)|) in kept
  {
    forall t | t in kept ensures t.count == |CoListeners(listeners, t.artist1, t.artist2, nUsers)| {
      CoCountIsCard(listeners, t.artist1, t.artist2, nUsers);
    }
    forall a1, a2 | a1 < a2 && |CoListeners(listeners, a1, a2, nUsers)| >= 2
      ensures Similar(a1, a2, |CoListeners(listeners, a1, a2, nUsers)|) in kept
    {
      CoCountIsCard(listeners, a1, a2, nUsers);
      assert (a1, a2) in sim;
    }
  }

  /** The users of artist `a` are the user indices of its relations. */
  lemma {:induction false} ListenersOfSpec(rels: seq<Relation>, a: int, nArtists: int, u: int)
    ensures u in ListenersOf(rels, a, nArtists) <==>
            exists i | 0 <= i < |rels| :: rels[i].artist == a && rels[i].userEntity - nArtists == u
  {
    if rels != [] {
      var p := rels[..|rels| - 1];
      ListenersOfSpec(p, a, nArtists, u);
      if u in ListenersOf(p, a, nArtists) {
        var i :| 0 <= i < |p| && p[i].artist == a && p[i].userEntity - nArtists == u;
        assert rels[i] == p[i];
      }
      if exists i | 0 <= i < |rels| :: rels[i].artist == a && rels[i].userEntity - nArtists == u {
        var i :| 0 <= i < |rels| && rels[i].artist == a && rels[i].userEntity - nArtists == u;
        if i < |p| {
          assert p[i] == rels[i];
        }
      }
    }
  }

  /** The users among `0 .. n-1` with a relation to each of two artists. */
  function SharedListeners(rels: seq<Relation>, nArtists: int, a1: int, a2: int, n: nat): set<int>
  {
    set u | 0 <= u < n && u in ListenersOf(rels, a1, nArtists) && u in ListenersOf(rels, a2, nArtists)
  }

  lemma SharedAreCoListeners(rels: seq<Relation>, nArtists: int, listeners: map<int, set<int>>, a1: int, a2: int, n: nat)
    requires listeners.Keys == Elems(ArtistsOfRelations(rels))
    requires forall a | a in listeners :: listeners[a] == ListenersOf(rels, a, nArtists)
    ensures CoListeners(listeners, a1, a2, n) == SharedListeners(rels, nArtists, a1, a2, n)
  {
    if a1 !in listeners {
      NoRelations(rels, a1, nArtists);
    }
    if a2 !in listeners {
      NoRelations(rels, a2, nArtists);
    }
  }

  /** The co-listening block of `preprocess_music` (src/preprocess.py:241-275)
      from the user-artist relations: the kept pairs are exactly the
      canonical pairs of artists that at least two of the users
      `0 .. n_users-1` both listened to, each once, with that number of
      users. */
  method ArtistSimilarity(rels: seq<Relation>, nArtists: int, nUsers: nat) returns (sims: seq<Similar>)
    ensures Distinct(sims)
    ensures forall t | t in sims :: t.artist1 < t.artist2 && t.count >= 2
                                    && t.count == |SharedListeners(rels, nArtists, t.artist1, t.artist2, nUsers)|
    ensures forall a1, a2 | a1 < a2 && |SharedListeners(rels, nArtists, a1, a2, nUsers)| >= 2 ::
              Similar(a1, a2, |SharedListeners(rels, nArtists, a1, a2, nUsers)|) in sims
  {
    var order, listeners := BuildArtistUsers(rels, nArtists);
    var sim, simOrder := CoListening(order, listeners, nUsers);
    sims := KeepFrequent(sim, simOrder);
    FrequentSpec(sim, simOrder);
    SimilarPairs(listeners, nUsers, sim, sims);
    forall a1, a2 ensures CoListeners(listeners, a1, a2, nUsers) == SharedListeners(rels, nArtists, a1, a2, nUsers) {
      SharedAreCoListeners(rels, nArtists, listeners, a1, a2, nUsers);
    }
  }
}
