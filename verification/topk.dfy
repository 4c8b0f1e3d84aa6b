/** `filter_raw_data` (src/preprocess.py:11-79): keep the most active users
    and the most listened artists, and rewrite `user_artists.dat` with the
    interactions between them after a one-time backup. */
module TopK {
  import opened Common
  import opened Ranking
  import opened Interactions
  import opened Files
  import Tally

  datatype Selection = Selection(users: set<int>, artists: set<int>)

  function UserArtistsPath(rawDir: string): Path
  {
    Path(rawDir, "user_artists", "dat")
  }

  function BackupPath(rawDir: string): Path
  {
    Path(rawDir, "user_artists", "dat.backup")
  }

  function UsersOf(data: seq<Interaction>): seq<int>
  {
    seq(|data|, i requires 0 <= i < |data| => data[i].user)
  }

  function ArtistsOf(data: seq<Interaction>): seq<int>
  {
    seq(|data|, i requires 0 <= i < |data| => data[i].artist)
  }

  /** The number of interactions of user `u`. */
  function UserCount(data: seq<Interaction>, u: int): nat
  {
    if data == [] then 0
    else UserCount(data[..|data| - 1], u) + (if data[|data| - 1].user == u then 1 else 0)
  }

  /** The summed weight of the interactions with artist `a`. */
  function ArtistWeight(data: seq<Interaction>, a: int): int
  {
    if data == [] then 0
    else ArtistWeight(data[..|data| - 1], a) + (if data[|data| - 1].artist == a then data[|data| - 1].weight else 0)
  }

  /** `user_counts` after the counting loop (src/preprocess.py:46-47). */
  function UserCounts(data: seq<Interaction>): map<int, int>
  {
    map u | u in Elems(UsersOf(data)) :: UserCount(data, u)
  }

  /** `artist_counts` after the counting loop (src/preprocess.py:46-48). */
  function ArtistWeights(data: seq<Interaction>): map<int, int>
  {
    map a | a in Elems(ArtistsOf(data)) :: ArtistWeight(data, a)
  }

  /** A dictionary's `items()`, in key order. */
  function Items(order: seq<int>, m: map<int, int>): (r: seq<(int, int)>)
    requires Elems(order) <= m.Keys
    ensures |r| == |order|
  {
    seq(|order|, i requires 0 <= i < |order| => (order[i], m[order[i]]))
  }

  function Count(item: (int, int)): int
  {
    item.1
  }

  function KeysOf(items: seq<(int, int)>): seq<int>
  {
    seq(|items|, i requires 0 <= i < |items| => items[i].0)
  }

  /** `sorted(counts.items(), key=lambda x: x[1], reverse=True)`. */
  function Ranked(order: seq<int>, m: map<int, int>): seq<(int, int)>
    requires Elems(order) <= m.Keys
  {
    SortDesc(Items(order, m), Count)
  }

  function UserRanking(data: seq<Interaction>): seq<(int, int)>
  {
    Ranked(FirstSeen(UsersOf(data)), UserCounts(data))
  }

  function ArtistRanking(data: seq<Interaction>): seq<(int, int)>
  {
    Ranked(FirstSeen(ArtistsOf(data)), ArtistWeights(data))
  }

  /** Python's `s[:n]`, including its reading of a negative `n` as "all but
      the last `-n`". */
  function PyPrefix<T>(s: seq<T>, n: int): (r: seq<T>)
    ensures |r| <= |s| && r == s[..|r|]
    ensures n >= 0 ==> |r| == if n < |s| then n else |s|
  {
    if n >= 0 then s[..if n < |s| then n else |s|]
    else s[..if |s| + n > 0 then |s| + n else 0]
  }

  /** `selected_users` and `selected_artists` (src/preprocess.py:50-54). */
  function Select(data: seq<Interaction>, maxUsers: int, maxArtists: int): Selection
  {
    Selection(Elems(KeysOf(PyPrefix(UserRanking(data), maxUsers))),
              Elems(KeysOf(PyPrefix(ArtistRanking(data), maxArtists))))
  }

  /** The records whose user and artist are both selected, in file order. */
  function Retain(data: seq<Interaction>, sel: Selection): seq<Interaction>
  {
    if data == [] then []
    else
      var x := data[|data| - 1];
      Retain(data[..|data| - 1], sel) + (if x.user in sel.users && x.artist in sel.artists then [x] else [])
  }

  /** The ranking of a dictionary's items lists every key once with its own
      value, in descending order of value, and keeps the dictionary's key order
      among equal values. */
  lemma RankedSpec(order: seq<int>, m: map<int, int>)
    requires Distinct(order) && Elems(order) == m.Keys
    ensures DescendingBy(Ranked(order, m), Count)
    ensures |Ranked(order, m)| == |order|
    ensures Distinct(KeysOf(Ranked(order, m))) && Elems(KeysOf(Ranked(order, m))) == m.Keys
    ensures forall i | 0 <= i < |Ranked(order, m)| :: Ranked(order, m)[i].0 in m && Ranked(order, m)[i].1 == m[Ranked(order, m)[i].0]
    ensures forall k :: WithKey(Ranked(order, m), Count, k) == WithKey(Items(order, m), Count, k)
  {
    var items := Items(order, m);
    var r := SortDesc(items, Count);
    SortDescSpec(items, Count);
    PermutedItems(order, m, items, r);
    assert Distinct(items) by {
      forall i, j | 0 <= i < j < |items| ensures items[i] != items[j] {
        assert items[i].0 == order[i] && items[j].0 == order[j];
      }
    }
    DistinctPermutation(items, r);
    forall i, j | 0 <= i < j < |r| ensures KeysOf(r)[i] != KeysOf(r)[j] {
      assert r[i] != r[j];
    }
    forall k | k in m.Keys ensures k in Elems(KeysOf(r)) {
      var i :| 0 <= i < |order| && order[i] == k;
      assert items[i] in multiset(r);
      var j :| 0 <= j < |r| && r[j] == items[i];
      assert KeysOf(r)[j] == k;
    }
  }

  /** Each element of a permutation of a dictionary's items is an item. */
  lemma PermutedItems(order: seq<int>, m: map<int, int>, items: seq<(int, int)>, r: seq<(int, int)>)
    requires Elems(order) <= m.Keys && items == Items(order, m) && multiset(r) == multiset(items)
    ensures forall i | 0 <= i < |r| :: r[i].0 in m && r[i].1 == m[r[i].0]
    ensures Elems(KeysOf(r)) <= m.Keys
  {
    forall i | 0 <= i < |r| ensures r[i].0 in m && r[i].1 == m[r[i].0] {
      assert r[i] in multiset(items);
      var j :| 0 <= j < |items| && items[j] == r[i];
    }
  }

  /** Top-K: every selected key is ranked at least as high as every key left
      out, and a non-negative bound `n` selects `min(n, #keys)` keys. */
  lemma TopKSelection(order: seq<int>, m: map<int, int>, n: int)
    requires Distinct(order) && Elems(order) == m.Keys
    ensures var sel := Elems(KeysOf(PyPrefix(Ranked(order, m), n)));
            && sel <= m.Keys
            && (forall u, v | u in sel && v in m.Keys - sel :: m[u] >= m[v])
            && (n >= 0 ==> |sel| == if n < |order| then n else |order|)
  {
    var r := Ranked(order, m);
    RankedSpec(order, m);
    var p := PyPrefix(r, n);
    var sel := Elems(KeysOf(p));
    assert KeysOf(p) == KeysOf(r)[..|p|];
    forall u, v | u in sel && v in m.Keys - sel ensures m[u] >= m[v] {
      var i :| 0 <= i < |p| && KeysOf(p)[i] == u;
      var j :| 0 <= j < |r| && KeysOf(r)[j] == v;
      assert Count(r[i]) >= Count(r[j]);
    }
    assert Distinct(KeysOf(p));
    DistinctCard(KeysOf(p));
  }

  /** The selection of `filter_raw_data` is a top-K choice of users by
      interaction count and of artists by summed weight. */
  lemma SelectIsTopK(data: seq<Interaction>, maxUsers: int, maxArtists: int)
    ensures var sel := Select(data, maxUsers, maxArtists);
            && sel.users <= Elems(UsersOf(data)) && sel.artists <= Elems(ArtistsOf(data))
            && (forall u, v | u in sel.users && v in Elems(UsersOf(data)) - sel.users :: UserCount(data, u) >= UserCount(data, v))
            && (forall a, b | a in sel.artists && b in Elems(ArtistsOf(data)) - sel.artists :: ArtistWeight(data, a) >= ArtistWeight(data, b))
            && (maxUsers >= 0 ==> |sel.users| == if maxUsers < |FirstSeen(UsersOf(data))| then maxUsers else |FirstSeen(UsersOf(data))|)
            && (maxArtists >= 0 ==> |sel.artists| == if maxArtists < |FirstSeen(ArtistsOf(data))| then maxArtists else |FirstSeen(ArtistsOf(data))|)
  {
    TopKSelection(FirstSeen(UsersOf(data)), UserCounts(data), maxUsers);
    TopKSelection(FirstSeen(ArtistsOf(data)), ArtistWeights(data), maxArtists);
  }

  /** The retained records are exactly those of the input with both ids
      selected, and filtering them again changes nothing. */
  lemma {:induction false} RetainSpec(data: seq<Interaction>, sel: Selection)
    ensures forall x :: x in Retain(data, sel) <==> x in data && x.user in sel.users && x.artist in sel.artists
    ensures Retain(Retain(data, sel), sel) == Retain(data, sel)
  {
    if data != [] {
      var p, x := data[..|data| - 1], data[|data| - 1];
      RetainSpec(p, sel);
      assert data == p + [x];
      RetainAppend(Retain(p, sel), if x.user in sel.users && x.artist in sel.artists then [x] else [], sel);
    }
  }

  lemma {:induction false} RetainAppend(a: seq<Interaction>, b: seq<Interaction>, sel: Selection)
    ensures Retain(a + b, sel) == Retain(a, sel) + Retain(b, sel)
    decreases |b|
  {
    if b == [] {
      assert a + b == a;
    } else {
      var b' := b[..|b| - 1];
      RetainAppend(a, b', sel);
      assert (a + b)[..|a + b| - 1] == a + b';
    }
  }

  /** Users that do not occur have no interactions. */
  lemma {:induction false} UnseenUsers(data: seq<Interaction>)
    ensures forall u | u !in Elems(UsersOf(data)) :: UserCount(data, u) == 0
  {
    if data != [] {
      var p := data[..|data| - 1];
      UnseenUsers(p);
      assert UsersOf(data) == UsersOf(p) + [data[|data| - 1].user];
    }
  }

  /** Artists that do not occur have no weight. */
  lemma {:induction false} UnseenArtists(data: seq<Interaction>)
    ensures forall a | a !in Elems(ArtistsOf(data)) :: ArtistWeight(data, a) == 0
  {
    if data != [] {
      var p := data[..|data| - 1];
      UnseenArtists(p);
      assert ArtistsOf(data) == ArtistsOf(p) + [data[|data| - 1].artist];
    }
  }

  /** The dictionaries of the counting loop after the records `d`. */
  ghost predicate Counted(d: seq<Interaction>, users: seq<int>, userCounts: map<int, int>,
                          artists: seq<int>, artistWeights: map<int, int>)
  {
    UsersCounted(d, users, userCounts) && ArtistsWeighed(d, artists, artistWeights)
  }

  ghost predicate UsersCounted(d: seq<Interaction>, users: seq<int>, userCounts: map<int, int>)
  {
    && Tally.Keyed(users, userCounts, UsersOf(d))
    && (forall u | u in userCounts :: userCounts[u] == UserCount(d, u))
  }

  ghost predicate ArtistsWeighed(d: seq<Interaction>, artists: seq<int>, artistWeights: map<int, int>)
  {
    && Tally.Keyed(artists, artistWeights, ArtistsOf(d))
    && (forall a | a in artistWeights :: artistWeights[a] == ArtistWeight(d, a))
  }

  lemma UsersCountedStep(d: seq<Interaction>, x: Interaction, users: seq<int>, userCounts: map<int, int>)
    requires UsersCounted(d, users, userCounts)
    ensures UsersCounted(d + [x],
                         if x.user in userCounts then users else users + [x.user],
                         userCounts[x.user := (if x.user in userCounts then userCounts[x.user] else 0) + 1])
  {
    UsersOfSnoc(d, x);
    var uc := userCounts[x.user := (if x.user in userCounts then userCounts[x.user] else 0) + 1];
    Tally.KeyedStep(users, userCounts, UsersOf(d), x.user, uc[x.user]);
    forall u | u in uc ensures uc[u] == UserCount(d + [x], u) {
      UserCountSnoc(d, x, u);
      if u == x.user && u !in userCounts {
        UnseenUsers(d);
      }
    }
  }

  lemma ArtistsWeighedStep(d: seq<Interaction>, x: Interaction, artists: seq<int>, artistWeights: map<int, int>)
    requires ArtistsWeighed(d, artists, artistWeights)
    ensures ArtistsWeighed(d + [x],
                           if x.artist in artistWeights then artists else artists + [x.artist],
                           artistWeights[x.artist := (if x.artist in artistWeights then artistWeights[x.artist] else 0) + x.weight])
  {
    ArtistsOfSnoc(d, x);
    var aw := artistWeights[x.artist := (if x.artist in artistWeights then artistWeights[x.artist] else 0) + x.weight];
    Tally.KeyedStep(artists, artistWeights, ArtistsOf(d), x.artist, aw[x.artist]);
    WeightsStep(d, x, artistWeights);
  }

  lemma WeightsStep(d: seq<Interaction>, x: Interaction, artistWeights: map<int, int>)
    requires artistWeights.Keys == Elems(ArtistsOf(d))
    requires forall a | a in artistWeights :: artistWeights[a] == ArtistWeight(d, a)
    ensures var aw := artistWeights[x.artist := (if x.artist in artistWeights then artistWeights[x.artist] else 0) + x.weight];
            forall a | a in aw :: aw[a] == ArtistWeight(d + [x], a)
  {
    var aw := artistWeights[x.artist := (if x.artist in artistWeights then artistWeights[x.artist] else 0) + x.weight];
    forall a | a in aw ensures aw[a] == ArtistWeight(d + [x], a) {
      ArtistWeightSnoc(d, x, a);
      if a == x.artist && a !in artistWeights {
        UnseenArtists(d);
      }
    }
  }

  lemma UsersOfSnoc(d: seq<Interaction>, x: Interaction)
    ensures UsersOf(d + [x]) == UsersOf(d) + [x.user]
  {
  }

  lemma ArtistsOfSnoc(d: seq<Interaction>, x: Interaction)
    ensures ArtistsOf(d + [x]) == ArtistsOf(d) + [x.artist]
  {
  }

  lemma UserCountSnoc(d: seq<Interaction>, x: Interaction, u: int)
    ensures UserCount(d + [x], u) == UserCount(d, u) + (if x.user == u then 1 else 0)
  {
    assert (d + [x])[..|d|] == d;
  }

  lemma ArtistWeightSnoc(d: seq<Interaction>, x: Interaction, a: int)
    ensures ArtistWeight(d + [x], a) == ArtistWeight(d, a) + (if x.artist == a then x.weight else 0)
  {
    assert (d + [x])[..|d|] == d;
  }

  lemma CountedAll(d: seq<Interaction>, users: seq<int>, userCounts: map<int, int>,
                   artists: seq<int>, artistWeights: map<int, int>)
    requires Counted(d, users, userCounts, artists, artistWeights)
    ensures userCounts == UserCounts(d) && artistWeights == ArtistWeights(d)
  {
  }

  /** `user_counts[user] += 1` on a `defaultdict(int)` whose key order is
      `users` (src/preprocess.py:47). */
  method CountUser(users: seq<int>, userCounts: map<int, int>, ghost d: seq<Interaction>, x: Interaction)
    returns (users': seq<int>, userCounts': map<int, int>)
    requires UsersCounted(d, users, userCounts)
    ensures UsersCounted(d + [x], users', userCounts')
  {
    UsersCountedStep(d, x, users, userCounts);
    users' := users;
    if x.user !in userCounts {
      users' := users + [x.user];
    }
    userCounts' := userCounts[x.user := (if x.user in userCounts then userCounts[x.user] else 0) + 1];
  }

  /** `artist_counts[artist] += weight` on a `defaultdict(int)` whose key
      order is `artists` (src/preprocess.py:48). */
  method WeighArtist(artists: seq<int>, artistWeights: map<int, int>, ghost d: seq<Interaction>, x: Interaction)
    returns (artists': seq<int>, artistWeights': map<int, int>)
    requires ArtistsWeighed(d, artists, artistWeights)
    ensures ArtistsWeighed(d + [x], artists', artistWeights')
  {
    ArtistsWeighedStep(d, x, artists, artistWeights);
    artists' := artists;
    if x.artist !in artistWeights {
      artists' := artists + [x.artist];
    }
    artistWeights' := artistWeights[x.artist := (if x.artist in artistWeights then artistWeights[x.artist] else 0) + x.weight];
  }

  /** The counting loop (src/preprocess.py:43-48). */
  method CountActivity(data: seq<Interaction>)
    returns (users: seq<int>, userCounts: map<int, int>, artists: seq<int>, artistWeights: map<int, int>)
    ensures users == FirstSeen(UsersOf(data)) && userCounts == UserCounts(data)
    ensures artists == FirstSeen(ArtistsOf(data)) && artistWeights == ArtistWeights(data)
  {
    users, userCounts, artists, artistWeights := [], map[], [], map[];
    for i := 0 to |data|
      invariant UsersCounted(data[..i], users, userCounts)
      invariant ArtistsWeighed(data[..i], artists, artistWeights)
    {
      assert data[..i + 1] == data[..i] + [data[i]];
      users, userCounts := CountUser(users, userCounts, data[..i], data[i]);
      artists, artistWeights := WeighArtist(artists, artistWeights, data[..i], data[i]);
    }
    assert data[..|data|] == data;
    CountedAll(data, users, userCounts, artists, artistWeights);
  }

  /** The filtering loop (src/preprocess.py:59-62). */
  method SelectRecords(data: seq<Interaction>, sel: Selection) returns (filtered: seq<Interaction>)
    ensures filtered == Retain(data, sel)
  {
    filtered := [];
    var i := 0;
    while i < |data|
      invariant 0 <= i <= |data|
      invariant filtered == Retain(data[..i], sel)
    {
      assert data[..i + 1][..i] == data[..i];
      if data[i].user in sel.users && data[i].artist in sel.artists {
        filtered := filtered + [data[i]];
      }
      i := i + 1;
    }
    assert data[..i] == data;
  }

  /** The counting, ranking and filtering of `filter_raw_data`
      (src/preprocess.py:43-62): the top-K selection and the records it
      retains. */
  method SelectAndRetain(data: seq<Interaction>, maxUsers: int, maxArtists: int)
    returns (sel: Selection, filtered: seq<Interaction>)
    ensures sel == Select(data, maxUsers, maxArtists) && filtered == Retain(data, sel)
  {
    var users, userCounts, artists, artistWeights := CountActivity(data);
    var sortedUsers := SortDesc(Items(users, userCounts), Count);
    var sortedArtists := SortDesc(Items(artists, artistWeights), Count);
    sel := Selection(Elems(KeysOf(PyPrefix(sortedUsers, maxUsers))), Elems(KeysOf(PyPrefix(sortedArtists, maxArtists))));
    filtered := SelectRecords(data, sel);
  }

  /** The result and the tables `filter_raw_data` leaves behind. */
  function FilterOutcome(tables: map<Path, Table>, rawDir: string, maxUsers: int, maxArtists: int)
    : (Result<Option<Selection>>, map<Path, Table>)
  {
    var path := UserArtistsPath(rawDir);
    if path !in tables then (Ok(None), tables)
    else
      var t := tables[path];
      match ReadStrict(t.rows)
      case Err(e) => (Err(e), tables)
      case Ok(data) =>
        var sel := Select(data, maxUsers, maxArtists);
        var backup := if BackupPath(rawDir) in tables then tables[BackupPath(rawDir)] else t;
        (Ok(Some(sel)), tables[BackupPath(rawDir) := backup][path := Table(t.header, Written(Retain(data, sel)))])
  }

  /** `filter_raw_data` on the raw tables: `None` (no selection) and no
      change when the interaction file is absent; an error and no change on a
      line with a non-integer field; otherwise the selection, a backup of the
      file unless one exists, and the file rewritten with the retained
      records under its original header. */
  method FilterRawData(store: Store, rawDir: string, maxUsers: int, maxArtists: int)
    returns (r: Result<Option<Selection>>)
    modifies store
    ensures store.arrays == old(store.arrays) && store.texts == old(store.texts)
    ensures (r, store.tables) == FilterOutcome(old(store.tables), rawDir, maxUsers, maxArtists)
  {
    var path := UserArtistsPath(rawDir);
    if path !in store.tables {
      return Ok(None);
    }
    var t := store.tables[path];
    var read := ReadStrict(t.rows);
    if read.Err? {
      return Err(read.error);
    }
    var data := read.value;
    var sel, filtered := SelectAndRetain(data, maxUsers, maxArtists);
    var backup := BackupPath(rawDir);
    if backup !in store.tables {
      store.tables := store.tables[backup := t];
    } else {
      assert store.tables[backup := store.tables[backup]] == store.tables;
    }
    store.tables := store.tables[path := Table(t.header, Written(filtered))];
    r := Ok(Some(sel));
  }

  /** A successful filter keeps the header, rewrites the file so that it
      reads back as exactly the retained records, and leaves in the backup
      the file as it stood before the first filter: a second filter never
      touches the backup. A missing file or a failed read changes nothing. */
  lemma FilterBackup(tables: map<Path, Table>, rawDir: string, maxUsers: int, maxArtists: int)
    ensures var (r, after) := FilterOutcome(tables, rawDir, maxUsers, maxArtists);
      && (r.Err? || r.value.None? ==> after == tables)
      && (r.Ok? && r.value.Some? ==>
            var path, backup := UserArtistsPath(rawDir), BackupPath(rawDir);
            && path in tables && ReadStrict(tables[path].rows).Ok?
            && r.value.value == Select(ReadStrict(tables[path].rows).value, maxUsers, maxArtists)
            && path in after && after[path].header == tables[path].header
            && ReadStrict(after[path].rows) == Ok(Retain(ReadStrict(tables[path].rows).value, r.value.value))
            && backup in after
            && after[backup] == (if backup in tables then tables[backup] else tables[path])
            && after[backup] == FilterOutcome(after, rawDir, maxUsers, maxArtists).1[backup])
  {
    var path := UserArtistsPath(rawDir);
    if path in tables && ReadStrict(tables[path].rows).Ok? {
      var data := ReadStrict(tables[path].rows).value;
      ReadWritten(Retain(data, Select(data, maxUsers, maxArtists)));
    }
  }
}
