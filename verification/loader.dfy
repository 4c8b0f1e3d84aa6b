/** The knowledge-graph loader (src/graph_loader.py): the `.npy` cache in
    front of the integer text matrices, the adjacency dictionary built from
    the triples, the entity and relation counts, the tag added to the
    dataset metadata, and the users' positive histories. */
module Loader {
  import opened Common
  import opened Files
  import opened Tally
  import opened Metadata
  import opened Relations
  import opened Similarity
  import opened Triples

  /** `{head: [(tail, relation), ...]}`. */
  type Graph = map<int, seq<(int, int)>>

  function Suffix(useSmall: bool): string
  {
    if useSmall then "_small" else ""
  }

  function NpyPath(dataDir: string, stem: string): Path
  {
    Path(dataDir, stem, "npy")
  }

  function TxtPath(dataDir: string, stem: string): Path
  {
    Path(dataDir, stem, "txt")
  }

  /** What loading the matrix `stem` yields, and the arrays of the store
      afterwards: the `.npy` file when it exists, whatever the text says;
      else the text, which is then saved as the `.npy` file; else the text
      file is missing. */
  function CacheOutcome(arrays: map<Path, seq<Row>>, dataDir: string, stem: string): (Result<seq<Row>>, map<Path, seq<Row>>)
  {
    var npy, txt := NpyPath(dataDir, stem), TxtPath(dataDir, stem);
    if npy in arrays then (Ok(arrays[npy]), arrays)
    else if txt in arrays then (Ok(arrays[txt]), arrays[npy := arrays[txt]])
    else (Err(MissingFile(txt)), arrays)
  }

  /** The cache branch shared by `load_kg` (src/graph_loader.py:69-73) and
      `load_ratings` (src/graph_loader.py:128-132). */
  method LoadCached(store: Store, dataDir: string, stem: string) returns (r: Result<seq<Row>>)
    modifies store
    ensures store.tables == old(store.tables) && store.texts == old(store.texts)
    ensures (r, store.arrays) == CacheOutcome(old(store.arrays), dataDir, stem)
  {
    var npy, txt := NpyPath(dataDir, stem), TxtPath(dataDir, stem);
    if npy in store.arrays {
      r := Ok(store.arrays[npy]);
    } else if txt in store.arrays {
      var rows := store.arrays[txt];
      store.arrays := store.arrays[npy := rows];
      r := Ok(rows);
    } else {
      r := Err(MissingFile(txt));
    }
  }

  /** Loading fails only when neither file exists; a successful load leaves
      the `.npy` file holding what it returned, so loading again returns the
      identical rows and changes nothing; and an existing `.npy` file is
      returned whatever the text file holds, even when they differ. */
  lemma CacheBehaviour(arrays: map<Path, seq<Row>>, dataDir: string, stem: string, text: seq<Row>)
    ensures var (r, after) := CacheOutcome(arrays, dataDir, stem);
            && (r.Err? <==> NpyPath(dataDir, stem) !in arrays && TxtPath(dataDir, stem) !in arrays)
            && (r.Ok? ==> NpyPath(dataDir, stem) in after && after[NpyPath(dataDir, stem)] == r.value
                          && CacheOutcome(after, dataDir, stem) == (r, after))
    ensures NpyPath(dataDir, stem) in arrays ==>
              CacheOutcome(arrays[TxtPath(dataDir, stem) := text], dataDir, stem).0 == Ok(arrays[NpyPath(dataDir, stem)])
  {
    assert NpyPath(dataDir, stem) != TxtPath(dataDir, stem);
  }

  function Heads(rows: seq<Row>): seq<int>
  {
    seq(|rows|, i requires 0 <= i < |rows| => rows[i].c0)
  }

  function RelationIds(rows: seq<Row>): seq<int>
  {
    seq(|rows|, i requires 0 <= i < |rows| => rows[i].c1)
  }

  function Tails(rows: seq<Row>): seq<int>
  {
    seq(|rows|, i requires 0 <= i < |rows| => rows[i].c2)
  }

  /** The `(tail, relation)` pairs of the rows with head `h`, in row order. */
  function Adjacency(rows: seq<Row>, h: int): seq<(int, int)>
  {
    if rows == [] then []
    else
      var last := rows[|rows| - 1];
      Adjacency(rows[..|rows| - 1], h) + (if last.c0 == h then [(last.c2, last.c1)] else [])
  }

  lemma HeadsSnoc(rows: seq<Row>, i: int)
    requires 0 <= i < |rows|
    ensures Heads(rows[..i + 1]) == Heads(rows[..i]) + [rows[i].c0]
  {
  }

  lemma AdjacencySnoc(rows: seq<Row>, i: int, h: int)
    requires 0 <= i < |rows|
    ensures Adjacency(rows[..i + 1], h) == Adjacency(rows[..i], h) + (if rows[i].c0 == h then [(rows[i].c2, rows[i].c1)] else [])
  {
    assert rows[..i + 1][..i] == rows[..i];
  }

  /** `kg` is the adjacency dictionary of `rows`. */
  ghost predicate Adjacencies(kg: Graph, rows: seq<Row>)
  {
    kg.Keys == Elems(Heads(rows)) && forall h | h in kg :: kg[h] == Adjacency(rows, h)
  }

  /** `kg[head].append((tail, relation))` on a `defaultdict(list)`. */
  function Append(kg: Graph, row: Row): Graph
  {
    kg[row.c0 := (if row.c0 in kg then kg[row.c0] else []) + [(row.c2, row.c1)]]
  }

  lemma AdjacenciesStep(kg: Graph, rows: seq<Row>, i: int)
    requires 0 <= i < |rows| && Adjacencies(kg, rows[..i])
    ensures Adjacencies(Append(kg, rows[i]), rows[..i + 1])
  {
    HeadsSnoc(rows, i);
    assert Elems(Heads(rows[..i + 1])) == Elems(Heads(rows[..i])) + {rows[i].c0};
    var kg' := Append(kg, rows[i]);
    forall h | h in kg' ensures kg'[h] == Adjacency(rows[..i + 1], h) {
      AdjacencySnoc(rows, i, h);
      if h == rows[i].c0 && h !in kg {
        NoAdjacency(rows[..i], h);
      }
    }
  }

  lemma {:induction false} NoAdjacency(rows: seq<Row>, h: int)
    requires h !in Heads(rows)
    ensures Adjacency(rows, h) == []
  {
    if rows != [] {
      var p := rows[..|rows| - 1];
      assert Heads(rows) == Heads(p) + [rows[|rows| - 1].c0];
      NoAdjacency(p, h);
    }
  }

  /** `construct_kg` (src/graph_loader.py:102-105): the heads in order of
      first occurrence, each mapped to its adjacency list. */
  method ConstructKg(rows: seq<Row>) returns (kg: Graph, heads: seq<int>)
    ensures heads == FirstSeen(Heads(rows))
    ensures kg.Keys == Elems(Heads(rows))
    ensures forall h | h in kg :: kg[h] == Adjacency(rows, h)
  {
    kg, heads := map[], [];
    for i := 0 to |rows|
      invariant heads == FirstSeen(Heads(rows[..i]))
      invariant Adjacencies(kg, rows[..i])
    {
      var row := rows[i];
      AdjacenciesStep(kg, rows, i);
      HeadsSnoc(rows, i);
      FirstSeenSnoc(Heads(rows[..i]), row.c0);
      if row.c0 !in kg {
        heads := heads + [row.c0];
      }
      kg := Append(kg, row);
    }
    assert rows[..|rows|] == rows;
  }

  /** `kg[h]` holds `(t, r)` exactly when some row is `(h, r, t)`, as often
      as there are rows with head `h`. */
  lemma {:induction false} AdjacencyRows(rows: seq<Row>, h: int)
    ensures forall t, r :: (t, r) in Adjacency(rows, h) <==> exists i | 0 <= i < |rows| :: rows[i] == Row(h, r, t)
    ensures |Adjacency(rows, h)| == Count(Heads(rows), h)
  {
    if rows != [] {
      var p := rows[..|rows| - 1];
      AdjacencyRows(p, h);
      HeadsSnoc(rows, |rows| - 1);
      AdjacencySnoc(rows, |rows| - 1, h);
      assert rows[..|rows|] == rows;
      CountSnoc(Heads(p), rows[|rows| - 1].c0, h);
      forall t, r ensures (t, r) in Adjacency(rows, h) <==> exists i | 0 <= i < |rows| :: rows[i] == Row(h, r, t) {
        if exists i | 0 <= i < |rows| :: rows[i] == Row(h, r, t) {
          var i :| 0 <= i < |rows| && rows[i] == Row(h, r, t);
          if i < |rows| - 1 {
            assert p[i] == Row(h, r, t);
          }
        }
        if exists i | 0 <= i < |p| :: p[i] == Row(h, r, t) {
          var i :| 0 <= i < |p| && p[i] == Row(h, r, t);
          assert rows[i] == Row(h, r, t);
        }
      }
    }
  }

  /** The adjacency lists' lengths, added up over `heads`. */
  function SumLengths(heads: seq<int>, kg: Graph): int
    requires Elems(heads) <= kg.Keys
  {
    if heads == [] then 0
    else
      assert heads[|heads| - 1] in Elems(heads);
      SumLengths(heads[..|heads| - 1], kg) + |kg[heads[|heads| - 1]]|
  }

  lemma {:induction false} SumLengthsTotal(heads: seq<int>, kg: Graph, rows: seq<Row>)
    requires Elems(heads) <= kg.Keys
    requires forall h | h in kg :: kg[h] == Adjacency(rows, h)
    ensures SumLengths(heads, kg) == Total(heads, Heads(rows))
  {
    if heads != [] {
      SumLengthsTotal(heads[..|heads| - 1], kg, rows);
      AdjacencyRows(rows, heads[|heads| - 1]);
    }
  }

  /** Every row lands in exactly one adjacency list. */
  lemma AdjacencySum(rows: seq<Row>, kg: Graph, heads: seq<int>)
    requires heads == FirstSeen(Heads(rows)) && kg.Keys == Elems(Heads(rows))
    requires forall h | h in kg :: kg[h] == Adjacency(rows, h)
    ensures SumLengths(heads, kg) == |rows|
  {
    SumLengthsTotal(heads, kg, rows);
    TotalAll(heads, Heads(rows));
  }

  /** `n_entity` (src/graph_loader.py:75). */
  function EntityCount(rows: seq<Row>): int
  {
    |Elems(Heads(rows)) + Elems(Tails(rows))|
  }

  /** `n_relation` (src/graph_loader.py:76). */
  function RelationCount(rows: seq<Row>): int
  {
    |Elems(RelationIds(rows))|
  }

  /** Python's truth value of a metadata value. */
  predicate Truthy(v: Value)
  {
    match v
    case BoolValue(b) => b
    case IntValue(n) => n != 0
    case StrValue(s) => s != ""
  }

  /** The metadata `load_kg` returns (src/graph_loader.py:81-85): the file's
      entries, or none when there is no file, with the two counts and the
      dataset type set. */
  function Tagged(metadata: Option<Meta>, nEntity: int, nRelation: int): (m: Meta)
    ensures var base := if metadata.Some? then metadata.value else map[];
            && m.Keys == base.Keys + {"n_entity", "n_relation", "type"}
            && m["n_entity"] == IntValue(nEntity) && m["n_relation"] == IntValue(nRelation)
            && m["type"] == StrValue(if "filtered" in base && Truthy(base["filtered"]) then "filtered" else "full")
            && forall k | k in base && k != "n_entity" && k != "n_relation" && k != "type" :: m[k] == base[k]
  {
    var m := if metadata.Some? then metadata.value else map[];
    var m := m["n_entity" := IntValue(nEntity)]["n_relation" := IntValue(nRelation)];
    m["type" := StrValue(if "filtered" in m && Truthy(m["filtered"]) then "filtered" else "full")]
  }

  /** What `load_dataset_metadata` finds in the store. */
  function StoredMetadata(texts: map<Path, seq<string>>, dataDir: string): Option<Meta>
  {
    if MetadataPath(dataDir) in texts then Some(Parsed(texts[MetadataPath(dataDir)])) else None
  }

  function KgStem(useSmall: bool): string
  {
    "kg_final" + Suffix(useSmall)
  }

  function RatingsStem(useSmall: bool): string
  {
    "ratings_final" + Suffix(useSmall)
  }

  datatype LoadedKg = LoadedKg(nEntity: int, nRelation: int, kg: Graph, heads: seq<int>, metadata: Meta)

  /** `load_kg` (src/graph_loader.py:59-88). */
  method LoadKg(store: Store, dataDir: string, useSmall: bool) returns (r: Result<LoadedKg>)
    modifies store
    ensures store.tables == old(store.tables) && store.texts == old(store.texts)
    ensures var (rows, arrays) := CacheOutcome(old(store.arrays), dataDir, KgStem(useSmall));
            && store.arrays == arrays
            && (rows.Err? ==> r == Err(rows.error))
            && (rows.Ok? ==>
                  && r.Ok?
                  && r.value.nEntity == EntityCount(rows.value)
                  && r.value.nRelation == RelationCount(rows.value)
                  && r.value.heads == FirstSeen(Heads(rows.value))
                  && r.value.kg.Keys == Elems(Heads(rows.value))
                  && (forall h | h in r.value.kg :: r.value.kg[h] == Adjacency(rows.value, h))
                  && r.value.metadata == Tagged(StoredMetadata(old(store.texts), dataDir), r.value.nEntity, r.value.nRelation))
  {
    var metadata := LoadDatasetMetadata(store, dataDir);
    var loaded := LoadCached(store, dataDir, KgStem(useSmall));
    if loaded.Err? {
      return Err(loaded.error);
    }
    var rows := loaded.value;
    var nEntity, nRelation := EntityCount(rows), RelationCount(rows);
    var kg, heads := ConstructKg(rows);
    r := Ok(LoadedKg(nEntity, nRelation, kg, heads, Tagged(metadata, nEntity, nRelation)));
  }

  /** `load_ratings` (src/graph_loader.py:123-135); the metadata it reads is
      not used. */
  method LoadRatings(store: Store, dataDir: string, useSmall: bool) returns (r: Result<seq<Row>>)
    modifies store
    ensures store.tables == old(store.tables) && store.texts == old(store.texts)
    ensures (r, store.arrays) == CacheOutcome(old(store.arrays), dataDir, RatingsStem(useSmall))
  {
    var _ := LoadDatasetMetadata(store, dataDir);
    r := LoadCached(store, dataDir, RatingsStem(useSmall));
  }

  /** The written flag is the last word on `filtered`: no later entry
      shares its key. */
  lemma ExpectedFlag(filtered: bool, maxUsers: int, maxArtists: int, nUsers: int, nArtists: int,
                     nEntities: int, nRelations: int, nTriples: int)
    ensures var m := Expected(filtered, maxUsers, maxArtists, nUsers, nArtists, nEntities, nRelations, nTriples);
            "filtered" in m && m["filtered"] == BoolValue(filtered)
  {
    var f := "filtered";
    assert f[0] == 'f';
    assert f != "max_users_requested" && f != "max_artists_requested";
    assert f != "n_users_actual" && f != "n_artists_actual" && f != "n_entities";
    assert f != "n_relations" && f != "n_kg_triples";
  }

  /** Reading back the metadata of a run tags the dataset `filtered`
      exactly when that run reduced the data, and keeps the flag the run
      wrote. */
  lemma ReloadedTag(filtered: bool, maxUsers: int, maxArtists: int, nUsers: int, nArtists: int,
                    nEntities: int, nRelations: int, nTriples: int, nEntity: int, nRelation: int)
    ensures var m := Tagged(Some(Parsed(MetadataLines(filtered, maxUsers, maxArtists, nUsers, nArtists,
                                                      nEntities, nRelations, nTriples))), nEntity, nRelation);
            && m["type"] == StrValue(if filtered then "filtered" else "full")
            && "filtered" in m && m["filtered"] == BoolValue(filtered)
  {
    var base := Parsed(MetadataLines(filtered, maxUsers, maxArtists, nUsers, nArtists, nEntities, nRelations, nTriples));
    MetadataRoundTrip(filtered, maxUsers, maxArtists, nUsers, nArtists, nEntities, nRelations, nTriples);
    ExpectedFlag(filtered, maxUsers, maxArtists, nUsers, nArtists, nEntities, nRelations, nTriples);
    assert "filtered" in base && base["filtered"] == BoolValue(filtered);
    var f := "filtered";
    assert f[0] == 'f';
    assert f != "n_entity" && f != "n_relation" && f != "type";
  }

  /** Without a metadata file the dataset is tagged `full`. */
  lemma NoMetadataIsFull(texts: map<Path, seq<string>>, dataDir: string, nEntity: int, nRelation: int)
    requires MetadataPath(dataDir) !in texts
    ensures Tagged(StoredMetadata(texts, dataDir), nEntity, nRelation)["type"] == StrValue("full")
    ensures Tagged(StoredMetadata(texts, dataDir), nEntity, nRelation).Keys == {"n_entity", "n_relation", "type"}
  {
  }

  /** On the triples a run writes, `n_relation` counts the relation types
      present: two for the listening groups when there is a relation, and
      two for the similarity groups when there is a frequent pair. */
  lemma LoadedRelationCount(rels: seq<Relation>, sims: seq<Similar>)
    ensures RelationCount(KgTriples(rels, sims)) == (if rels == [] then 0 else 2) + (if sims == [] then 0 else 2)
  {
    var t := KgTriples(rels, sims);
    var ids := Elems(RelationIds(t));
    GroupsPresent(rels, sims);
    if rels == [] && sims == [] {
      assert ids == {};
    } else if rels == [] {
      assert ids == {SimilarTo, SimilarFrom};
    } else if sims == [] {
      assert ids == {ListenedTo, ListenedBy};
    } else {
      assert ids == {ListenedTo, ListenedBy, SimilarTo, SimilarFrom};
    }
  }

  /** The relation ids in the file are those of its non-empty groups. */
  lemma GroupsPresent(rels: seq<Relation>, sims: seq<Similar>)
    ensures Elems(RelationIds(KgTriples(rels, sims)))
         == (if rels == [] then {} else {ListenedTo, ListenedBy}) + (if sims == [] then {} else {SimilarTo, SimilarFrom})
  {
    var t := KgTriples(rels, sims);
    KgRelations(rels, sims);
    var ids := Elems(RelationIds(t));
    var want := (if rels == [] then {} else {ListenedTo, ListenedBy}) + (if sims == [] then {} else {SimilarTo, SimilarFrom});
    forall x | x in ids ensures x in want {
      var i :| 0 <= i < |t| && RelationIds(t)[i] == x;
      assert x == GroupRelation(|rels|, |sims|, i);
    }
    if rels != [] {
      assert RelationIds(t)[0] == ListenedTo && RelationIds(t)[|rels|] == ListenedBy;
    }
    if sims != [] {
      assert RelationIds(t)[2 * |rels|] == SimilarTo && RelationIds(t)[2 * |rels| + |sims|] == SimilarFrom;
    }
  }

  /** The relation id of the group that row `i` of the file belongs to. */
  function GroupRelation(nRels: nat, nSims: nat, i: int): int
  {
    if i < nRels then ListenedTo
    else if i < 2 * nRels then ListenedBy
    else if i < 2 * nRels + nSims then SimilarTo
    else SimilarFrom
  }

  lemma KgRelations(rels: seq<Relation>, sims: seq<Similar>)
    ensures var t := KgTriples(rels, sims);
            forall i | 0 <= i < |t| :: RelationIds(t)[i] == GroupRelation(|rels|, |sims|, i)
  {
    var t := KgTriples(rels, sims);
    KgIndex(rels, sims);
    forall i | 0 <= i < |t| ensures t[i].c1 == GroupRelation(|rels|, |sims|, i) {
      if i < |rels| {
      } else if i < 2 * |rels| {
        assert t[i] == t[|rels| + (i - |rels|)];
      } else if i < 2 * |rels| + |sims| {
        assert t[i] == t[2 * |rels| + (i - 2 * |rels|)];
      } else {
        assert t[i] == t[2 * |rels| + |sims| + (i - 2 * |rels| - |sims|)];
      }
    }
  }

  /** When the relations lead from `users` to `artists` and the pairs join
      `artists`, `n_entity` counts at most `|artists| + |users|` nodes. */
  lemma EntityCountWithin(rels: seq<Relation>, sims: seq<Similar>, artists: set<int>, users: set<int>)
    requires forall r | r in rels :: r.userEntity in users && r.artist in artists
    requires forall s | s in sims :: s.artist1 in artists && s.artist2 in artists
    ensures EntityCount(KgTriples(rels, sims)) <= |artists| + |users|
  {
    var t := KgTriples(rels, sims);
    KgEntitiesWithin(rels, sims, artists, users);
    var nodes := Elems(Heads(t)) + Elems(Tails(t));
    forall x | x in nodes ensures x in artists + users {
      var i :| 0 <= i < |t| && (Heads(t)[i] == x || Tails(t)[i] == x);
    }
    SubsetCard(nodes, artists + users);
  }

  /** On the triples a run writes, `n_entity` never exceeds the run's entity
      count `n_artists + n_users`. */
  lemma LoadedEntityBound(rels: seq<Relation>, sims: seq<Similar>, nArtists: nat, nUsers: nat)
    requires forall r | r in rels :: nArtists <= r.userEntity < nArtists + nUsers && 0 <= r.artist < nArtists
    requires forall s | s in sims :: 0 <= s.artist1 < nArtists && 0 <= s.artist2 < nArtists
    ensures EntityCount(KgTriples(rels, sims)) <= nArtists + nUsers
  {
    IntervalSpec(0, nArtists);
    IntervalSpec(nArtists, nArtists + nUsers);
    EntityCountWithin(rels, sims, Interval(0, nArtists), Interval(nArtists, nArtists + nUsers));
  }

  /** The items of `u`'s label-1 rows, in row order. */
  function History(ratings: seq<Row>, u: int): seq<int>
  {
    if ratings == [] then []
    else
      var last := ratings[|ratings| - 1];
      History(ratings[..|ratings| - 1], u) + (if last.c2 == 1 && last.c0 == u then [last.c1] else [])
  }

  /** The user of every label-1 row, in row order. */
  function PositiveUsers(ratings: seq<Row>): seq<int>
  {
    if ratings == [] then []
    else
      var last := ratings[|ratings| - 1];
      PositiveUsers(ratings[..|ratings| - 1]) + (if last.c2 == 1 then [last.c0] else [])
  }

  lemma HistorySnoc(ratings: seq<Row>, i: int, u: int)
    requires 0 <= i < |ratings|
    ensures PositiveUsers(ratings[..i + 1]) == PositiveUsers(ratings[..i]) + (if ratings[i].c2 == 1 then [ratings[i].c0] else [])
    ensures History(ratings[..i + 1], u) == History(ratings[..i], u) + (if ratings[i].c2 == 1 && ratings[i].c0 == u then [ratings[i].c1] else [])
  {
    assert ratings[..i + 1][..i] == ratings[..i];
  }

  /** `history` is the history dictionary of `ratings`. */
  ghost predicate Histories(history: map<int, seq<int>>, ratings: seq<Row>)
  {
    history.Keys == Elems(PositiveUsers(ratings)) && forall u | u in history :: history[u] == History(ratings, u)
  }

  /** `user_history[user_id].append(item_id)` on a `defaultdict(list)`. */
  function Record(history: map<int, seq<int>>, row: Row): map<int, seq<int>>
  {
    history[row.c0 := (if row.c0 in history then history[row.c0] else []) + [row.c1]]
  }

  lemma {:induction false} NoHistory(ratings: seq<Row>, u: int)
    requires u !in PositiveUsers(ratings)
    ensures History(ratings, u) == []
  {
    if ratings != [] {
      HistorySnoc(ratings, |ratings| - 1, u);
      assert ratings[..|ratings|] == ratings;
      NoHistory(ratings[..|ratings| - 1], u);
    }
  }

  lemma HistoriesStep(history: map<int, seq<int>>, ratings: seq<Row>, i: int)
    requires 0 <= i < |ratings| && Histories(history, ratings[..i])
    ensures ratings[i].c2 == 1 ==> Histories(Record(history, ratings[i]), ratings[..i + 1])
    ensures ratings[i].c2 != 1 ==> Histories(history, ratings[..i + 1])
  {
    if ratings[i].c2 == 1 {
      HistoriesRecord(history, ratings, i);
    } else {
      HistorySnoc(ratings, i, ratings[i].c0);
      forall u ensures History(ratings[..i + 1], u) == History(ratings[..i], u) {
        HistorySnoc(ratings, i, u);
      }
    }
  }

  lemma HistoriesRecord(history: map<int, seq<int>>, ratings: seq<Row>, i: int)
    requires 0 <= i < |ratings| && Histories(history, ratings[..i]) && ratings[i].c2 == 1
    ensures Histories(Record(history, ratings[i]), ratings[..i + 1])
  {
    var row := ratings[i];
    var h' := Record(history, row);
    HistorySnoc(ratings, i, row.c0);
    assert Elems(PositiveUsers(ratings[..i]) + [row.c0]) == Elems(PositiveUsers(ratings[..i])) + {row.c0};
    forall u | u in h' ensures h'[u] == History(ratings[..i + 1], u) {
      HistorySnoc(ratings, i, u);
      if u == row.c0 && u !in history {
        NoHistory(ratings[..i], u);
      }
    }
  }

  lemma UsersStep(users: seq<int>, history: map<int, seq<int>>, ratings: seq<Row>, i: int)
    requires 0 <= i < |ratings| && Histories(history, ratings[..i])
    requires users == FirstSeen(PositiveUsers(ratings[..i]))
    ensures (if ratings[i].c2 == 1 && ratings[i].c0 !in history then users + [ratings[i].c0] else users)
            == FirstSeen(PositiveUsers(ratings[..i + 1]))
  {
    var row := ratings[i];
    HistorySnoc(ratings, i, row.c0);
    if row.c2 == 1 {
      FirstSeenSnoc(PositiveUsers(ratings[..i]), row.c0);
    } else {
      assert PositiveUsers(ratings[..i + 1]) == PositiveUsers(ratings[..i]);
    }
  }

  /** `get_user_history` (src/graph_loader.py:148-154). */
  method GetUserHistory(ratings: seq<Row>) returns (history: map<int, seq<int>>, users: seq<int>)
    ensures users == FirstSeen(PositiveUsers(ratings))
    ensures history.Keys == Elems(PositiveUsers(ratings))
    ensures forall u | u in history :: history[u] == History(ratings, u)
  {
    history, users := map[], [];
    for i := 0 to |ratings|
      invariant users == FirstSeen(PositiveUsers(ratings[..i]))
      invariant Histories(history, ratings[..i])
    {
      var row := ratings[i];
      HistoriesStep(history, ratings, i);
      UsersStep(users, history, ratings, i);
      if row.c2 == 1 {
        if row.c0 !in history {
          users := users + [row.c0];
        }
        history := Record(history, row);
      }
    }
    assert ratings[..|ratings|] == ratings;
  }

  /** `u`'s history holds item `a` exactly when some row is `(u, a, 1)`. */
  lemma {:induction false} HistoryMembers(ratings: seq<Row>, u: int)
    ensures forall a :: a in History(ratings, u) <==> exists i | 0 <= i < |ratings| :: ratings[i] == Row(u, a, 1)
  {
    if ratings != [] {
      var p := ratings[..|ratings| - 1];
      HistoryMembers(p, u);
      HistorySnoc(ratings, |ratings| - 1, u);
      assert ratings[..|ratings|] == ratings;
      forall a ensures a in History(ratings, u) <==> exists i | 0 <= i < |ratings| :: ratings[i] == Row(u, a, 1) {
        if exists i | 0 <= i < |ratings| :: ratings[i] == Row(u, a, 1) {
          var i :| 0 <= i < |ratings| && ratings[i] == Row(u, a, 1);
          if i < |ratings| - 1 {
            assert p[i] == Row(u, a, 1);
          }
        }
        if exists i | 0 <= i < |p| :: p[i] == Row(u, a, 1) {
          var i :| 0 <= i < |p| && p[i] == Row(u, a, 1);
          assert ratings[i] == Row(u, a, 1);
        }
      }
    }
  }

  /** `u`'s history is as long as `u` has label-1 rows. */
  lemma {:induction false} HistoryCount(ratings: seq<Row>, u: int)
    ensures |History(ratings, u)| == Count(PositiveUsers(ratings), u)
  {
    if ratings != [] {
      var p := ratings[..|ratings| - 1];
      HistoryCount(p, u);
      HistorySnoc(ratings, |ratings| - 1, u);
      assert ratings[..|ratings|] == ratings;
      var last := ratings[|ratings| - 1];
      if last.c2 == 1 {
        CountSnoc(PositiveUsers(p), last.c0, u);
      } else {
        assert PositiveUsers(ratings) == PositiveUsers(p);
      }
    }
  }

  /** `u`'s history holds item `a` exactly when some row is `(u, a, 1)`, as
      often as `u` has label-1 rows; a user is a key exactly when that
      history is non-empty. */
  lemma HistoryRows(ratings: seq<Row>, u: int)
    ensures forall a :: a in History(ratings, u) <==> exists i | 0 <= i < |ratings| :: ratings[i] == Row(u, a, 1)
    ensures |History(ratings, u)| == Count(PositiveUsers(ratings), u)
    ensures u in PositiveUsers(ratings) <==> History(ratings, u) != []
  {
    HistoryMembers(ratings, u);
    HistoryCount(ratings, u);
    CountMultiplicity(PositiveUsers(ratings), u);
  }
}
