/** `preprocess_music` (src/preprocess.py:80-335): from the raw Last.fm
    tables to `ratings_final.txt`, `kg_final.txt` and
    `dataset_metadata.txt`, optionally after `filter_raw_data`. */
module Preprocess {
  import opened Common
  import opened Files
  import opened Interactions
  import opened TopK
  import opened Indexing
  import opened Listening
  import opened Threshold
  import opened Ratings
  import opened Relations
  import opened Similarity
  import opened Triples
  import opened Metadata
  import Loader

  function ArtistsPath(rawDir: string): Path
  {
    Path(rawDir, "artists", "dat")
  }

  function RatingsPath(outDir: string): Path
  {
    Path(outDir, "ratings_final", "txt")
  }

  function KgPath(outDir: string): Path
  {
    Path(outDir, "kg_final", "txt")
  }

  /** The artist restriction of a selection. */
  function SelectedArtists(selection: Option<Selection>): Option<set<int>>
  {
    if selection.Some? then Some(selection.value.artists) else None
  }

  /** The counts reported after a run. */
  datatype Summary = Summary(nUsers: int, nArtists: int, nEntities: int, nRelations: int, nKgTriples: int)

  /** Steps 2 and 3 of the ratings (src/preprocess.py:120-186): the listens
      of every user, the median of their weights, the user numbering and the
      rating lines, one block per user. */
  method RatingsStage(data: seq<Interaction>, selection: Option<Selection>, artistIndex: map<int, int>)
    returns (users: seq<int>, userIndex: map<int, int>, pos: map<int, set<int>>, weights: map<int, map<int, int>>,
             allWeights: seq<int>, threshold2: int, rows: seq<Row>, ghost blocks: seq<seq<Row>>)
    ensures Collected(Listens(data, selection, artistIndex), users, pos, weights)
    ensures NumberedFrom(userIndex, users, 0)
    ensures multiset(allWeights) == WeightBag(users, weights) && threshold2 == Threshold2(allWeights)
    ensures |blocks| == |users| && rows == Concat(blocks)
    ensures forall i | 0 <= i < |users| ::
              users[i] in pos && users[i] in userIndex &&
              RatingBlock(blocks[i], userIndex[users[i]], pos[users[i]], WeightsOf(weights, users[i]), threshold2, artistIndex.Values)
  {
    users, pos, weights := CollectPositives(data, selection, artistIndex);
    allWeights := AllWeights(users, weights);
    threshold2 := Threshold2(allWeights);
    userIndex := IndexUsers(users);
    rows, blocks := WriteRatings(users, pos, weights, userIndex, threshold2, artistIndex.Values);
  }

  /** The knowledge-graph part (src/preprocess.py:210-311): the relations,
      the frequent artist pairs and the rows of `kg_final.txt`. */
  method GraphStage(data: seq<Interaction>, selection: Option<Selection>, userIndex: map<int, int>,
                    artistIndex: map<int, int>, nArtists: int, nUsers: nat)
    returns (rels: seq<Relation>, sims: seq<Similar>, kg: seq<Row>, nKgTriples: int)
    ensures rels == UserArtistRelations(data, selection, userIndex, artistIndex, nArtists)
    ensures Distinct(sims)
    ensures forall t | t in sims :: t.artist1 < t.artist2 && t.count >= 2
                                    && t.count == |SharedListeners(rels, nArtists, t.artist1, t.artist2, nUsers)|
    ensures forall a1, a2 | a1 < a2 && |SharedListeners(rels, nArtists, a1, a2, nUsers)| >= 2 ::
              Similar(a1, a2, |SharedListeners(rels, nArtists, a1, a2, nUsers)|) in sims
    ensures kg == KgTriples(rels, sims) && nKgTriples == |kg| == 2 * |rels| + 2 * |sims|
  {
    rels := BuildRelations(data, selection, userIndex, artistIndex, nArtists);
    sims := ArtistSimilarity(rels, nArtists, nUsers);
    kg, nKgTriples := WriteKg(rels, sims);
    KgLayout(rels, sims);
  }

  /** `ratings_final.txt` for the listens `L`: one block per user in
      first-seen order, labelled against twice the median of the kept
      weights (in whatever order the dictionaries hand them out). */
  ghost predicate RatingsFor(rows: seq<Row>, L: seq<Listen>, userIndex: map<int, int>, allArtists: set<int>)
  {
    exists users, pos, weights, ws: seq<int>, blocks: seq<seq<Row>> ::
      && Collected(L, users, pos, weights)
      && multiset(ws) == WeightBag(users, weights)
      && |blocks| == |users| && rows == Concat(blocks)
      && forall i | 0 <= i < |users| ::
           users[i] in pos && users[i] in userIndex &&
           RatingBlock(blocks[i], userIndex[users[i]], pos[users[i]], WeightsOf(weights, users[i]), Threshold2(ws), allArtists)
  }

  /** The metadata lines of a run. */
  function SummaryLines(filtered: bool, maxUsers: int, maxArtists: int, summary: Summary): seq<string>
  {
    MetadataLines(filtered, maxUsers, maxArtists, summary.nUsers, summary.nArtists, summary.nEntities,
                  summary.nRelations, summary.nKgTriples)
  }

  /** Writing `dataset_metadata.txt` (src/preprocess.py:320-332). */
  method WriteMetadata(store: Store, outDir: string, filtered: bool, maxUsers: int, maxArtists: int, summary: Summary)
    modifies store
    ensures store.tables == old(store.tables) && store.arrays == old(store.arrays)
    ensures store.texts == old(store.texts)[MetadataPath(outDir) := SummaryLines(filtered, maxUsers, maxArtists, summary)]
  {
    store.texts := store.texts[MetadataPath(outDir) := SummaryLines(filtered, maxUsers, maxArtists, summary)];
  }

  /** What a successful conversion of the catalogue lines and the
      interaction records yields. */
  ghost predicate Converted(catalogue: seq<Line>, data: seq<Interaction>, selection: Option<Selection>,
                            artistIndex: map<int, int>, userIndex: map<int, int>, rels: seq<Relation>,
                            sims: seq<Similar>, ratings: seq<Row>)
  {
    var L := Listens(data, selection, artistIndex);
    var nArtists := |artistIndex|;
    && artistIndex == AssignIndices(KeptArtists(catalogue, SelectedArtists(selection)))
    && NumberedFrom(userIndex, FirstSeen(ListenUsers(L)), 0)
    && RatingsFor(ratings, L, userIndex, artistIndex.Values)
    && rels == UserArtistRelations(data, selection, userIndex, artistIndex, nArtists)
    && Distinct(sims)
    && (forall t | t in sims :: t.artist1 < t.artist2 && t.count >= 2
                               && t.count == |SharedListeners(rels, nArtists, t.artist1, t.artist2, |userIndex|)|)
    && (forall a1, a2 | a1 < a2 && |SharedListeners(rels, nArtists, a1, a2, |userIndex|)| >= 2 ::
          Similar(a1, a2, |SharedListeners(rels, nArtists, a1, a2, |userIndex|)|) in sims)
  }

  /** The relations and pairs of a run stay inside its numbering: every
      relation leads from a user entity `n_artists + u` with `u < n_users`,
      and every artist of a relation or a pair is one the artist index
      assigned. */
  lemma ConvertedNumbered(catalogue: seq<Line>, data: seq<Interaction>, selection: Option<Selection>,
                          artistIndex: map<int, int>, userIndex: map<int, int>, rels: seq<Relation>,
                          sims: seq<Similar>, ratings: seq<Row>)
    requires Converted(catalogue, data, selection, artistIndex, userIndex, rels, sims, ratings)
    ensures forall r | r in rels :: && |artistIndex| <= r.userEntity < |artistIndex| + |userIndex|
                                    && r.artist in artistIndex.Values
    ensures forall s | s in sims :: s.artist1 in artistIndex.Values && s.artist2 in artistIndex.Values
  {
    var n := |artistIndex|;
    RelationsNumbered(data, selection, userIndex, artistIndex, n);
    NumberingIsBijection(userIndex, FirstSeen(ListenUsers(Listens(data, selection, artistIndex))), 0);
    forall s | s in sims ensures s.artist1 in artistIndex.Values && s.artist2 in artistIndex.Values {
      var shared := SharedListeners(rels, n, s.artist1, s.artist2, |userIndex|);
      assert |shared| >= 2;
      var u :| u in shared;
      ListenersOfSpec(rels, s.artist1, n, u);
      ListenersOfSpec(rels, s.artist2, n, u);
      var i :| 0 <= i < |rels| && rels[i].artist == s.artist1 && rels[i].userEntity - n == u;
      var j :| 0 <= j < |rels| && rels[j].artist == s.artist2 && rels[j].userEntity - n == u;
      assert rels[i] in rels && rels[j] in rels;
    }
  }

  /** With distinct catalogue ids the artists keep the entity ids
      `0 .. n_artists-1`, so the triples a run writes have every head and
      tail below `n_artists + n_users` and an artist at one end. */
  lemma PipelineKgRange(catalogue: seq<Line>, data: seq<Interaction>, selection: Option<Selection>,
                        artistIndex: map<int, int>, userIndex: map<int, int>, rels: seq<Relation>,
                        sims: seq<Similar>, ratings: seq<Row>)
    requires Converted(catalogue, data, selection, artistIndex, userIndex, rels, sims, ratings)
    requires Distinct(KeptArtists(catalogue, SelectedArtists(selection)))
    ensures var t := KgTriples(rels, sims);
            var nArtists := |artistIndex|;
            forall i | 0 <= i < |t| :: && 0 <= t[i].c0 < nArtists + |userIndex| && 0 <= t[i].c2 < nArtists + |userIndex|
                                       && (t[i].c0 < nArtists || t[i].c2 < nArtists)
  {
    ConvertedNumbered(catalogue, data, selection, artistIndex, userIndex, rels, sims, ratings);
    var ids := KeptArtists(catalogue, SelectedArtists(selection));
    DistinctArtistsNumbered(ids);
    NumberingIsBijection(artistIndex, ids, 0);
    KgEntityRange(rels, sims, |artistIndex|, |userIndex|);
  }

  /** Whatever the catalogue, `n_entity` counted by the loader on the
      triples a run writes is at most the run's `n_artists + n_users`. */
  lemma PipelineEntityBound(catalogue: seq<Line>, data: seq<Interaction>, selection: Option<Selection>,
                            artistIndex: map<int, int>, userIndex: map<int, int>, rels: seq<Relation>,
                            sims: seq<Similar>, ratings: seq<Row>)
    requires Converted(catalogue, data, selection, artistIndex, userIndex, rels, sims, ratings)
    ensures Loader.EntityCount(KgTriples(rels, sims)) <= |artistIndex| + |userIndex|
  {
    ConvertedNumbered(catalogue, data, selection, artistIndex, userIndex, rels, sims, ratings);
    var n := |artistIndex|;
    IntervalSpec(n, n + |userIndex|);
    ValuesCard(artistIndex);
    Loader.EntityCountWithin(rels, sims, artistIndex.Values, Interval(n, n + |userIndex|));
  }

  /** The computation of `preprocess_music` between reading the raw files
      and writing the outputs. */
  method Pipeline(catalogue: seq<Line>, data: seq<Interaction>, selection: Option<Selection>)
    returns (artistIndex: map<int, int>, userIndex: map<int, int>, rels: seq<Relation>, sims: seq<Similar>,
             ratings: seq<Row>, kg: seq<Row>, summary: Summary)
    ensures Converted(catalogue, data, selection, artistIndex, userIndex, rels, sims, ratings)
    ensures kg == KgTriples(rels, sims)
    ensures summary == Summary(|userIndex|, |artistIndex|, |artistIndex| + |userIndex|, NRelations, 2 * |rels| + 2 * |sims|)
  {
    artistIndex := IndexArtists(catalogue, SelectedArtists(selection));
    var users, pos, weights, allWeights, threshold2;
    ghost var blocks;
    users, userIndex, pos, weights, allWeights, threshold2, ratings, blocks := RatingsStage(data, selection, artistIndex);
    assert RatingsFor(ratings, Listens(data, selection, artistIndex), userIndex, artistIndex.Values) by {
      assert Collected(Listens(data, selection, artistIndex), users, pos, weights);
    }
    var nArtists := |artistIndex|;
    var nUsers := |userIndex|;
    var entity := IndexEntities(artistIndex, userIndex);
    EntityCount(entity, artistIndex, userIndex);
    var nKgTriples;
    rels, sims, kg, nKgTriples := GraphStage(data, selection, userIndex, artistIndex, nArtists, nUsers);
    summary := Summary(nUsers, nArtists, |entity|, NRelations, nKgTriples);
  }

  /** Everything after the filter (src/preprocess.py:99-332): fails when a
      raw file is absent, otherwise writes the ratings, the triples and the
      metadata. */
  method Convert(store: Store, rawDir: string, outDir: string, selection: Option<Selection>, maxUsers: int, maxArtists: int)
    returns (r: Result<Summary>, artistIndex: map<int, int>, userIndex: map<int, int>,
             rels: seq<Relation>, sims: seq<Similar>, ratings: seq<Row>)
    modifies store
    ensures store.tables == old(store.tables)
    ensures ArtistsPath(rawDir) !in store.tables ==> r == Err(MissingFile(ArtistsPath(rawDir)))
    ensures ArtistsPath(rawDir) in store.tables && UserArtistsPath(rawDir) !in store.tables ==>
              r == Err(MissingFile(UserArtistsPath(rawDir)))
    ensures r.Err? ==> store.arrays == old(store.arrays) && store.texts == old(store.texts)
    ensures r.Ok? ==>
              && ArtistsPath(rawDir) in store.tables && UserArtistsPath(rawDir) in store.tables
              && Converted(store.tables[ArtistsPath(rawDir)].rows, ReadLenient(store.tables[UserArtistsPath(rawDir)].rows),
                           selection, artistIndex, userIndex, rels, sims, ratings)
              && r.value == Summary(|userIndex|, |artistIndex|, |artistIndex| + |userIndex|, NRelations, 2 * |rels| + 2 * |sims|)
              && store.arrays == old(store.arrays)[RatingsPath(outDir) := ratings][KgPath(outDir) := KgTriples(rels, sims)]
              && store.texts == old(store.texts)[MetadataPath(outDir) := SummaryLines(selection.Some?, maxUsers, maxArtists, r.value)]
  {
    var artistsPath := ArtistsPath(rawDir);
    if artistsPath !in store.tables {
      return Err(MissingFile(artistsPath)), map[], map[], [], [], [];
    }
    var userArtistsPath := UserArtistsPath(rawDir);
    if userArtistsPath !in store.tables {
      return Err(MissingFile(userArtistsPath)), map[], map[], [], [], [];
    }
    var catalogue := store.tables[artistsPath].rows;
    var data := ReadLenient(store.tables[userArtistsPath].rows);
    var kg, summary;
    artistIndex, userIndex, rels, sims, ratings, kg, summary := Pipeline(catalogue, data, selection);
    store.arrays := store.arrays[RatingsPath(outDir) := ratings][KgPath(outDir) := kg];
    WriteMetadata(store, outDir, selection.Some?, maxUsers, maxArtists, summary);
    r := Ok(summary);
  }

  /** The tables the run reads: those `filter_raw_data` leaves when reducing,
      the raw ones otherwise, with the selection it returned. */
  function Prepared(tables: map<Path, Table>, rawDir: string, reduceData: bool, maxUsers: int, maxArtists: int)
    : (Result<Option<Selection>>, map<Path, Table>)
  {
    if reduceData then FilterOutcome(tables, rawDir, maxUsers, maxArtists) else (Ok(None), tables)
  }

  /** `preprocess_music`: fails when the filter fails or a raw file is
      absent; otherwise writes the three output files. The run reduces only
      when a selection was made (`reduce_data = False` when the filter
      found no file), and the metadata says so. */
  method PreprocessMusic(store: Store, rawDir: string, outDir: string, reduceData: bool, maxUsers: int, maxArtists: int)
    returns (r: Result<Summary>, selection: Option<Selection>, artistIndex: map<int, int>,
             userIndex: map<int, int>, rels: seq<Relation>, sims: seq<Similar>, ratings: seq<Row>)
    modifies store
    ensures var (filtered, tables) := Prepared(old(store.tables), rawDir, reduceData, maxUsers, maxArtists);
            && store.tables == tables
            && (filtered.Err? ==> r == Err(filtered.error) && store.arrays == old(store.arrays) && store.texts == old(store.texts))
            && (filtered.Ok? ==> selection == filtered.value)
    ensures r.Err? ==> store.arrays == old(store.arrays) && store.texts == old(store.texts)
    ensures r.Ok? ==>
              && ArtistsPath(rawDir) in store.tables && UserArtistsPath(rawDir) in store.tables
              && Converted(store.tables[ArtistsPath(rawDir)].rows, ReadLenient(store.tables[UserArtistsPath(rawDir)].rows),
                           selection, artistIndex, userIndex, rels, sims, ratings)
              && r.value == Summary(|userIndex|, |artistIndex|, |artistIndex| + |userIndex|, NRelations, 2 * |rels| + 2 * |sims|)
              && store.arrays == old(store.arrays)[RatingsPath(outDir) := ratings][KgPath(outDir) := KgTriples(rels, sims)]
              && store.texts == old(store.texts)[MetadataPath(outDir) := SummaryLines(selection.Some?, maxUsers, maxArtists, r.value)]
  {
    selection := None;
    if reduceData {
      var filtered := FilterRawData(store, rawDir, maxUsers, maxArtists);
      if filtered.Err? {
        return Err(filtered.error), None, map[], map[], [], [], [];
      }
      selection := filtered.value;
    }
    r, artistIndex, userIndex, rels, sims, ratings := Convert(store, rawDir, outDir, selection, maxUsers, maxArtists);
  }
}
