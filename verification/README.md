# Music recommendation knowledge graph — a Dafny model

This project models the batch pipeline of a Last.fm music-recommendation
repository. The pipeline turns user→artist listen counts into a knowledge
graph with four relations and a file of labelled ratings. The model also
covers the loader that reads that graph back and the two graph algorithms
run on the loaded graph.

- **`filter_raw_data`** (module `TopK`) ranks users by number of
  interactions and artists by summed listen count. It keeps a prefix of
  each ranking and rewrites `user_artists.dat` with the records between
  the selected users and artists. The original file is backed up once.
- **`preprocess_music`** (modules `Indexing`, `Listening`, `Threshold`,
  `Ratings`, `Relations`, `Similarity`, `Triples`, `Metadata`, `Preprocess`)
  produces three files:
  - `ratings_final.txt`: every listened artist, labelled 1 when its weight
    reaches the median weight, plus sampled unheard artists labelled 0.
  - `kg_final.txt`: `listened_to` / `listened_by` between users and artists,
    and `similar_to` / `similar_from` between artists with at least two
    co-listeners.
  - `dataset_metadata.txt`: `key=value` lines.
- **The legacy movie/book path** (module `Legacy`): the item-index file
  numbers satori ids, and `convert_kg` interns string triples into integer
  ids.
- **`graph_loader.py`** (modules `Metadata`, `Loader`):
  - the typed `key=value` metadata reader;
  - the `.npy` cache in front of the integer text matrices;
  - `construct_kg`'s adjacency dictionary, the entity and relation counts,
    and the `type` tag;
  - `get_user_history`.
- **`graph_visualizer.py`**: `get_graph_statistics` (module `Statistics`),
  and the relation-filtered, hop-bounded breadth-first search of
  `visualize_subgraph` (module `Subgraph`).

How Python's runtime is represented:
- The file system is a `Files.Store` object. Its three maps go from a path
  to the tokenised file contents.
- A Python dictionary is a Dafny `map` together with a `seq` of its keys in
  insertion order.
- The order of a Python set and the draw of `np.random.choice` are left
  open: the model picks any element, or any distinct subset of the right
  size.
- The float median is kept exactly, as twice its value.

Supporting modules:
- `Common`: options, results, paths, rows, first-seen order, consecutive
  numberings.
- `Text`: `str()`/`int()` of integers, `strip`, `lower`, `split('=', 1)`.
- `Tally`: `defaultdict(int)` counters.
- `Ranking`: Python's stable `sorted(..., reverse=True)`.

## Model

| member | source | states |
|---|---|---|
| Interactions.ReadStrict | src/preprocess.py:29-38 | the read fails iff some line has three fields and one of its first three is not an integer, and it names the first such line; otherwise there is at most one record per line |
| Interactions.ReadLenient | src/preprocess.py:130-151 | a non-integer line is skipped rather than fatal; at most one record per line |
| Interactions.Written | src/preprocess.py:72-75 | one written line per record |
| Interactions.ReadWritten | src/preprocess.py:72-75 | the rewritten file reads back as exactly the records written, under both readers |
| Interactions.ReadersAgree | src/preprocess.py:130-151 | on a file the strict reader accepts, the lenient reader returns the same records |
| Ranking.SortDescSpec | src/preprocess.py:50-51 | `sorted(key, reverse=True)` yields descending keys and a permutation of the input, and keeps input order among equal keys |
| Ranking.StableSortUnique | src/preprocess.py:50-51 | any two descending arrangements that keep the input order within each key are equal, so the stable ranking is unique |
| Ranking.InsertDescending | src/preprocess.py:50-51 | inserting into a descending list keeps it descending |
| Ranking.InsertMultiset | src/preprocess.py:50-51 | insertion adds exactly the inserted element |
| TopK.PyPrefix | src/preprocess.py:53-54 | `s[:n]` is a prefix of `s`; for `n >= 0` its length is `min(n, len(s))` |
| TopK.RankedSpec | src/preprocess.py:50-51 | the ranked `items()` list each key once with its own count, descending, with dictionary order among ties |
| TopK.PermutedItems | src/preprocess.py:50-51 | every element of a permutation of `items()` is a key with its own value |
| TopK.TopKSelection | src/preprocess.py:50-54 | every selected key ranks at least as high as every key left out; a bound `n >= 0` selects `min(n, #keys)` keys |
| TopK.SelectIsTopK | src/preprocess.py:43-54 | selected users are the top users by interaction count and selected artists the top artists by summed weight, with exact sizes `min(max, #distinct)` |
| TopK.RetainSpec | src/preprocess.py:58-62 | a record is retained iff its user and its artist are both selected; filtering again changes nothing |
| TopK.RetainAppend | src/preprocess.py:58-62 | filtering keeps the file order: it distributes over concatenation |
| TopK.UnseenUsers | src/preprocess.py:46-47 | a user absent from the data has no interactions |
| TopK.UnseenArtists | src/preprocess.py:46-48 | an artist absent from the data has no weight |
| TopK.CountUser | src/preprocess.py:47 | `user_counts[user] += 1` keeps the counts exact and the key order first-seen |
| TopK.WeighArtist | src/preprocess.py:48 | `artist_counts[artist] += weight` keeps the sums exact and the key order first-seen |
| TopK.CountActivity | src/preprocess.py:43-48 | after the loop the counters hold the interaction count of every user and the summed weight of every artist, keyed in first-seen order |
| TopK.SelectRecords | src/preprocess.py:58-62 | the filtering loop returns the retained records in file order |
| TopK.SelectAndRetain | src/preprocess.py:43-62 | the counting, ranking, slicing and filtering give the top-K selection and its retained records |
| TopK.FilterRawData | src/preprocess.py:11-79 | no file means no selection and no change; an unreadable line is an error; otherwise a backup is made once and the file is rewritten |
| TopK.FilterBackup | src/preprocess.py:23-75 | after a filter the header is kept, the file reads back as exactly the retained records, and the backup holds the file as it was before the first filter; a second filter leaves the backup alone |
| Indexing.KeptArtistsSpec | src/preprocess.py:107-118 | the kept artist ids are the catalogue's integer ids, intersected with `selected_artists` when reducing |
| Indexing.DistinctArtistsNumbered | src/preprocess.py:109-116 | with distinct catalogue ids, `artist_id2index` numbers the kept ids 0, 1, … in file order |
| Indexing.RepeatedArtistOutOfRange | src/preprocess.py:116 | a repeated id is renumbered with the current size, so `[5, 7, 5]` gives index 2 in a map of two keys |
| Indexing.IndexArtists | src/preprocess.py:105-118 | the catalogue loop assigns `len(artist_id2index)` to each kept id in file order |
| Indexing.IndexUsers | src/preprocess.py:158-163 | users are numbered 0, 1, … in the key order of `user_pos_ratings` |
| Indexing.EntityIdsPartition | src/preprocess.py:194-208 | entity ids are a bijection onto `[0, n_artists + n_users)`, with artists below `n_artists` and users from `n_artists` on |
| Indexing.EntityRanges | src/preprocess.py:197-208 | every entity id is in range; an id is below `n_artists` iff it is an artist's |
| Indexing.EntityCount | src/preprocess.py:200-208 | there is one entity per artist and one per user |
| Indexing.ArtistKeysCard | src/preprocess.py:203-204 | distinct artist ids give distinct `artist_` keys |
| Indexing.UserKeysCard | src/preprocess.py:207-208 | distinct user ids give distinct `user_` keys |
| Indexing.IndexEntities | src/preprocess.py:200-208 | `entity_id2index` maps each artist to its index and each user to `n_artists` plus its index, whatever the iteration order |
| Indexing.MapArtists | src/preprocess.py:203-204 | the artist loop keys every artist with its own index |
| Indexing.MapUsers | src/preprocess.py:207-208 | the user loop adds every user at `n_artists + idx` and keeps the artists |
| Listening.ListensSpec | src/preprocess.py:140-149 | every admitted record becomes a listen of its artist's index; none names an artist outside the index, or a user outside the selection when reducing |
| Listening.PositiveArtistsSpec | src/preprocess.py:149 | an artist is a positive of a user iff some listen pairs them |
| Listening.LastWeightSpec | src/preprocess.py:147 | a duplicated (user, artist) record keeps the weight of its last occurrence; a weight is kept exactly for the positives |
| Listening.NoListens | src/preprocess.py:127-128 | a user not seen yet has no positives and no weights (the `defaultdict` default) |
| Listening.AddListen | src/preprocess.py:147-149 | one listen updates `user_weights` and `user_pos_ratings` and their key order to the state after one more listen |
| Listening.CollectPositives | src/preprocess.py:127-151 | after the reading loop, the key order, the positive sets and the weight tables are those of all admitted records |
| Threshold.MedianIgnoresOrder | src/preprocess.py:153-154 | the threshold depends only on the multiset of weights, not on dictionary order |
| Threshold.MedianSplits | src/preprocess.py:154 | at least half of the weights reach the threshold and at least half do not exceed it |
| Threshold.SortedReaching | src/preprocess.py:154 | on sorted weights, the middle element(s) are reached by at least half of them |
| Threshold.SortedNotExceeding | src/preprocess.py:154 | on sorted weights, at least half do not exceed the middle |
| Threshold.CountsSort | src/preprocess.py:154 | sorting does not change how many weights reach or stay under a threshold |
| Ratings.AllWeights | src/preprocess.py:153 | `all_weights` holds every weight of every user's table, with repetitions |
| Ratings.Values | src/preprocess.py:153 | `weights.values()` lists the table's values with repetitions |
| Ratings.PositiveRows | src/preprocess.py:173-177 | one line per artist in the given order, labelled by its weight against the threshold |
| Ratings.PositiveRowsCover | src/preprocess.py:173-177 | over distinct artists, the positive lines name each artist once with its label |
| Ratings.PositiveLines | src/preprocess.py:173-177 | exactly `len(pos)` lines, one for every positive artist, each labelled 1 iff its weight reaches the median |
| Ratings.NegativeLines | src/preprocess.py:181-186 | `n` lines with distinct sampled artists from the unheard set, each labelled 0 |
| Ratings.UserRatings | src/preprocess.py:170-186 | a user's block is its positives, labelled against the threshold, then `min(len(pos), len(all − pos))` distinct unheard artists labelled 0 |
| Ratings.WriteRatings | src/preprocess.py:165-186 | the file is the users' blocks in the key order of `user_pos_ratings` |
| Ratings.RatingLabels | src/preprocess.py:175-186 | every label is 0 or 1, and a line labelled 1 is a listened artist whose weight reaches the median |
| Relations.BuildRelations | src/preprocess.py:216-236 | the relation loop yields `(n_artists + user_idx, artist_idx, weight)` for every kept record with both ids indexed |
| Relations.RelationsFollowListens | src/preprocess.py:226-234 | the third pass yields one relation per listen of the second pass, in the same order, so a duplicated raw record yields a duplicated relation |
| Relations.RelationsNumbered | src/preprocess.py:229-234 | every relation leads from `n_artists` plus a value of `user_id2index` to a value of `artist_id2index` |
| Relations.AdmittedIndexed | src/preprocess.py:230 | the user of an admitted record has an index |
| Similarity.AddListener | src/preprocess.py:247-249 | one relation adds its user to its artist's users, the artist being keyed in first-seen order |
| Similarity.BuildArtistUsers | src/preprocess.py:245-249 | `artist_users` holds each artist of the relations, in first-seen order, with the set of its users |
| Similarity.ListenersOfSpec | src/preprocess.py:247-249 | a user is among an artist's users iff some relation joins them |
| Similarity.HeardBySpec | src/preprocess.py:256-259 | `user_artists` lists, without repeats, exactly the artists the user listened to |
| Similarity.UserArtists | src/preprocess.py:256-259 | the inner loop builds that list in `artist_users` order |
| Similarity.CoCountIsCard | src/preprocess.py:255-268 | a pair's count over the users `0 .. n-1` is the number of its co-listeners, whatever the visiting order |
| Similarity.CanonInjective | src/preprocess.py:264-267 | in a list without repeats, the canonical pair `(min, max)` of two positions determines those positions, so no pair is counted twice for one user |
| Similarity.DoneAll | src/preprocess.py:262-268 | the pairs counted for one user are exactly the canonical pairs of two distinct artists that user listened to |
| Similarity.IncrementPair | src/preprocess.py:264-268 | `artist_similarity[(a1, a2)] += 1` advances the counting invariant by one position pair |
| Similarity.CountRow | src/preprocess.py:263-268 | the `j` loop counts every pair `(i, j)` with `j > i` |
| Similarity.CountUser | src/preprocess.py:262-268 | the `i` loop counts every pair of the user's list |
| Similarity.CountingDone | src/preprocess.py:255-268 | after the last user every counter is its pair's number of co-listeners, and every co-listened pair has a counter |
| Similarity.CoListening | src/preprocess.py:255-268 | the counters hold exactly the canonical pairs with a co-listener, each with its number of co-listeners |
| Similarity.FrequentSpec | src/preprocess.py:271-275 | the kept pairs are exactly the counted pairs with a count of at least 2, each with its count, none twice |
| Similarity.KeepFrequent | src/preprocess.py:271-275 | the filter loop keeps those pairs in counter order |
| Similarity.SimilarPairs | src/preprocess.py:255-275 | every kept pair is canonical, with count at least 2 equal to its co-listeners, and every pair with two co-listeners is kept |
| Similarity.SharedAreCoListeners | src/preprocess.py:245-259 | co-listeners in `artist_users` are the users with a relation to both artists |
| Similarity.ArtistSimilarity | src/preprocess.py:240-275 | the pairs emitted from the relations are exactly the canonical pairs with at least two shared listeners, each once, with that number |
| Triples.WriteKg | src/preprocess.py:288-308 | the four writing loops produce the four groups in order, and `n_kg_triples` counts the lines written |
| Triples.KgIndex | src/preprocess.py:289-308 | `listened_to` at position `i`, `listened_by` at `|rels| + i`, `similar_to` at `2|rels| + i`, `similar_from` after it; there are `2|rels| + 2|sims|` triples |
| Triples.KgLayout | src/preprocess.py:281-308 | every relation id is one of the four, and each reverse group is the head/tail swap of its forward group, in the same order |
| Triples.KgEntitiesWithin | src/preprocess.py:289-308 | when relations lead from users to artists and pairs join artists, every head and tail is an artist or a user, and every triple has an artist at one end |
| Triples.KgEntityRange | src/preprocess.py:289-308 | when relation heads lie in `[n_artists, n_artists + n_users)` and artists in `[0, n_artists)`, every head and tail is an entity id, and every triple has an artist at one of its ends |
| Metadata.ParseValue | src/graph_loader.py:28-36 | a value is a bool iff it is `true`/`false` in any case, and that bool is true exactly for `true`; otherwise an integer if `int()` accepts it; otherwise the text |
| Metadata.LoadDatasetMetadata | src/graph_loader.py:10-37 | `None` without the file, else the dictionary its lines describe |
| Metadata.ReadLine | src/graph_loader.py:23-36 | a stripped line without `=` changes nothing; otherwise its key is set to its converted value |
| Metadata.KeyPresent | src/graph_loader.py:24-26 | a key is present iff some line names it |
| Metadata.LastLineWins | src/graph_loader.py:26-36 | a key's value is the one on the last line naming it |
| Metadata.LineEntry | src/graph_loader.py:24-26 | `key=value` with a readable key and value splits back into that key and value |
| Metadata.RenderRoundTrip | src/graph_loader.py:22-36 | lines written from readable entries read back as those entries, the later ones winning |
| Metadata.IntText | src/graph_loader.py:33-34 | `str(n)` reads back as the integer `n` |
| Metadata.BoolText | src/graph_loader.py:28-31 | `True`/`False` read back as the booleans |
| Metadata.MetadataReadable | src/preprocess.py:323-332 | every line `preprocess_music` writes has a readable key and value |
| Metadata.MetadataFold | src/preprocess.py:323-332 | the written entries describe the expected dictionary |
| Metadata.MetadataRoundTrip | src/preprocess.py:322-332 | reading the written metadata gives `filtered` as the written boolean and every count as the written integer |
| Text.IntRoundTrip | src/graph_loader.py:33-34 | `int(str(n)) == n` |
| Text.SplitAtEquals | src/graph_loader.py:25-26 | `split('=', 1)` is defined iff the line holds `=`, splits at the first `=`, and rebuilds the line |
| Text.KeyValueSplit | src/graph_loader.py:24-26 | stripping and splitting `key=value` gives back the key and the value |
| Text.IntStringNotBool | src/graph_loader.py:28-34 | `str(n)` never reads as a boolean |
| Text.BoolStrings | src/graph_loader.py:28-31 | `str(True)` and `str(False)` lower to `true` and `false` |
| Preprocess.RatingsStage | src/preprocess.py:120-186 | the listens, the median threshold, the user numbering and one rating block per user |
| Preprocess.GraphStage | src/preprocess.py:210-311 | the relations, the frequent pairs and the triples, with `n_kg_triples = 2·|rels| + 2·|sims|` |
| Preprocess.WriteMetadata | src/preprocess.py:320-332 | the metadata file is replaced by the run's lines and nothing else changes |
| Preprocess.Pipeline | src/preprocess.py:103-332 | the indices, ratings, relations, frequent pairs and triples of a run, with the counts it reports |
| Preprocess.ConvertedNumbered | src/preprocess.py:226-275 | in a run, every relation head is `n_artists + u` with `u < n_users`, and every artist of a relation or a frequent pair is a value of `artist_id2index` |
| Preprocess.PipelineKgRange | src/preprocess.py:289-308 | with distinct catalogue ids, every head and tail of the triples a run writes is below `n_artists + n_users`, and every triple has an artist (an id below `n_artists`) at one end |
| Preprocess.PipelineEntityBound | src/graph_loader.py:75 | for the triples of any run, distinct catalogue ids or not, the loader's `n_entity` is at most the run's `n_artists + n_users` |
| Preprocess.Convert | src/preprocess.py:99-335 | a missing raw file is an error that writes nothing; otherwise the three output files hold the pipeline's results |
| Preprocess.PreprocessMusic | src/preprocess.py:82-335 | the filter runs only when reducing, and `reduce_data` falls back to false when it finds no file; then the conversion runs |
| Loader.LoadCached | src/graph_loader.py:69-73 | the load yields the `.npy` rows if that file exists, else the text rows, which are then saved as `.npy` |
| Loader.CacheBehaviour | src/graph_loader.py:69-73 | loading fails only when neither file exists; a repeated load returns the identical rows and changes nothing; an existing `.npy` wins over any text |
| Loader.ConstructKg | src/graph_loader.py:91-105 | the keys are exactly the heads that occur, in first-seen order, and each list holds the `(tail, relation)` of its rows in row order |
| Loader.AdjacencyRows | src/graph_loader.py:102-105 | `(t, r)` is in `kg[h]` iff some row is `(h, r, t)`, with as many entries as rows with head `h` |
| Loader.AdjacencySum | src/graph_loader.py:102-105 | the list lengths add up to the number of rows |
| Loader.Tagged | src/graph_loader.py:80-85 | the metadata keeps the file's other entries and holds `n_entity`, `n_relation`, and `type` = `filtered` iff `filtered` is truthy, else `full` |
| Loader.LoadKg | src/graph_loader.py:40-88 | the counts, the adjacency dictionary and the tagged metadata from the cached rows; a missing file is an error |
| Loader.LoadRatings | src/graph_loader.py:108-135 | the cached ratings rows, with the same cache behaviour |
| Loader.ExpectedFlag | src/preprocess.py:323-332 | the written `filtered` entry is the last one with that key |
| Loader.ReloadedTag | src/graph_loader.py:59-85 | reloading a run's metadata tags the dataset `filtered` iff that run reduced the data |
| Loader.NoMetadataIsFull | src/graph_loader.py:81-85 | without a metadata file the tag is `full` and only the three keys are present |
| Loader.LoadedRelationCount | src/graph_loader.py:76 | on the written triples, `n_relation` is 2 per non-empty pair of groups: 0, 2 or 4 |
| Loader.GroupsPresent | src/graph_loader.py:76 | the relation ids in the file are those of its non-empty groups |
| Loader.EntityCountWithin | src/graph_loader.py:75 | when relations lead from a set of users to a set of artists and pairs join artists, `n_entity` is at most the sum of the two sets' sizes |
| Loader.LoadedEntityBound | src/graph_loader.py:75 | on triples whose relation heads and artists lie in the entity ranges, `n_entity` is at most `n_artists + n_users` |
| Loader.GetUserHistory | src/graph_loader.py:138-154 | the keys are the users with a label-1 row, in first-seen order; each maps to the items of its label-1 rows |
| Loader.HistoryMembers | src/graph_loader.py:150-152 | an item is in `u`'s history iff some row is `(u, item, 1)` |
| Loader.HistoryCount | src/graph_loader.py:150-152 | `u`'s history is as long as `u` has label-1 rows |
| Loader.HistoryRows | src/graph_loader.py:148-154 | both of the above, and `u` is a key iff its history is non-empty |
| Tally.Increment | src/graph_visualizer.py:314-316 | `counts[x] += 1` keeps a `defaultdict(int)` an exact tally in first-seen key order |
| Tally.TallySum | src/graph_visualizer.py:314-316 | a tally's values add up to the number of counted elements |
| Tally.CountMultiplicity | src/graph_visualizer.py:314-316 | a count is the multiplicity, and is positive exactly for the occurring elements |
| Tally.Max | src/graph_visualizer.py:325 | `max` of a non-empty list is an element at least every element |
| Tally.Min | src/graph_visualizer.py:326 | `min` of a non-empty list is an element at most every element |
| Statistics.ScanTails | src/graph_visualizer.py:311-316 | the inner loop adds one edge per list entry to every accumulator |
| Statistics.Accumulate | src/graph_visualizer.py:309-316 | the nodes, the edges, the degree tally over both ends, and the relation tally of all edges |
| Statistics.GraphStatistics | src/graph_visualizer.py:294-330 | node count = heads ∪ tails; edge count = number of edges; relations = distinct relation ids; distribution = per-relation edge counts; `degre_max`/`degre_min` are attained degrees bounding all others, or 0 without edges |
| Statistics.EdgesOfGraph | src/graph_visualizer.py:309-313 | an edge is a key with an entry of its list, and there are as many edges as list entries |
| Statistics.DegreeAt | src/graph_visualizer.py:318 | the degree list holds the degree of every node that ends an edge |
| Statistics.DegreeExtremes | src/graph_visualizer.py:318-326 | there is no degree iff there is no edge; otherwise min ≤ max, both attained, bounding every degree |
| Statistics.DegreeSum | src/graph_visualizer.py:314-315 | the degrees add up to twice the number of edges, a self-loop counting twice |
| Statistics.DistributionSum | src/graph_visualizer.py:316 | the relation distribution adds up to the number of edges |
| Statistics.LoadedEdgeCount | src/graph_visualizer.py:309-313 | on the graph `load_kg` builds, every triple is one edge |
| Subgraph.WithinStep | src/graph_visualizer.py:189-194 | following an edge of the relation from a node within `k` hops reaches a node within `k + 1` |
| Subgraph.Expand | src/graph_visualizer.py:188-194 | every entry of the relation becomes an edge, and its tail is queued one hop further only if unvisited and the bound is not reached |
| Subgraph.Visit | src/graph_visualizer.py:185-194 | visiting a node adds its edges of the relation and their tails, and queues only reachable, unvisited nodes within the bound |
| Subgraph.SearchStart | src/graph_visualizer.py:174-176 | the queue of start nodes at hop 0 satisfies the search invariant |
| Subgraph.Step | src/graph_visualizer.py:179-194 | one iteration keeps the invariant and either visits a new node or shortens the queue |
| Subgraph.SearchDone | src/graph_visualizer.py:179-194 | with the queue empty, every edge is an edge of the relation out of a visited node, and every start node is visited |
| Subgraph.Bfs | src/graph_visualizer.py:174-194 | every edge has the requested relation; nodes are the visited nodes and edge tails; every visited node is within `max_hops` of a start; with `max_hops >= 0` every start is visited; no node is visited twice; no hop above `max_hops` is ever queued |
| Common.NumberingIsBijection | src/preprocess.py:159-163 | a consecutive numbering is a bijection onto `[base, base + n)` |
| Legacy.LastIndexIsLast | src/preprocess.py:341-347 | each key maps to the position of its last line; the values are distinct and below the number of lines |
| Legacy.ReadItemIndex | src/preprocess.py:338-347 | line `i` maps its item index and its satori id to `i`, later lines overwriting earlier ones |
| Legacy.Fresh | src/preprocess.py:425-437 | the names that get new ids are the unknown ones, in first-occurrence order, without repeats |
| Legacy.InternKeys | src/preprocess.py:425-437 | interning keeps every old entry and adds exactly the names |
| Legacy.InternNumbering | src/preprocess.py:425-437 | new names are numbered consecutively from the starting counter, and the counter ends past them |
| Legacy.InternInjective | src/preprocess.py:425-437 | starting above every existing id, distinct names get distinct ids |
| Legacy.FreshFromEmpty | src/preprocess.py:435-437 | from an empty map, relations are numbered in first-occurrence order |
| Legacy.InternName | src/preprocess.py:425-428 | one interning step holds the name afterwards and changes no earlier entry |
| Legacy.ConvertKgFrom | src/preprocess.py:418-440 | each line is written as the ids of its head, relation and tail, with both maps the interning of all names |
| Legacy.ConvertKg | src/preprocess.py:404-444 | as written: the entity counter starts at `len(entity_id2index)` |
| Legacy.StartCollision | src/preprocess.py:406 | with a repeated satori id, the counter as written gives a new entity the id of an old one |
| Legacy.EntitiesInjective | src/preprocess.py:406-433 | with the counter started after the last item-index line, distinct entity strings get distinct ids |
| Legacy.LegacyNumbering | src/preprocess.py:404-438 | with that counter, ids are distinct, satori ids keep their line numbers, and relations are numbered from 0 in first-seen order |
| Legacy.LegacyPath | src/preprocess.py:474-480 | the item-index read then the corrected conversion: injective entity ids, consistent triples |

## Left out

- I/O is abstract. Opening, tokenising and writing files, `os.path.exists`, `shutil.copy`, `np.load`/`np.save`/`np.loadtxt` and `os.makedirs` are replaced by the store's maps of tokenised contents. `np.loadtxt`'s reshaping of one-row and empty files is not modelled.
- `print` logging, `np.mean` (`degre_moyen`, floating point), and all matplotlib/networkx drawing, layout and saving are left out.
- The concrete random generator (`np.random.seed(555)`) is not modelled. Any draw of the right size, distinct and from the unheard artists, is allowed.
- `np.median` as a float is not modelled. The model keeps twice the median as an exact integer and compares `2 * w` with it.
- Python's `int()` leniency is not modelled: surrounding whitespace, underscores and non-ASCII digits. `int()` is a plain signed decimal. `strip`/`lower` cover ASCII only.
- The metadata that `load_ratings` reads (src/graph_loader.py:123) is never used there and is not modelled.
- The loop over relation types in `visualize_subgraph` (src/graph_visualizer.py:169-172) and everything after the search are left out. The networkx graph is a set of nodes and a set of edges.
- Subgraph.Bfs: completeness is not stated (every node within `max_hops` hops is visited), only soundness and the start nodes.
- Ratings.UserRatings: the order in which a Python set yields the positives, and which unheard artists are sampled, are left open. Only the sizes, labels, membership and distinctness are fixed.
- Interactions.ReadLenient: its own contract only bounds the length. What it reads is stated by Interactions.ReadWritten and Interactions.ReadersAgree.
- The weights stored in `artist_users` (src/preprocess.py:245-249) are never read, so the model keeps a set of users per artist.
- Python set and dictionary iteration orders are fixed only where the code depends on them: dictionary key order is first-seen order. The entity map, the ratings threshold and the co-listening counts are proved not to depend on them.
- `convert_rating` (src/preprocess.py:350-399) is not part of this model.
- The legacy path's file names, globals and line tokenising (src/preprocess.py:338-344, 409-423, 461, 474-476) are not modelled. The two-file movie case is one sequence of lines.
- src/main.py and src/dfs.py are not part of this model.

## Findings

| source | as written | input that shows it | evidently intended | confidence | as-written member | corrected member |
|---|---|---|---|---|---|---|
| src/preprocess.py:406 | `convert_kg` starts its entity counter at `len(entity_id2index)`, the number of distinct satori ids | item-index lines `0⇥s`, `1⇥s`, then the triple `x⇥r⇥y`: `s` has id 1, the map has size 1, so `x` also gets id 1 | start the counter after the last id the item-index file assigned (its line count), so distinct entities get distinct ids | medium (not executed) | Legacy.StartCollision | Legacy.EntitiesInjective |
