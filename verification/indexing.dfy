/** Entity indexing in `preprocess_music`: artists numbered in catalogue
    order (src/preprocess.py:105-118), users numbered in first-seen order
    (src/preprocess.py:159-163), and the shared entity id space where artists
    come first and users follow (src/preprocess.py:194-208). */
module Indexing {
  import opened Common

  /** The artist ids read from `artists.dat`: every line whose first field is
      an integer, restricted to the selected artists when reducing. */
  function KeptArtists(catalogue: seq<Line>, selection: Option<set<int>>): seq<int>
  {
    if catalogue == [] then []
    else
      var l := catalogue[|catalogue| - 1];
      KeptArtists(catalogue[..|catalogue| - 1], selection) + KeptOf(l, selection)
  }

  /** The id one catalogue line contributes: none, or its first field. */
  function KeptOf(l: Line, selection: Option<set<int>>): seq<int>
  {
    if |l| >= 1 && l[0].Num? && (selection.None? || l[0].n in selection.value) then [l[0].n] else []
  }

  lemma KeptArtistsStep(catalogue: seq<Line>, i: nat, selection: Option<set<int>>)
    requires i < |catalogue|
    ensures KeptArtists(catalogue[..i + 1], selection) == KeptArtists(catalogue[..i], selection) + KeptOf(catalogue[i], selection)
  {
    assert catalogue[..i + 1][..i] == catalogue[..i];
  }

  /** The integer ids of the catalogue. */
  function CatalogueIds(catalogue: seq<Line>): set<int>
  {
    set i | 0 <= i < |catalogue| && |catalogue[i]| >= 1 && catalogue[i][0].Num? :: catalogue[i][0].n
  }

  /** `artist_id2index[artist_id] = len(artist_id2index)` over the kept ids. */
  function AssignIndices(ids: seq<int>): map<int, int>
  {
    if ids == [] then map[]
    else
      var m := AssignIndices(ids[..|ids| - 1]);
      m[ids[|ids| - 1] := |m|]
  }

  /** With distinct catalogue ids, the artist index numbers the kept ids
      `0, 1, ...` in catalogue order: a bijection onto `[0, n_artists)`. */
  lemma {:induction false} DistinctArtistsNumbered(ids: seq<int>)
    requires Distinct(ids)
    ensures NumberedFrom(AssignIndices(ids), ids, 0)
  {
    if ids != [] {
      var p, x := ids[..|ids| - 1], ids[|ids| - 1];
      DistinctArtistsNumbered(p);
      NumberingIsBijection(AssignIndices(p), p, 0);
      assert x !in Elems(p);
      assert ids == p + [x];
    }
  }

  /** A repeated catalogue id is numbered again with the current size of the
      index, which is then out of range: `[5, 7, 5]` maps 5 to 2 in a map of
      size 2. */
  lemma RepeatedArtistOutOfRange()
    ensures var m := AssignIndices([5, 7, 5]);
            |m| == 2 && m[5] == 2 && m[7] == 1
  {
    assert [5, 7, 5][..2] == [5, 7];
    assert [5, 7][..1] == [5];
    assert [5][..0] == [];
    assert map[5 := 0][7 := 1] == map[5 := 0, 7 := 1];
    assert map[5 := 0, 7 := 1].Keys == {5, 7};
  }

  /** When reducing, the kept artists are the selected ones that the
      catalogue lists; otherwise every catalogue id is kept. */
  lemma {:induction false} KeptArtistsSpec(catalogue: seq<Line>, selection: Option<set<int>>)
    ensures selection.None? ==> Elems(KeptArtists(catalogue, selection)) == CatalogueIds(catalogue)
    ensures selection.Some? ==> Elems(KeptArtists(catalogue, selection)) == CatalogueIds(catalogue) * selection.value
  {
    if catalogue != [] {
      var p := catalogue[..|catalogue| - 1];
      KeptArtistsSpec(p, selection);
      var l := catalogue[|catalogue| - 1];
      assert CatalogueIds(catalogue) == CatalogueIds(p) + (if |l| >= 1 && l[0].Num? then {l[0].n} else {}) by {
        forall i | 0 <= i < |p| ensures catalogue[i] == p[i] { }
      }
      var tail := KeptOf(l, selection);
      assert Elems(KeptArtists(p, selection) + tail) == Elems(KeptArtists(p, selection)) + Elems(tail);
    }
  }

  /** The catalogue loop (src/preprocess.py:105-118). */
  method IndexArtists(catalogue: seq<Line>, selection: Option<set<int>>) returns (artistIndex: map<int, int>)
    ensures artistIndex == AssignIndices(KeptArtists(catalogue, selection))
  {
    artistIndex := map[];
    var i := 0;
    while i < |catalogue|
      invariant 0 <= i <= |catalogue|
      invariant artistIndex == AssignIndices(KeptArtists(catalogue[..i], selection))
    {
      KeptArtistsStep(catalogue, i, selection);
      ghost var kept := KeptArtists(catalogue[..i], selection);
      var l := catalogue[i];
      if |l| >= 1 && l[0].Num? && (selection.None? || l[0].n in selection.value) {
        var artistId := l[0].n;
        assert KeptOf(l, selection) == [artistId];
        assert (kept + [artistId])[..|kept|] == kept;
        artistIndex := artistIndex[artistId := |artistIndex|];
      } else {
        assert kept + KeptOf(l, selection) == kept;
      }
      i := i + 1;
    }
    assert catalogue[..i] == catalogue;
  }

  /** The user numbering loop (src/preprocess.py:159-163) over the keys of
      `user_pos_ratings`, which a dictionary holds without repeats. */
  method IndexUsers(users: seq<int>) returns (userIndex: map<int, int>)
    requires Distinct(users)
    ensures NumberedFrom(userIndex, users, 0)
  {
    userIndex := map[];
    var userIdx := 0;
    while userIdx < |users|
      invariant 0 <= userIdx <= |users|
      invariant NumberedFrom(userIndex, users[..userIdx], 0)
    {
      assert users[..userIdx + 1] == users[..userIdx] + [users[userIdx]];
      assert users[userIdx] !in Elems(users[..userIdx]);
      userIndex := userIndex[users[userIdx] := userIdx];
      userIdx := userIdx + 1;
    }
    assert users[..userIdx] == users;
  }

  /** The keys `f'artist_{aid}'` and `f'user_{uid}'` of `entity_id2index`. */
  datatype EntityKey = ArtistEntity(artistId: int) | UserEntity(userId: int)

  function ArtistKeys(ids: set<int>): set<EntityKey>
  {
    set a | a in ids :: ArtistEntity(a)
  }

  function UserKeys(ids: set<int>): set<EntityKey>
  {
    set u | u in ids :: UserEntity(u)
  }

  /** `entity_id2index`: artists keep their index, users are shifted past
      the artists. */
  ghost predicate IsEntityIndex(entity: map<EntityKey, int>, artistIndex: map<int, int>, userIndex: map<int, int>)
  {
    && entity.Keys == ArtistKeys(artistIndex.Keys) + UserKeys(userIndex.Keys)
    && (forall a | a in artistIndex :: entity[ArtistEntity(a)] == artistIndex[a])
    && (forall u | u in userIndex :: entity[UserEntity(u)] == |artistIndex| + userIndex[u])
  }

  /** With both indices consecutive, the entity ids are a bijection onto
      `[0, n_artists + n_users)` with the artists below `n_artists` and the
      users from `n_artists` on. */
  lemma EntityIdsPartition(entity: map<EntityKey, int>, artistIndex: map<int, int>, artists: seq<int>,
                           userIndex: map<int, int>, users: seq<int>)
    requires IsEntityIndex(entity, artistIndex, userIndex)
    requires NumberedFrom(artistIndex, artists, 0) && NumberedFrom(userIndex, users, 0)
    ensures |entity| == |artistIndex| + |userIndex|
    ensures forall k | k in entity :: 0 <= entity[k] < |artistIndex| + |userIndex|
    ensures forall k | k in entity :: k.ArtistEntity? <==> entity[k] < |artistIndex|
    ensures forall k1, k2 | k1 in entity && k2 in entity && k1 != k2 :: entity[k1] != entity[k2]
  {
    EntityRanges(entity, artistIndex, artists, userIndex, users);
    EntityCount(entity, artistIndex, userIndex);
    forall k1, k2 | k1 in entity && k2 in entity && k1 != k2 ensures entity[k1] != entity[k2] {
      if k1.ArtistEntity? == k2.ArtistEntity? {
        NumberingIsBijection(artistIndex, artists, 0);
        NumberingIsBijection(userIndex, users, 0);
      }
    }
  }

  /** Artists take the ids below `n_artists`, users the next `n_users`. */
  lemma EntityRanges(entity: map<EntityKey, int>, artistIndex: map<int, int>, artists: seq<int>,
                     userIndex: map<int, int>, users: seq<int>)
    requires IsEntityIndex(entity, artistIndex, userIndex)
    requires NumberedFrom(artistIndex, artists, 0) && NumberedFrom(userIndex, users, 0)
    ensures forall k | k in entity :: 0 <= entity[k] < |artistIndex| + |userIndex|
    ensures forall k | k in entity :: k.ArtistEntity? <==> entity[k] < |artistIndex|
  {
    NumberingIsBijection(artistIndex, artists, 0);
    NumberingIsBijection(userIndex, users, 0);
    forall k | k in entity ensures 0 <= entity[k] < |artistIndex| + |userIndex| && (k.ArtistEntity? <==> entity[k] < |artistIndex|) {
      if k.ArtistEntity? {
        assert artistIndex[k.artistId] in artistIndex.Values;
      } else {
        assert userIndex[k.userId] in userIndex.Values;
      }
    }
  }

  /** There is one entity per artist and one per user, whatever the
      indices hold. */
  lemma EntityCount(entity: map<EntityKey, int>, artistIndex: map<int, int>, userIndex: map<int, int>)
    requires IsEntityIndex(entity, artistIndex, userIndex)
    ensures |entity| == |artistIndex| + |userIndex|
  {
    ArtistKeysCard(artistIndex.Keys);
    UserKeysCard(userIndex.Keys);
    assert ArtistKeys(artistIndex.Keys) !! UserKeys(userIndex.Keys);
    assert |entity| == |entity.Keys|;
  }

  lemma {:induction false} ArtistKeysCard(ids: set<int>)
    ensures |ArtistKeys(ids)| == |ids|
    decreases |ids|
  {
    if ids != {} {
      var x := PickFrom(ids);
      ArtistKeysCard(ids - {x});
      assert ArtistKeys(ids) == ArtistKeys(ids - {x}) + {ArtistEntity(x)};
    }
  }

  lemma {:induction false} UserKeysCard(ids: set<int>)
    ensures |UserKeys(ids)| == |ids|
    decreases |ids|
  {
    if ids != {} {
      var x := PickFrom(ids);
      UserKeysCard(ids - {x});
      assert UserKeys(ids) == UserKeys(ids - {x}) + {UserEntity(x)};
    }
  }

  /** The two loops filling `entity_id2index` (src/preprocess.py:193-208);
      each walks a dictionary whose iteration order does not affect the
      result. */
  method IndexEntities(artistIndex: map<int, int>, userIndex: map<int, int>) returns (entity: map<EntityKey, int>)
    ensures IsEntityIndex(entity, artistIndex, userIndex)
  {
    var nArtists := |artistIndex|;
    entity := MapArtists(artistIndex);
    entity := MapUsers(entity, artistIndex, nArtists, userIndex);
  }

  /** `entity_id2index[f'artist_{aid}'] = idx` for every artist. */
  method MapArtists(artistIndex: map<int, int>) returns (entity: map<EntityKey, int>)
    ensures entity.Keys == ArtistKeys(artistIndex.Keys)
    ensures forall a | a in artistIndex :: entity[ArtistEntity(a)] == artistIndex[a]
  {
    entity := map[];
    var todo := artistIndex.Keys;
    ghost var done: set<int> := {};
    while todo != {}
      invariant done + todo == artistIndex.Keys && done !! todo
      invariant entity.Keys == ArtistKeys(done)
      invariant forall a | a in done :: entity[ArtistEntity(a)] == artistIndex[a]
      decreases todo
    {
      ghost var someId := PickFrom(todo);
      var aid :| aid in todo;
      assert ArtistKeys(done + {aid}) == ArtistKeys(done) + {ArtistEntity(aid)};
      entity := entity[ArtistEntity(aid) := artistIndex[aid]];
      todo := todo - {aid};
      done := done + {aid};
    }
  }

  /** `entity_id2index[f'user_{uid}'] = n_artists + idx` for every user. */
  method MapUsers(artistEntities: map<EntityKey, int>, artistIndex: map<int, int>, nArtists: int, userIndex: map<int, int>)
    returns (entity: map<EntityKey, int>)
    requires artistEntities.Keys == ArtistKeys(artistIndex.Keys)
    requires forall a | a in artistIndex :: artistEntities[ArtistEntity(a)] == artistIndex[a]
    ensures entity.Keys == ArtistKeys(artistIndex.Keys) + UserKeys(userIndex.Keys)
    ensures forall a | a in artistIndex :: entity[ArtistEntity(a)] == artistIndex[a]
    ensures forall u | u in userIndex :: entity[UserEntity(u)] == nArtists + userIndex[u]
  {
    entity := artistEntities;
    var todo := userIndex.Keys;
    ghost var done: set<int> := {};
    while todo != {}
      invariant done + todo == userIndex.Keys && done !! todo
      invariant entity.Keys == artistEntities.Keys + UserKeys(done)
      invariant forall a | a in artistIndex :: entity[ArtistEntity(a)] == artistIndex[a]
      invariant forall u | u in done :: entity[UserEntity(u)] == nArtists + userIndex[u]
      decreases todo
    {
      ghost var someId := PickFrom(todo);
      var uid :| uid in todo;
      assert UserKeys(done + {uid}) == UserKeys(done) + {UserEntity(uid)};
      entity := entity[UserEntity(uid) := nArtists + userIndex[uid]];
      todo := todo - {uid};
      done := done + {uid};
    }
  }
}
