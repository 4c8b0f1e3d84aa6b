/** `user_artist_relations` (src/preprocess.py:213-236): a third pass over
    `user_artists.dat` that turns every admitted record of an indexed user
    into `(n_artists + user_idx, artist_idx, weight)`. */
module Relations {
  import opened Common
  import opened Interactions
  import opened TopK
  import opened Listening

  datatype Relation = Relation(userEntity: int, artist: int, weight: int)

  /** The record is kept by the third pass: it passes the selection when
      reducing, and both its user and its artist have an index. */
  predicate Related(x: Interaction, selection: Option<Selection>, userIndex: map<int, int>, artistIndex: map<int, int>)
  {
    && (selection.None? || (x.user in selection.value.users && x.artist in selection.value.artists))
    && x.user in userIndex && x.artist in artistIndex
  }

  function UserArtistRelations(data: seq<Interaction>, selection: Option<Selection>,
                               userIndex: map<int, int>, artistIndex: map<int, int>, nArtists: int): seq<Relation>
  {
    if data == [] then []
    else
      var x := data[|data| - 1];
      UserArtistRelations(data[..|data| - 1], selection, userIndex, artistIndex, nArtists)
      + (if Related(x, selection, userIndex, artistIndex)
         then [Relation(nArtists + userIndex[x.user], artistIndex[x.artist], x.weight)]
         else [])
  }

  /** The relation-building loop (src/preprocess.py:217-236). */
  method BuildRelations(data: seq<Interaction>, selection: Option<Selection>,
                        userIndex: map<int, int>, artistIndex: map<int, int>, nArtists: int)
    returns (relations: seq<Relation>)
    ensures relations == UserArtistRelations(data, selection, userIndex, artistIndex, nArtists)
  {
    relations := [];
    for i := 0 to |data|
      invariant relations == UserArtistRelations(data[..i], selection, userIndex, artistIndex, nArtists)
    {
      assert data[..i + 1][..i] == data[..i];
      var x := data[i];
      if selection.Some? && (x.user !in selection.value.users || x.artist !in selection.value.artists) {
        continue;
      }
      if x.user in userIndex && x.artist in artistIndex {
        var userIdx := userIndex[x.user];
        var artistIdx := artistIndex[x.artist];
        var userEntityIdx := nArtists + userIdx;
        relations := relations + [Relation(userEntityIdx, artistIdx, x.weight)];
      }
    }
    assert data[..|data|] == data;
  }

  /** The relation for a listen: its user's entity id, its artist, its weight. */
  function RelationOf(l: Listen, userIndex: map<int, int>, nArtists: int): Relation
    requires l.user in userIndex
  {
    Relation(nArtists + userIndex[l.user], l.artist, l.weight)
  }

  /** The user index holds exactly the users that have a listen, so the third
      pass finds one relation per listen of the second, in the same order:
      a duplicated raw record yields a duplicated relation. */
  lemma {:induction false} RelationsFollowListens(data: seq<Interaction>, selection: Option<Selection>,
                                                  userIndex: map<int, int>, artistIndex: map<int, int>, nArtists: int)
    requires userIndex.Keys == Elems(ListenUsers(Listens(data, selection, artistIndex)))
    ensures var L := Listens(data, selection, artistIndex);
            var R := UserArtistRelations(data, selection, userIndex, artistIndex, nArtists);
            |R| == |L| && forall i | 0 <= i < |L| :: L[i].user in userIndex && R[i] == RelationOf(L[i], userIndex, nArtists)
  {
    forall i | 0 <= i < |data| && Admitted(data[i], selection, artistIndex) ensures data[i].user in userIndex {
      AdmittedIndexed(data, i, selection, userIndex, artistIndex);
    }
    RelationsPrefix(data, selection, userIndex, artistIndex, nArtists);
  }

  /** An admitted record's user has a listen, hence an index. */
  lemma AdmittedIndexed(data: seq<Interaction>, i: int, selection: Option<Selection>,
                        userIndex: map<int, int>, artistIndex: map<int, int>)
    requires 0 <= i < |data| && Admitted(data[i], selection, artistIndex)
    requires userIndex.Keys == Elems(ListenUsers(Listens(data, selection, artistIndex)))
    ensures data[i].user in userIndex
  {
    ListensSpec(data, selection, artistIndex);
    var L := Listens(data, selection, artistIndex);
    var k :| 0 <= k < |L| && L[k] == ToListen(data[i], artistIndex);
    assert ListenUsers(L)[k] == data[i].user;
  }

  lemma {:induction false} RelationsPrefix(data: seq<Interaction>, selection: Option<Selection>,
                                           userIndex: map<int, int>, artistIndex: map<int, int>, nArtists: int)
    requires forall i | 0 <= i < |data| && Admitted(data[i], selection, artistIndex) :: data[i].user in userIndex
    ensures var L := Listens(data, selection, artistIndex);
            var R := UserArtistRelations(data, selection, userIndex, artistIndex, nArtists);
            |R| == |L| && forall i | 0 <= i < |L| :: L[i].user in userIndex && R[i] == RelationOf(L[i], userIndex, nArtists)
  {
    if data != [] {
      var p := data[..|data| - 1];
      forall i | 0 <= i < |p| ensures p[i] == data[i] { }
      RelationsPrefix(p, selection, userIndex, artistIndex, nArtists);
    }
  }

  /** Every relation leads from the entity id of a numbered user to a
      numbered artist. */
  lemma {:induction false} RelationsNumbered(data: seq<Interaction>, selection: Option<Selection>,
                                             userIndex: map<int, int>, artistIndex: map<int, int>, nArtists: int)
    ensures forall r | r in UserArtistRelations(data, selection, userIndex, artistIndex, nArtists) ::
              r.userEntity - nArtists in userIndex.Values && r.artist in artistIndex.Values
  {
    if data != [] {
      RelationsNumbered(data[..|data| - 1], selection, userIndex, artistIndex, nArtists);
    }
  }
}
