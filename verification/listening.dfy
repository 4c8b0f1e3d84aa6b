/** The second pass over `user_artists.dat` in `preprocess_music`
    (src/preprocess.py:127-151): every record that survives the selection and
    names a catalogued artist becomes a listen of that artist's index; the
    listened artist indices of each user are its positives, and the last
    weight read for a `(user, artist)` pair is the one kept. */
module Listening {
  import opened Common
  import opened Interactions
  import opened TopK
  import Tally

  /** A record whose artist id has been replaced by the artist's index. */
  datatype Listen = Listen(user: int, artist: int, weight: int)

  /** The record is kept: it passes the selection when reducing, and its
      artist is in the catalogue index. */
  predicate Admitted(x: Interaction, selection: Option<Selection>, artistIndex: map<int, int>)
  {
    && (selection.None? || (x.user in selection.value.users && x.artist in selection.value.artists))
    && x.artist in artistIndex
  }

  function ToListen(x: Interaction, artistIndex: map<int, int>): Listen
    requires x.artist in artistIndex
  {
    Listen(x.user, artistIndex[x.artist], x.weight)
  }

  function Listens(data: seq<Interaction>, selection: Option<Selection>, artistIndex: map<int, int>): seq<Listen>
  {
    if data == [] then []
    else
      var x := data[|data| - 1];
      Listens(data[..|data| - 1], selection, artistIndex)
      + (if Admitted(x, selection, artistIndex) then [ToListen(x, artistIndex)] else [])
  }

  /** The listens are exactly the admitted records, mapped to artist indices:
      none names an artist outside the index or, when reducing, a user
      outside the selection. */
  lemma {:induction false} ListensSpec(data: seq<Interaction>, selection: Option<Selection>, artistIndex: map<int, int>)
    ensures |Listens(data, selection, artistIndex)| <= |data|
    ensures forall l | l in Listens(data, selection, artistIndex) ::
              l.artist in artistIndex.Values && (selection.Some? ==> l.user in selection.value.users)
    ensures forall i | 0 <= i < |data| && Admitted(data[i], selection, artistIndex) ::
              ToListen(data[i], artistIndex) in Listens(data, selection, artistIndex)
  {
    if data != [] {
      var p := data[..|data| - 1];
      ListensSpec(p, selection, artistIndex);
      forall i | 0 <= i < |p| ensures data[i] == p[i] { }
    }
  }

  function ListenUsers(L: seq<Listen>): seq<int>
  {
    seq(|L|, i requires 0 <= i < |L| => L[i].user)
  }

  /** The artist indices user `u` listened to. */
  function PositiveArtists(L: seq<Listen>, u: int): set<int>
  {
    if L == [] then {}
    else
      var l := L[|L| - 1];
      PositiveArtists(L[..|L| - 1], u) + (if l.user == u then {l.artist} else {})
  }

  /** The weight of the last listen of `a` by `u`, if any. */
  function LastWeight(L: seq<Listen>, u: int, a: int): Option<int>
  {
    if L == [] then None
    else
      var l := L[|L| - 1];
      if l.user == u && l.artist == a then Some(l.weight) else LastWeight(L[..|L| - 1], u, a)
  }

  /** `a` is a positive of `u` exactly when some listen pairs them. */
  lemma {:induction false} PositiveArtistsSpec(L: seq<Listen>, u: int, a: int)
    ensures a in PositiveArtists(L, u) <==> exists i | 0 <= i < |L| :: L[i].user == u && L[i].artist == a
  {
    if L != [] {
      var p := L[..|L| - 1];
      PositiveArtistsSpec(p, u, a);
      if a in PositiveArtists(p, u) {
        var i :| 0 <= i < |p| && p[i].user == u && p[i].artist == a;
        assert L[i] == p[i];
      }
      if exists i | 0 <= i < |L| :: L[i].user == u && L[i].artist == a {
        var i :| 0 <= i < |L| && L[i].user == u && L[i].artist == a;
        if i < |p| {
          assert p[i] == L[i];
        }
      }
    }
  }

  /** Last write wins: the weight kept for a pair is that of its last
      listen, and there is one exactly for the positives. */
  lemma {:induction false} LastWeightSpec(L: seq<Listen>, u: int, a: int)
    ensures LastWeight(L, u, a).Some? <==> a in PositiveArtists(L, u)
    ensures forall i | 0 <= i < |L| && L[i].user == u && L[i].artist == a
                       && (forall j | i < j < |L| :: !(L[j].user == u && L[j].artist == a)) ::
              LastWeight(L, u, a) == Some(L[i].weight)
  {
    if L != [] {
      var p := L[..|L| - 1];
      LastWeightSpec(p, u, a);
      forall i | 0 <= i < |L| && L[i].user == u && L[i].artist == a
                 && (forall j | i < j < |L| :: !(L[j].user == u && L[j].artist == a))
        ensures LastWeight(L, u, a) == Some(L[i].weight)
      {
        if i < |p| {
          assert p[i] == L[i];
          forall j | i < j < |p| ensures !(p[j].user == u && p[j].artist == a) {
            assert p[j] == L[j];
          }
        }
      }
    }
  }

  /** The state of the reading loop after the listens `L`: the user order of
      `user_pos_ratings`, its sets, and the nested `user_weights` table. */
  ghost predicate Collected(L: seq<Listen>, users: seq<int>, pos: map<int, set<int>>, weights: map<int, map<int, int>>)
  {
    && Tally.Keyed(users, pos, ListenUsers(L)) && weights.Keys == pos.Keys
    && PositivesCollected(L, pos) && WeightsCollected(L, weights)
  }

  ghost predicate PositivesCollected(L: seq<Listen>, pos: map<int, set<int>>)
  {
    forall u | u in pos :: pos[u] == PositiveArtists(L, u)
  }

  ghost predicate WeightsCollected(L: seq<Listen>, weights: map<int, map<int, int>>)
  {
    && (forall u | u in weights :: weights[u].Keys == PositiveArtists(L, u))
    && (forall u, a | u in weights && a in weights[u] :: LastWeight(L, u, a) == Some(weights[u][a]))
  }

  lemma {:induction false} NoListens(L: seq<Listen>, u: int)
    requires u !in Elems(ListenUsers(L))
    ensures PositiveArtists(L, u) == {}
    ensures forall a :: LastWeight(L, u, a) == None
  {
    if L != [] {
      var p := L[..|L| - 1];
      assert ListenUsers(L) == ListenUsers(p) + [L[|L| - 1].user];
      NoListens(p, u);
    }
  }

  lemma ListenUsersSnoc(L: seq<Listen>, l: Listen)
    ensures ListenUsers(L + [l]) == ListenUsers(L) + [l.user]
  {
  }

  lemma PositivesStep(L: seq<Listen>, l: Listen, pos: map<int, set<int>>)
    requires PositivesCollected(L, pos)
    requires l.user !in pos ==> PositiveArtists(L, l.user) == {}
    ensures PositivesCollected(L + [l], pos[l.user := (if l.user in pos then pos[l.user] else {}) + {l.artist}])
  {
    var L' := L + [l];
    assert L'[..|L'| - 1] == L;
  }

  lemma WeightsStep(L: seq<Listen>, l: Listen, weights: map<int, map<int, int>>)
    requires WeightsCollected(L, weights)
    requires l.user !in weights ==> PositiveArtists(L, l.user) == {}
    ensures WeightsCollected(L + [l], weights[l.user := (if l.user in weights then weights[l.user] else map[])[l.artist := l.weight]])
  {
    var L' := L + [l];
    assert L'[..|L'| - 1] == L;
    var w' := weights[l.user := (if l.user in weights then weights[l.user] else map[])[l.artist := l.weight]];
    forall u, a | u in w' && a in w'[u] ensures LastWeight(L', u, a) == Some(w'[u][a]) {
      if !(u == l.user && a == l.artist) {
        assert LastWeight(L', u, a) == LastWeight(L, u, a);
      }
    }
  }

  /** `user_weights[user][artist_idx] = weight` and
      `user_pos_ratings[user].add(artist_idx)` on a `defaultdict(dict)` and a
      `defaultdict(set)`, where a new user starts empty
      (src/preprocess.py:147-149). */
  method AddListen(users: seq<int>, pos: map<int, set<int>>, weights: map<int, map<int, int>>,
                   ghost L: seq<Listen>, l: Listen)
    returns (users': seq<int>, pos': map<int, set<int>>, weights': map<int, map<int, int>>)
    requires Collected(L, users, pos, weights)
    ensures Collected(L + [l], users', pos', weights')
  {
    ListenUsersSnoc(L, l);
    if l.user !in pos {
      NoListens(L, l.user);
    }
    weights' := weights[l.user := (if l.user in weights then weights[l.user] else map[])[l.artist := l.weight]];
    WeightsStep(L, l, weights);
    users' := users;
    if l.user !in pos {
      users' := users + [l.user];
    }
    pos' := pos[l.user := (if l.user in pos then pos[l.user] else {}) + {l.artist}];
    Tally.KeyedStep(users, pos, ListenUsers(L), l.user, pos'[l.user]);
    PositivesStep(L, l, pos);
  }

  /** The reading loop (src/preprocess.py:131-151) over the parsed records:
      `user_weights[user_id][artist_idx] = weight` and
      `user_pos_ratings[user_id].add(artist_idx)` for every admitted record. */
  method CollectPositives(data: seq<Interaction>, selection: Option<Selection>, artistIndex: map<int, int>)
    returns (users: seq<int>, pos: map<int, set<int>>, weights: map<int, map<int, int>>)
    ensures Collected(Listens(data, selection, artistIndex), users, pos, weights)
  {
    users, pos, weights := [], map[], map[];
    var i := 0;
    while i < |data|
      invariant 0 <= i <= |data|
      invariant Collected(Listens(data[..i], selection, artistIndex), users, pos, weights)
    {
      var x := data[i];
      assert data[..i + 1][..i] == data[..i];
      ghost var L := Listens(data[..i], selection, artistIndex);
      if selection.Some? && (x.user !in selection.value.users || x.artist !in selection.value.artists) {
        assert Listens(data[..i + 1], selection, artistIndex) == L;
      } else if x.artist in artistIndex {
        var artistIdx := artistIndex[x.artist];
        assert Listens(data[..i + 1], selection, artistIndex) == L + [Listen(x.user, artistIdx, x.weight)];
        users, pos, weights := AddListen(users, pos, weights, L, Listen(x.user, artistIdx, x.weight));
      } else {
        assert Listens(data[..i + 1], selection, artistIndex) == L;
      }
      i := i + 1;
    }
    assert data[..i] == data;
  }
}
