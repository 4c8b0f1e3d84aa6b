/** The knowledge-graph triples written to `kg_final.txt`
    (src/preprocess.py:278-308): every user-artist relation in both
    directions, then every frequent artist pair in both directions, as
    `(head, relation, tail)` rows. */
module Triples {
  import opened Common
  import opened Relations
  import opened Similarity

  /** `relation_id2index`: the four relation types. */
  const ListenedTo := 0
  const ListenedBy := 1
  const SimilarTo := 2
  const SimilarFrom := 3
  const NRelations := 4

  function ListenedToRows(rels: seq<Relation>): seq<Row>
  {
    seq(|rels|, i requires 0 <= i < |rels| => Row(rels[i].userEntity, ListenedTo, rels[i].artist))
  }

  function ListenedByRows(rels: seq<Relation>): seq<Row>
  {
    seq(|rels|, i requires 0 <= i < |rels| => Row(rels[i].artist, ListenedBy, rels[i].userEntity))
  }

  function SimilarToRows(sims: seq<Similar>): seq<Row>
  {
    seq(|sims|, i requires 0 <= i < |sims| => Row(sims[i].artist1, SimilarTo, sims[i].artist2))
  }

  function SimilarFromRows(sims: seq<Similar>): seq<Row>
  {
    seq(|sims|, i requires 0 <= i < |sims| => Row(sims[i].artist2, SimilarFrom, sims[i].artist1))
  }

  /** The file's rows, group by group. */
  function KgTriples(rels: seq<Relation>, sims: seq<Similar>): seq<Row>
  {
    ListenedToRows(rels) + ListenedByRows(rels) + SimilarToRows(sims) + SimilarFromRows(sims)
  }

  /** The four writing loops; `n_kg_triples` counts the rows written. */
  method WriteKg(rels: seq<Relation>, sims: seq<Similar>) returns (rows: seq<Row>, nKgTriples: int)
    ensures rows == KgTriples(rels, sims) && nKgTriples == |rows|
  {
    rows, nKgTriples := [], 0;
    for i := 0 to |rels|
      invariant rows == ListenedToRows(rels[..i]) && nKgTriples == |rows|
    {
      rows := rows + [Row(rels[i].userEntity, ListenedTo, rels[i].artist)];
      nKgTriples := nKgTriples + 1;
    }
    assert rels[..|rels|] == rels;
    ghost var done := rows;
    for i := 0 to |rels|
      invariant rows == done + ListenedByRows(rels[..i]) && nKgTriples == |rows|
    {
      rows := rows + [Row(rels[i].artist, ListenedBy, rels[i].userEntity)];
      nKgTriples := nKgTriples + 1;
    }
    done := rows;
    for i := 0 to |sims|
      invariant rows == done + SimilarToRows(sims[..i]) && nKgTriples == |rows|
    {
      rows := rows + [Row(sims[i].artist1, SimilarTo, sims[i].artist2)];
      nKgTriples := nKgTriples + 1;
    }
    assert sims[..|sims|] == sims;
    done := rows;
    for i := 0 to |sims|
      invariant rows == done + SimilarFromRows(sims[..i]) && nKgTriples == |rows|
    {
      rows := rows + [Row(sims[i].artist2, SimilarFrom, sims[i].artist1)];
      nKgTriples := nKgTriples + 1;
    }
  }

  /** The reverse of a triple, under the paired relation id. */
  function Reverse(t: Row): Row
  {
    Row(t.c2, if t.c1 % 2 == 0 then t.c1 + 1 else t.c1 - 1, t.c0)
  }

  /** Where each relation and each frequent pair lands in the file. */
  lemma KgIndex(rels: seq<Relation>, sims: seq<Similar>)
    ensures var t := KgTriples(rels, sims);
            && |t| == 2 * |rels| + 2 * |sims|
            && (forall i | 0 <= i < |rels| ::
                  t[i] == Row(rels[i].userEntity, ListenedTo, rels[i].artist)
                  && t[|rels| + i] == Row(rels[i].artist, ListenedBy, rels[i].userEntity))
            && (forall i | 0 <= i < |sims| ::
                  t[2 * |rels| + i] == Row(sims[i].artist1, SimilarTo, sims[i].artist2)
                  && t[2 * |rels| + |sims| + i] == Row(sims[i].artist2, SimilarFrom, sims[i].artist1))
  {
    var A, B, C, D := ListenedToRows(rels), ListenedByRows(rels), SimilarToRows(sims), SimilarFromRows(sims);
    var t := KgTriples(rels, sims);
    assert t == A + B + C + D;
    forall i | 0 <= i < |rels|
      ensures t[i] == A[i] && t[|rels| + i] == B[i]
    {
      assert (A + B)[|rels| + i] == B[i];
    }
    forall i | 0 <= i < |sims|
      ensures t[2 * |rels| + i] == C[i] && t[2 * |rels| + |sims| + i] == D[i]
    {
      assert (A + B + C)[2 * |rels| + i] == C[i];
    }
  }

  /** Twice as many triples as relations and frequent pairs; every triple
      carries one of the four relation ids, and each triple of a forward
      group has its reverse at the same place in the group after it, so the
      graph is symmetric. */
  lemma KgLayout(rels: seq<Relation>, sims: seq<Similar>)
    ensures var t := KgTriples(rels, sims);
            && |t| == 2 * |rels| + 2 * |sims|
            && (forall i | 0 <= i < |t| :: 0 <= t[i].c1 < NRelations)
            && (forall i | 0 <= i < |rels| :: t[i].c1 == ListenedTo && t[|rels| + i] == Reverse(t[i]) && Reverse(t[|rels| + i]) == t[i])
            && (forall i | 2 * |rels| <= i < 2 * |rels| + |sims| ::
                  t[i].c1 == SimilarTo && t[i + |sims|] == Reverse(t[i]) && Reverse(t[i + |sims|]) == t[i])
  {
    KgIndex(rels, sims);
    var t := KgTriples(rels, sims);
    forall i | 0 <= i < |t| ensures 0 <= t[i].c1 < NRelations {
      if i < |rels| {
      } else if i < 2 * |rels| {
        assert t[|rels| + (i - |rels|)] == t[i];
      } else if i < 2 * |rels| + |sims| {
        assert t[2 * |rels| + (i - 2 * |rels|)] == t[i];
      } else {
        assert t[2 * |rels| + |sims| + (i - 2 * |rels| - |sims|)] == t[i];
      }
    }
    forall i | 2 * |rels| <= i < 2 * |rels| + |sims|
      ensures t[i].c1 == SimilarTo && t[i + |sims|] == Reverse(t[i]) && Reverse(t[i + |sims|]) == t[i]
    {
      var k := i - 2 * |rels|;
      assert t[2 * |rels| + k] == t[i] && t[2 * |rels| + |sims| + k] == t[i + |sims|];
    }
  }

  /** Every head and tail of the triples is an artist or a user entity, and
      every triple has an artist at one of its ends, as long as the
      relations lead from users to artists and the pairs join artists. */
  lemma KgEntitiesWithin(rels: seq<Relation>, sims: seq<Similar>, artists: set<int>, users: set<int>)
    requires forall r | r in rels :: r.userEntity in users && r.artist in artists
    requires forall s | s in sims :: s.artist1 in artists && s.artist2 in artists
    ensures var t := KgTriples(rels, sims);
            forall i | 0 <= i < |t| :: && t[i].c0 in artists + users && t[i].c2 in artists + users
                                       && (t[i].c0 in artists || t[i].c2 in artists)
  {
    KgIndex(rels, sims);
    var t := KgTriples(rels, sims);
    forall i | 0 <= i < |t|
      ensures t[i].c0 in artists + users && t[i].c2 in artists + users && (t[i].c0 in artists || t[i].c2 in artists)
    {
      if i < |rels| {
        assert rels[i] in rels;
      } else if i < 2 * |rels| {
        var k := i - |rels|;
        assert rels[k] in rels && t[|rels| + k] == t[i];
      } else if i < 2 * |rels| + |sims| {
        var k := i - 2 * |rels|;
        assert sims[k] in sims && t[2 * |rels| + k] == t[i];
      } else {
        var k := i - 2 * |rels| - |sims|;
        assert sims[k] in sims && t[2 * |rels| + |sims| + k] == t[i];
      }
    }
  }

  /** Artists keep the entity ids `0 .. n_artists-1` and users the ids
      after them, so every head and tail is an entity id, users only ever
      meet artists, and no triple is a loop between users. */
  lemma KgEntityRange(rels: seq<Relation>, sims: seq<Similar>, nArtists: int, nUsers: nat)
    requires forall r | r in rels :: nArtists <= r.userEntity < nArtists + nUsers && 0 <= r.artist < nArtists
    requires forall s | s in sims :: 0 <= s.artist1 < nArtists && 0 <= s.artist2 < nArtists
    ensures var t := KgTriples(rels, sims);
            forall i | 0 <= i < |t| :: && 0 <= t[i].c0 < nArtists + nUsers && 0 <= t[i].c2 < nArtists + nUsers
                                       && (t[i].c0 < nArtists || t[i].c2 < nArtists)
  {
    IntervalSpec(0, nArtists);
    IntervalSpec(nArtists, nArtists + nUsers);
    KgEntitiesWithin(rels, sims, Interval(0, nArtists), Interval(nArtists, nArtists + nUsers));
  }
}
