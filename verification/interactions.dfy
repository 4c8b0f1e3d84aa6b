/** The records of `user_artists.dat`: `(user_id, artist_id, weight)` where
    weight is a listen count. Each data line is split on tabs; a line with
    fewer than three fields is skipped, extra fields are ignored. */
module Interactions {
  import opened Common

  datatype Interaction = Interaction(user: int, artist: int, weight: int)

  /** A line the data loops read but cannot convert: it has the three
      fields, and one of them is not an integer. */
  predicate Malformed(l: Line)
  {
    |l| >= 3 && !(l[0].Num? && l[1].Num? && l[2].Num?)
  }

  /** The reading loop of `filter_raw_data` (src/preprocess.py:30-38): its
      `int()` calls are not guarded, so the first line whose first three
      fields are not all integers aborts the whole step. */
  function ReadStrict(lines: seq<Line>): (r: Result<seq<Interaction>>)
    ensures r.Ok? ==> |r.value| <= |lines|
    ensures r.Err? <==> exists i | 0 <= i < |lines| :: Malformed(lines[i])
    ensures r.Err? ==> && r.error.NotAnInteger? && r.error.line < |lines| && Malformed(lines[r.error.line])
                       && forall i | 0 <= i < r.error.line :: !Malformed(lines[i])
  {
    if lines == [] then Ok([])
    else
      match ReadStrict(lines[..|lines| - 1])
      case Err(e) => Err(e)
      case Ok(data) =>
        var l := lines[|lines| - 1];
        if |l| < 3 then Ok(data)
        else if l[0].Num? && l[1].Num? && l[2].Num? then Ok(data + [Interaction(l[0].n, l[1].n, l[2].n)])
        else Err(NotAnInteger(|lines| - 1))
  }

  /** The reading loops of `preprocess_music` (src/preprocess.py:130-151 and
      216-236): a `ValueError` only skips the offending line. */
  function ReadLenient(lines: seq<Line>): (r: seq<Interaction>)
    ensures |r| <= |lines|
  {
    if lines == [] then []
    else
      var data := ReadLenient(lines[..|lines| - 1]);
      var l := lines[|lines| - 1];
      if |l| >= 3 && l[0].Num? && l[1].Num? && l[2].Num?
      then data + [Interaction(l[0].n, l[1].n, l[2].n)]
      else data
  }

  /** The lines `f'{user_id}\t{artist_id}\t{weight}'` that `filter_raw_data`
      writes back (src/preprocess.py:74-75). */
  function Written(data: seq<Interaction>): (r: seq<Line>)
    ensures |r| == |data|
  {
    seq(|data|, i requires 0 <= i < |data| => [Num(data[i].user), Num(data[i].artist), Num(data[i].weight)])
  }

  /** A rewritten file reads back as the records that were written, by both
      readers. */
  lemma {:induction false} ReadWritten(data: seq<Interaction>)
    ensures ReadStrict(Written(data)) == Ok(data)
    ensures ReadLenient(Written(data)) == data
  {
    if data != [] {
      var p := data[..|data| - 1];
      ReadWritten(p);
      assert Written(data)[..|data| - 1] == Written(p);
      assert data == p + [data[|data| - 1]];
    }
  }

  /** When every line is well formed the strict and the lenient reader agree. */
  lemma {:induction false} ReadersAgree(lines: seq<Line>)
    requires ReadStrict(lines).Ok?
    ensures ReadStrict(lines).value == ReadLenient(lines)
  {
    if lines != [] {
      ReadersAgree(lines[..|lines| - 1]);
    }
  }
}
