/** `dataset_metadata.txt`: the `key=value` lines `preprocess_music` writes
    (src/preprocess.py:320-332) and the dictionary `load_dataset_metadata`
    reads back from them (src/graph_loader.py:10-37). */
module Metadata {
  import opened Common
  import opened Text
  import opened Files

  /** A value read back: a boolean, an integer, or the text itself. */
  datatype Value = BoolValue(b: bool) | IntValue(n: int) | StrValue(s: string)

  type Meta = map<string, Value>

  function MetadataPath(dataDir: string): Path
  {
    Path(dataDir, "dataset_metadata", "txt")
  }

  /** The conversion of a value: `true`/`false` in any case, else `int()`,
      else the text. */
  function ParseValue(value: string): (v: Value)
    ensures v.BoolValue? <==> Lower(value) == "true" || Lower(value) == "false"
    ensures v.BoolValue? ==> v.b == (Lower(value) == "true")
    ensures v.IntValue? ==> ParseInt(value) == Some(v.n)
    ensures v.StrValue? ==> v.s == value && ParseInt(value).None?
  {
    if Lower(value) == "true" then BoolValue(true)
    else if Lower(value) == "false" then BoolValue(false)
    else match ParseInt(value)
      case Some(n) => IntValue(n)
      case None => StrValue(value)
  }

  /** The key and value of a line, when its stripped text holds an `=`. */
  function Entry(line: string): Option<(string, string)>
  {
    SplitAtEquals(Strip(line))
  }

  /** The dictionary after reading `lines`: each entry line overwrites the
      key it names. */
  function Parsed(lines: seq<string>): Meta
  {
    if lines == [] then map[]
    else
      var m := Parsed(lines[..|lines| - 1]);
      match Entry(lines[|lines| - 1])
      case None => m
      case Some((key, value)) => m[key := ParseValue(value)]
  }

  /** `load_dataset_metadata`: `None` when the file is absent, else the
      dictionary of its lines. */
  method LoadDatasetMetadata(store: Store, dataDir: string) returns (r: Option<Meta>)
    ensures MetadataPath(dataDir) !in store.texts ==> r == None
    ensures MetadataPath(dataDir) in store.texts ==> r == Some(Parsed(store.texts[MetadataPath(dataDir)]))
  {
    var path := MetadataPath(dataDir);
    if path !in store.texts {
      return None;
    }
    var lines := store.texts[path];
    var metadata: Meta := map[];
    for i := 0 to |lines|
      invariant metadata == Parsed(lines[..i])
    {
      assert lines[..i + 1] == lines[..i] + [lines[i]];
      ParsedSnoc(lines[..i], lines[i]);
      metadata := ReadLine(metadata, lines[i]);
    }
    assert lines[..|lines|] == lines;
    r := Some(metadata);
  }

  /** One pass of the reading loop (src/graph_loader.py:23-35): a stripped
      line holding an `=` sets its key to the converted value. */
  method ReadLine(metadata: Meta, text: string) returns (m: Meta)
    ensures Entry(text).None? ==> m == metadata
    ensures Entry(text).Some? ==> m == metadata[Entry(text).value.0 := ParseValue(Entry(text).value.1)]
  {
    m := metadata;
    var line := Strip(text);
    if '=' in line {
      var kv := SplitAtEquals(line);
      var key, value := kv.value.0, kv.value.1;
      if Lower(value) == "true" {
        m := metadata[key := BoolValue(true)];
      } else if Lower(value) == "false" {
        m := metadata[key := BoolValue(false)];
      } else {
        var n := ParseInt(value);
        if n.Some? {
          m := metadata[key := IntValue(n.value)];
        } else {
          m := metadata[key := StrValue(value)];
        }
      }
    }
  }

  /** The line is an entry for `key`. */
  predicate Names(line: string, key: string)
  {
    Entry(line).Some? && Entry(line).value.0 == key
  }

  lemma ParsedSnoc(lines: seq<string>, line: string)
    ensures Parsed(lines + [line]) == match Entry(line)
                                      case None => Parsed(lines)
                                      case Some((key, value)) => Parsed(lines)[key := ParseValue(value)]
  {
    assert (lines + [line])[..|lines|] == lines;
  }

  /** Some line names `key`. */
  predicate Mentioned(lines: seq<string>, key: string)
  {
    exists i | 0 <= i < |lines| :: Names(lines[i], key)
  }

  lemma MentionedSnoc(lines: seq<string>, line: string, key: string)
    ensures Mentioned(lines + [line], key) <==> Mentioned(lines, key) || Names(line, key)
  {
    var l := lines + [line];
    if Mentioned(lines, key) {
      var i :| 0 <= i < |lines| && Names(lines[i], key);
      assert l[i] == lines[i];
    }
    if Mentioned(l, key) && !Names(line, key) {
      var i :| 0 <= i < |l| && Names(l[i], key);
      assert l[i] == lines[i];
    }
    if Names(line, key) {
      assert l[|lines|] == line;
    }
  }

  /** A key is present exactly when some line names it. */
  lemma {:induction false} KeyPresent(lines: seq<string>, key: string)
    ensures key in Parsed(lines) <==> Mentioned(lines, key)
  {
    if lines != [] {
      var p, line := lines[..|lines| - 1], lines[|lines| - 1];
      KeyPresent(p, key);
      assert lines == p + [line];
      KeySnoc(p, line, key);
      MentionedSnoc(p, line, key);
    }
  }

  /** The value of a key is the one of the last line naming it. */
  lemma {:induction false} LastLineWins(lines: seq<string>, key: string, i: int)
    requires 0 <= i < |lines| && Names(lines[i], key)
    requires forall j | i < j < |lines| :: !Names(lines[j], key)
    ensures key in Parsed(lines) && Parsed(lines)[key] == ParseValue(Entry(lines[i]).value.1)
  {
    var p, line := lines[..|lines| - 1], lines[|lines| - 1];
    assert lines == p + [line];
    if i < |p| {
      forall j | i < j < |p| ensures !Names(p[j], key) {
        assert p[j] == lines[j];
      }
      assert p[i] == lines[i];
      LastLineWins(p, key, i);
      KeySnoc(p, line, key);
    } else {
      KeySnoc(p, line, key);
    }
  }

  /** A line naming `key` sets it; any other line leaves it as it was. */
  lemma KeySnoc(lines: seq<string>, line: string, key: string)
    ensures Names(line, key) ==> key in Parsed(lines + [line]) && Parsed(lines + [line])[key] == ParseValue(Entry(line).value.1)
    ensures !Names(line, key) ==> (key in Parsed(lines + [line]) <==> key in Parsed(lines))
    ensures !Names(line, key) && key in Parsed(lines) ==> Parsed(lines + [line])[key] == Parsed(lines)[key]
  {
    ParsedSnoc(lines, line);
  }

  function Line(key: string, value: string): string
  {
    key + "=" + value
  }

  /** The lines `f'{key}={value}'` of some entries. */
  function Render(entries: seq<(string, string)>): seq<string>
  {
    seq(|entries|, i requires 0 <= i < |entries| => Line(entries[i].0, entries[i].1))
  }

  lemma RenderSnoc(entries: seq<(string, string)>, e: (string, string))
    ensures Render(entries + [e]) == Render(entries) + [Line(e.0, e.1)]
  {
    var r, r' := Render(entries), Render(entries + [e]);
    forall i | 0 <= i < |entries| ensures r'[i] == r[i] {
      assert (entries + [e])[i] == entries[i];
    }
  }

  /** A key that reads back: not empty, no `=`, no leading space. */
  predicate GoodKey(key: string)
  {
    key != [] && '=' !in key && !IsSpace(key[0])
  }

  /** A value that reads back: not empty, no trailing space. */
  predicate GoodText(value: string)
  {
    value != [] && !IsSpace(value[|value| - 1])
  }

  /** The dictionary the entries describe, later entries winning. */
  function Fold(entries: seq<(string, string)>): Meta
  {
    if entries == [] then map[]
    else
      var e := entries[|entries| - 1];
      Fold(entries[..|entries| - 1])[e.0 := ParseValue(e.1)]
  }

  lemma FoldSnoc(entries: seq<(string, string)>, e: (string, string))
    ensures Fold(entries + [e]) == Fold(entries)[e.0 := ParseValue(e.1)]
  {
    assert (entries + [e])[..|entries|] == entries;
  }

  /** Entries with readable keys and values read back as written. */
  lemma {:induction false} RenderRoundTrip(entries: seq<(string, string)>)
    requires Readable(entries)
    ensures Parsed(Render(entries)) == Fold(entries)
  {
    if entries != [] {
      var p, e := entries[..|entries| - 1], entries[|entries| - 1];
      assert entries == p + [e];
      ReadablePrefix(p, e);
      RenderRoundTrip(p);
      RenderSnoc(p, e);
      LineEntry(e);
      ParsedSnoc(Render(p), Line(e.0, e.1));
      FoldSnoc(p, e);
    }
  }

  lemma ReadablePrefix(entries: seq<(string, string)>, e: (string, string))
    requires Readable(entries + [e])
    ensures Readable(entries) && GoodKey(e.0) && GoodText(e.1)
  {
    var l := entries + [e];
    assert l[|entries|] == e;
    forall i | 0 <= i < |entries| ensures GoodKey(entries[i].0) && GoodText(entries[i].1) {
      assert l[i] == entries[i];
    }
  }

  /** A readable entry's line is read back as that entry. */
  lemma LineEntry(e: (string, string))
    requires GoodKey(e.0) && GoodText(e.1)
    ensures Entry(Line(e.0, e.1)) == Some(e)
  {
    KeyValueSplit(e.0, e.1);
  }

  /** Python's `f'{b}'` of a boolean. */
  function BoolToString(b: bool): string
  {
    if b then "True" else "False"
  }

  /** The entries written after a run: the filter flag, the requested maxima
      when reducing, then the actual counts. */
  function MetadataEntries(filtered: bool, maxUsers: int, maxArtists: int, nUsers: int, nArtists: int,
                           nEntities: int, nRelations: int, nTriples: int): seq<(string, string)>
  {
    var head := [("filtered", BoolToString(filtered))];
    var requested := if filtered then head + [("max_users_requested", IntToString(maxUsers))]
                                           + [("max_artists_requested", IntToString(maxArtists))]
                     else head;
    requested + [("n_users_actual", IntToString(nUsers))] + [("n_artists_actual", IntToString(nArtists))]
              + [("n_entities", IntToString(nEntities))] + [("n_relations", IntToString(nRelations))]
              + [("n_kg_triples", IntToString(nTriples))]
  }

  function MetadataLines(filtered: bool, maxUsers: int, maxArtists: int, nUsers: int, nArtists: int,
                         nEntities: int, nRelations: int, nTriples: int): seq<string>
  {
    Render(MetadataEntries(filtered, maxUsers, maxArtists, nUsers, nArtists, nEntities, nRelations, nTriples))
  }

  /** What the reader should find in those lines. */
  function Expected(filtered: bool, maxUsers: int, maxArtists: int, nUsers: int, nArtists: int,
                    nEntities: int, nRelations: int, nTriples: int): Meta
  {
    var m := map["filtered" := BoolValue(filtered)];
    var m := if filtered then m["max_users_requested" := IntValue(maxUsers)]["max_artists_requested" := IntValue(maxArtists)] else m;
    m["n_users_actual" := IntValue(nUsers)]["n_artists_actual" := IntValue(nArtists)]["n_entities" := IntValue(nEntities)]
     ["n_relations" := IntValue(nRelations)]["n_kg_triples" := IntValue(nTriples)]
  }

  /** `str(n)` reads back as the integer `n`. */
  lemma IntText(n: int)
    ensures GoodText(IntToString(n)) && ParseValue(IntToString(n)) == IntValue(n)
  {
    var s := IntToString(n);
    assert IsDigit(s[|s| - 1]);
    IntStringNotBool(n);
    IntRoundTrip(n);
  }

  lemma BoolText(b: bool)
    ensures GoodText(BoolToString(b)) && ParseValue(BoolToString(b)) == BoolValue(b)
  {
    BoolStrings();
  }

  /** The keys written before the counts read back. */
  lemma FlagKeys()
    ensures GoodKey("filtered") && GoodKey("max_users_requested") && GoodKey("max_artists_requested")
  {
  }

  /** The count keys read back. */
  lemma CountKeys()
    ensures GoodKey("n_users_actual") && GoodKey("n_artists_actual") && GoodKey("n_entities")
    ensures GoodKey("n_relations") && GoodKey("n_kg_triples")
  {
  }

  /** Reading the written metadata back gives every value as written: the
      flag as a boolean and every count as an integer. */
  lemma MetadataRoundTrip(filtered: bool, maxUsers: int, maxArtists: int, nUsers: int, nArtists: int,
                          nEntities: int, nRelations: int, nTriples: int)
    ensures Parsed(MetadataLines(filtered, maxUsers, maxArtists, nUsers, nArtists, nEntities, nRelations, nTriples))
         == Expected(filtered, maxUsers, maxArtists, nUsers, nArtists, nEntities, nRelations, nTriples)
  {
    var entries := MetadataEntries(filtered, maxUsers, maxArtists, nUsers, nArtists, nEntities, nRelations, nTriples);
    MetadataReadable(filtered, maxUsers, maxArtists, nUsers, nArtists, nEntities, nRelations, nTriples);
    RenderRoundTrip(entries);
    MetadataFold(filtered, maxUsers, maxArtists, nUsers, nArtists, nEntities, nRelations, nTriples);
  }

  predicate Readable(entries: seq<(string, string)>)
  {
    forall i | 0 <= i < |entries| :: GoodKey(entries[i].0) && GoodText(entries[i].1)
  }

  lemma ReadableSnoc(entries: seq<(string, string)>, e: (string, string))
    requires Readable(entries) && GoodKey(e.0) && GoodText(e.1)
    ensures Readable(entries + [e])
  {
  }

  lemma MetadataReadable(filtered: bool, maxUsers: int, maxArtists: int, nUsers: int, nArtists: int,
                         nEntities: int, nRelations: int, nTriples: int)
    ensures Readable(MetadataEntries(filtered, maxUsers, maxArtists, nUsers, nArtists, nEntities, nRelations, nTriples))
  {
    FlagKeys();
    CountKeys();
    BoolText(filtered);
    IntText(maxUsers);
    IntText(maxArtists);
    IntText(nUsers);
    IntText(nArtists);
    IntText(nEntities);
    IntText(nRelations);
    IntText(nTriples);
    var head := [("filtered", BoolToString(filtered))];
    var l := head;
    if filtered {
      var a, b := ("max_users_requested", IntToString(maxUsers)), ("max_artists_requested", IntToString(maxArtists));
      ReadableSnoc(head, a);
      ReadableSnoc(head + [a], b);
      l := head + [a] + [b];
    }
    var c, d, e := ("n_users_actual", IntToString(nUsers)), ("n_artists_actual", IntToString(nArtists)),
                   ("n_entities", IntToString(nEntities));
    var f, g := ("n_relations", IntToString(nRelations)), ("n_kg_triples", IntToString(nTriples));
    ReadableSnoc(l, c);
    ReadableSnoc(l + [c], d);
    ReadableSnoc(l + [c] + [d], e);
    ReadableSnoc(l + [c] + [d] + [e], f);
    ReadableSnoc(l + [c] + [d] + [e] + [f], g);
  }

  lemma MetadataFold(filtered: bool, maxUsers: int, maxArtists: int, nUsers: int, nArtists: int,
                     nEntities: int, nRelations: int, nTriples: int)
    ensures Fold(MetadataEntries(filtered, maxUsers, maxArtists, nUsers, nArtists, nEntities, nRelations, nTriples))
         == Expected(filtered, maxUsers, maxArtists, nUsers, nArtists, nEntities, nRelations, nTriples)
  {
    BoolText(filtered);
    IntText(maxUsers);
    IntText(maxArtists);
    IntText(nUsers);
    IntText(nArtists);
    IntText(nEntities);
    IntText(nRelations);
    IntText(nTriples);
    var head := [("filtered", BoolToString(filtered))];
    assert head[..0] == [];
    var l := head;
    if filtered {
      var a, b := ("max_users_requested", IntToString(maxUsers)), ("max_artists_requested", IntToString(maxArtists));
      FoldSnoc(head, a);
      FoldSnoc(head + [a], b);
      l := head + [a] + [b];
    }
    var c, d, e := ("n_users_actual", IntToString(nUsers)), ("n_artists_actual", IntToString(nArtists)),
                   ("n_entities", IntToString(nEntities));
    var f, g := ("n_relations", IntToString(nRelations)), ("n_kg_triples", IntToString(nTriples));
    FoldSnoc(l, c);
    FoldSnoc(l + [c], d);
    FoldSnoc(l + [c] + [d], e);
    FoldSnoc(l + [c] + [d] + [e], f);
    FoldSnoc(l + [c] + [d] + [e] + [f], g);
  }
}
