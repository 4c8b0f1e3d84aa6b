/** The interning of the older movie/book path of src/preprocess.py:
    `read_item_index_to_entity_id_file` numbers the lines of the item-index
    file, and `convert_kg` turns string triples into integer triples,
    giving every new entity string the next free entity id and every new
    relation string the next relation id from 0. */
module Legacy {
  import opened Common

  /** One line of the item-index file: an item index and its satori id. */
  datatype ItemLine = ItemLine(item: string, satori: string)

  /** One line of the string knowledge graph: head, relation, tail. */
  datatype KgLine = KgLine(head: string, relation: string, tail: string)

  /** Each key mapped to the position of its last occurrence, as a dict
      assigned `d[keys[i]] = i` for i in order. */
  function LastIndex<K>(keys: seq<K>): map<K, int>
  {
    if keys == [] then map[]
    else LastIndex(keys[..|keys| - 1])[keys[|keys| - 1] := |keys| - 1]
  }

  predicate Injective<K>(m: map<K, int>)
  {
    forall a, b | a in m && b in m && a != b :: m[a] != m[b]
  }

  /** A key's value is the position of its last occurrence; so the values
      are distinct and below the number of keys. */
  lemma {:induction false} LastIndexIsLast<K>(keys: seq<K>)
    ensures LastIndex(keys).Keys == Elems(keys)
    ensures forall k | k in LastIndex(keys) ::
              && 0 <= LastIndex(keys)[k] < |keys| && keys[LastIndex(keys)[k]] == k
              && forall j | LastIndex(keys)[k] < j < |keys| :: keys[j] != k
    ensures Injective(LastIndex(keys))
  {
    if keys != [] {
      var p := keys[..|keys| - 1];
      LastIndexIsLast(p);
      assert keys == p + [keys[|keys| - 1]];
      assert Elems(keys) == Elems(p) + {keys[|keys| - 1]};
      var m := LastIndex(keys);
      forall k | k in m
        ensures 0 <= m[k] < |keys| && keys[m[k]] == k && forall j | m[k] < j < |keys| :: keys[j] != k
      {
        if k != keys[|keys| - 1] {
          assert keys[LastIndex(p)[k]] == p[LastIndex(p)[k]];
        }
      }
    }
  }

  function Items(lines: seq<ItemLine>): (r: seq<string>)
    ensures |r| == |lines| && forall i | 0 <= i < |lines| :: r[i] == lines[i].item
  {
    seq(|lines|, i requires 0 <= i < |lines| => lines[i].item)
  }

  function Satoris(lines: seq<ItemLine>): (r: seq<string>)
    ensures |r| == |lines| && forall i | 0 <= i < |lines| :: r[i] == lines[i].satori
  {
    seq(|lines|, i requires 0 <= i < |lines| => lines[i].satori)
  }

  /** `read_item_index_to_entity_id_file` (src/preprocess.py:338-347) on
      dictionaries that start empty: line i maps its item index and its
      satori id to i, a later line overwriting an earlier one. */
  method ReadItemIndex(lines: seq<ItemLine>)
    returns (itemIndex: map<string, int>, entityIndex: map<string, int>, count: int)
    ensures itemIndex == LastIndex(Items(lines)) && entityIndex == LastIndex(Satoris(lines))
    ensures count == |lines|
  {
    itemIndex, entityIndex, count := map[], map[], 0;
    while count < |lines|
      invariant 0 <= count <= |lines|
      invariant itemIndex == LastIndex(Items(lines)[..count])
      invariant entityIndex == LastIndex(Satoris(lines)[..count])
    {
      assert Items(lines)[..count + 1][..count] == Items(lines)[..count];
      assert Satoris(lines)[..count + 1][..count] == Satoris(lines)[..count];
      itemIndex := itemIndex[lines[count].item := count];
      entityIndex := entityIndex[lines[count].satori := count];
      count := count + 1;
    }
    assert Items(lines)[..count] == Items(lines);
    assert Satoris(lines)[..count] == Satoris(lines);
  }

  /** `if x not in m: m[x] = next; next += 1`. */
  function Intern<K>(m: map<K, int>, next: int, x: K): (map<K, int>, int)
  {
    if x in m then (m, next) else (m[x := next], next + 1)
  }

  /** Interning every name of `names` in turn. */
  function InternAll<K>(m: map<K, int>, next: int, names: seq<K>): (map<K, int>, int)
  {
    if names == [] then (m, next)
    else
      var (m', next') := InternAll(m, next, names[..|names| - 1]);
      Intern(m', next', names[|names| - 1])
  }

  /** The names of `names` that `m` does not hold, in order of first
      occurrence: the names interning numbers. */
  function Fresh<K>(m: map<K, int>, names: seq<K>): (r: seq<K>)
    ensures Distinct(r) && Elems(r) == Elems(names) - m.Keys
  {
    if names == [] then []
    else
      var p, x := names[..|names| - 1], names[|names| - 1];
      assert Elems(names) == Elems(p) + {x} by {
        assert names == p + [x];
      }
      var r := Fresh(m, p);
      assert Elems(r + [x]) == Elems(r) + {x};
      if x in m || x in r then r else r + [x]
  }

  lemma InternAllSnoc<K>(m: map<K, int>, next: int, names: seq<K>, x: K)
    ensures InternAll(m, next, names + [x]) == Intern(InternAll(m, next, names).0, InternAll(m, next, names).1, x)
    ensures Fresh(m, names + [x]) == if x in m || x in Fresh(m, names) then Fresh(m, names) else Fresh(m, names) + [x]
  {
    assert (names + [x])[..|names|] == names;
  }

  /** Interning keeps every old entry and adds exactly the names. */
  lemma {:induction false} InternKeys<K>(m: map<K, int>, next: int, names: seq<K>)
    ensures InternAll(m, next, names).0.Keys == m.Keys + Elems(names)
    ensures forall k | k in m :: InternAll(m, next, names).0[k] == m[k]
  {
    if names != [] {
      var p, x := names[..|names| - 1], names[|names| - 1];
      InternKeys(m, next, p);
      assert names == p + [x];
      assert Elems(names) == Elems(p) + {x};
    }
  }

  /** The fresh names are numbered consecutively from `next`, in order of
      first occurrence, and the counter ends past them. */
  lemma {:induction false} InternNumbering<K>(m: map<K, int>, next: int, names: seq<K>)
    ensures InternAll(m, next, names).1 == next + |Fresh(m, names)|
    ensures NumberedFrom(InternAll(m, next, names).0 - m.Keys, Fresh(m, names), next)
  {
    if names != [] {
      var p, x := names[..|names| - 1], names[|names| - 1];
      InternNumbering(m, next, p);
      InternKeys(m, next, p);
      assert names == p + [x];
      InternAllSnoc(m, next, p, x);
      InternStepNumbering(m, InternAll(m, next, p).0, InternAll(m, next, p).1, Fresh(m, p), next, x);
    }
  }

  lemma InternStepNumbering<K>(m: map<K, int>, cur: map<K, int>, counter: int, order: seq<K>, next: int, x: K)
    requires m.Keys <= cur.Keys && Elems(order) == cur.Keys - m.Keys
    requires counter == next + |order| && NumberedFrom(cur - m.Keys, order, next)
    ensures var (cur', counter') := Intern(cur, counter, x);
            var order' := if x in m || x in order then order else order + [x];
            counter' == next + |order'| && NumberedFrom(cur' - m.Keys, order', next)
  {
    if x !in cur {
      var order' := order + [x];
      var d := cur[x := counter] - m.Keys;
      assert x !in m;
      assert Elems(order') == Elems(order) + {x};
      assert d.Keys == Elems(order');
      forall i | 0 <= i < |order'| ensures d[order'[i]] == next + i {
        if i < |order| {
          assert order'[i] == order[i] && order[i] in Elems(order);
        }
      }
    } else {
      assert x in m || x in Elems(order);
    }
  }

  /** Interning into an injective map whose values lie below `next` keeps
      it injective with its values below the new counter: distinct names
      get distinct ids. */
  lemma {:induction false} InternInjective<K>(m: map<K, int>, next: int, names: seq<K>)
    requires Injective(m) && forall k | k in m :: m[k] < next
    ensures Injective(InternAll(m, next, names).0)
    ensures forall k | k in InternAll(m, next, names).0 :: InternAll(m, next, names).0[k] < InternAll(m, next, names).1
    ensures next <= InternAll(m, next, names).1
  {
    if names != [] {
      var p := names[..|names| - 1];
      InternInjective(m, next, p);
    }
  }

  /** The entity strings in the order `convert_kg` interns them: head, then
      tail, line by line. */
  function EntityNames(lines: seq<KgLine>): (r: seq<string>)
    ensures |r| == 2 * |lines|
  {
    if lines == [] then []
    else EntityNames(lines[..|lines| - 1]) + [lines[|lines| - 1].head, lines[|lines| - 1].tail]
  }

  function RelationNames(lines: seq<KgLine>): (r: seq<string>)
    ensures |r| == |lines| && forall i | 0 <= i < |lines| :: r[i] == lines[i].relation
  {
    seq(|lines|, i requires 0 <= i < |lines| => lines[i].relation)
  }

  lemma EntityNamesSnoc(lines: seq<KgLine>, j: int)
    requires 0 <= j < |lines|
    ensures EntityNames(lines[..j + 1]) == EntityNames(lines[..j]) + [lines[j].head] + [lines[j].tail]
  {
    assert lines[..j + 1][..j] == lines[..j];
  }

  /** Every entity string of the first `j` lines is interned. */
  lemma {:induction false} EntityNamesCover(lines: seq<KgLine>, j: int)
    requires 0 <= j <= |lines|
    ensures forall k | 0 <= k < j :: lines[k].head in EntityNames(lines[..j]) && lines[k].tail in EntityNames(lines[..j])
  {
    if j > 0 {
      EntityNamesCover(lines, j - 1);
      EntityNamesSnoc(lines, j - 1);
    }
  }

  /** One `if x not in m: m[x] = next; next += 1` of `convert_kg`
      (src/preprocess.py:425-438): the interning of one more name, after
      which `x` is held and no earlier entry has changed. */
  method InternName(m: map<string, int>, next: int, ghost m0: map<string, int>, ghost n0: int,
                    ghost names: seq<string>, x: string)
    returns (m': map<string, int>, next': int)
    requires (m, next) == InternAll(m0, n0, names)
    ensures (m', next') == InternAll(m0, n0, names + [x])
    ensures x in m' && forall k | k in m :: k in m' && m'[k] == m[k]
  {
    InternAllSnoc(m0, n0, names, x);
    m', next' := m, next;
    if x !in m {
      m' := m[x := next];
      next' := next + 1;
    }
  }

  /** Line k of `lines` is written as `rows[k]`, the ids of its head,
      relation and tail. */
  ghost predicate Written(rows: seq<Row>, lines: seq<KgLine>, entities: map<string, int>, relations: map<string, int>)
  {
    && |rows| == |lines|
    && forall k | 0 <= k < |lines| ::
         && lines[k].head in entities && lines[k].tail in entities && lines[k].relation in relations
         && rows[k] == Row(entities[lines[k].head], relations[lines[k].relation], entities[lines[k].tail])
  }

  lemma WrittenStep(rows: seq<Row>, lines: seq<KgLine>, j: int, entities: map<string, int>, relations: map<string, int>,
                    entities': map<string, int>, relations': map<string, int>)
    requires 0 <= j < |lines| && Written(rows, lines[..j], entities, relations)
    requires forall k | k in entities :: k in entities' && entities'[k] == entities[k]
    requires forall k | k in relations :: k in relations' && relations'[k] == relations[k]
    requires lines[j].head in entities' && lines[j].tail in entities' && lines[j].relation in relations'
    ensures Written(rows + [Row(entities'[lines[j].head], relations'[lines[j].relation], entities'[lines[j].tail])],
                    lines[..j + 1], entities', relations')
  {
  }

  /** The interning loop of `convert_kg` (src/preprocess.py:421-440) with
      the entity counter starting at `start`: the entity and relation maps
      and counters are the interning of all names, and line k is written
      as the ids of its head, relation and tail. */
  method ConvertKgFrom(entityIndex: map<string, int>, start: int, lines: seq<KgLine>)
    returns (rows: seq<Row>, entities: map<string, int>, entityCount: int,
             relations: map<string, int>, relationCount: int)
    ensures (entities, entityCount) == InternAll(entityIndex, start, EntityNames(lines))
    ensures (relations, relationCount) == InternAll(map[], 0, RelationNames(lines))
    ensures |rows| == |lines|
    ensures forall k | 0 <= k < |lines| ::
              && lines[k].head in entities && lines[k].tail in entities && lines[k].relation in relations
              && rows[k] == Row(entities[lines[k].head], relations[lines[k].relation], entities[lines[k].tail])
  {
    rows, entities, entityCount, relations, relationCount := [], entityIndex, start, map[], 0;
    for j := 0 to |lines|
      invariant (entities, entityCount) == InternAll(entityIndex, start, EntityNames(lines[..j]))
      invariant (relations, relationCount) == InternAll(map[], 0, RelationNames(lines[..j]))
      invariant Written(rows, lines[..j], entities, relations)
    {
      var line := lines[j];
      ghost var names := EntityNames(lines[..j]);
      EntityNamesSnoc(lines, j);
      assert RelationNames(lines[..j + 1]) == RelationNames(lines[..j]) + [line.relation];
      var e1, c1 := InternName(entities, entityCount, entityIndex, start, names, line.head);
      var e2, c2 := InternName(e1, c1, entityIndex, start, names + [line.head], line.tail);
      var r, rc := InternName(relations, relationCount, map[], 0, RelationNames(lines[..j]), line.relation);
      WrittenStep(rows, lines, j, entities, relations, e2, r);
      rows := rows + [Row(e2[line.head], r[line.relation], e2[line.tail])];
      entities, entityCount, relations, relationCount := e2, c2, r, rc;
    }
    assert lines[..|lines|] == lines;
  }

  /** `convert_kg` (src/preprocess.py:404-444) as written: the entity
      counter starts at the number of satori ids already held. */
  method ConvertKg(entityIndex: map<string, int>, lines: seq<KgLine>)
    returns (rows: seq<Row>, entities: map<string, int>, entityCount: int,
             relations: map<string, int>, relationCount: int)
    ensures (entities, entityCount) == InternAll(entityIndex, |entityIndex|, EntityNames(lines))
    ensures (relations, relationCount) == InternAll(map[], 0, RelationNames(lines))
    ensures |rows| == |lines|
    ensures forall k | 0 <= k < |lines| ::
              && lines[k].head in entities && lines[k].tail in entities && lines[k].relation in relations
              && rows[k] == Row(entities[lines[k].head], relations[lines[k].relation], entities[lines[k].tail])
  {
    rows, entities, entityCount, relations, relationCount := ConvertKgFrom(entityIndex, |entityIndex|, lines);
  }

  /** The entity numbering of the whole legacy path: the item-index file
      numbers the satori ids, then the knowledge graph interns its strings
      from counter `start`. */
  function Entities(items: seq<ItemLine>, start: int, lines: seq<KgLine>): map<string, int>
  {
    InternAll(LastIndex(Satoris(items)), start, EntityNames(lines)).0
  }

  /** When two lines of the item-index file share a satori id, the counter
      as written starts below an id already in use, and a new entity gets
      the same id as an old one. */
  lemma StartCollision()
    ensures var items := [ItemLine("0", "s"), ItemLine("1", "s")];
            var e := Entities(items, |LastIndex(Satoris(items))|, [KgLine("x", "r", "y")]);
            "s" in e && "x" in e && e["s"] == e["x"] && !Injective(e)
  {
    var items := [ItemLine("0", "s"), ItemLine("1", "s")];
    var keys := Satoris(items);
    assert keys == ["s", "s"];
    assert keys[..1] == ["s"] && keys[..1][..0] == [];
    assert LastIndex(keys[..1]) == map["s" := 0];
    var idx := LastIndex(keys);
    assert idx == map["s" := 1];
    var line := [KgLine("x", "r", "y")];
    var names := EntityNames(line);
    assert line[..0] == [];
    assert names == ["x", "y"];
    assert names[..1] == ["x"] && names[..1][..0] == [];
    assert "x" != "s" && "y" != "s" && "x" != "y";
    assert InternAll(idx, 1, names[..1]) == (map["s" := 1, "x" := 1], 2);
    var e := Entities(items, |idx|, line);
    assert e == map["s" := 1, "x" := 1, "y" := 2];
  }

  /** Starting the counter at the number of item-index lines, which is
      above every id they assigned, gives distinct entity strings distinct
      ids whatever the file holds. */
  lemma EntitiesInjective(items: seq<ItemLine>, lines: seq<KgLine>)
    ensures Injective(Entities(items, |items|, lines))
  {
    LastIndexIsLast(Satoris(items));
    InternInjective(LastIndex(Satoris(items)), |items|, EntityNames(lines));
  }

  /** With the counter started after the last item-index line, entity ids
      are distinct, the satori ids keep their line numbers, and relations
      are numbered from 0 in order of first occurrence. */
  lemma LegacyNumbering(items: seq<ItemLine>, lines: seq<KgLine>)
    ensures var entities := Entities(items, |items|, lines);
            && Injective(entities)
            && forall s | s in LastIndex(Satoris(items)) :: s in entities && entities[s] == LastIndex(Satoris(items))[s]
    ensures NumberedFrom(InternAll(map[], 0, RelationNames(lines)).0, FirstSeen(RelationNames(lines)), 0)
    ensures InternAll(map[], 0, RelationNames(lines)).1 == |InternAll(map[], 0, RelationNames(lines)).0|
  {
    EntitiesInjective(items, lines);
    InternKeys(LastIndex(Satoris(items)), |items|, EntityNames(lines));
    var relations := InternAll(map[], 0, RelationNames(lines)).0;
    InternNumbering(map[], 0, RelationNames(lines));
    FreshFromEmpty(RelationNames(lines));
    assert relations - {} == relations;
    NumberingIsBijection(relations, FirstSeen(RelationNames(lines)), 0);
  }

  /** The legacy path (src/preprocess.py:474-478 without the ratings):
      read the item-index file into empty dictionaries, then convert the
      knowledge graph with the entity counter starting after the last
      item-index line. */
  method LegacyPath(items: seq<ItemLine>, lines: seq<KgLine>)
    returns (rows: seq<Row>, entities: map<string, int>, entityCount: int,
             relations: map<string, int>, relationCount: int)
    ensures entities == Entities(items, |items|, lines) && Injective(entities)
    ensures forall s | s in LastIndex(Satoris(items)) :: s in entities && entities[s] == LastIndex(Satoris(items))[s]
    ensures NumberedFrom(relations, FirstSeen(RelationNames(lines)), 0) && relationCount == |relations|
    ensures |rows| == |lines|
    ensures forall k | 0 <= k < |lines| ::
              && lines[k].head in entities && lines[k].tail in entities && lines[k].relation in relations
              && rows[k] == Row(entities[lines[k].head], relations[lines[k].relation], entities[lines[k].tail])
  {
    var itemIndex, entityIndex, count := ReadItemIndex(items);
    rows, entities, entityCount, relations, relationCount := ConvertKgFrom(entityIndex, count, lines);
    LegacyNumbering(items, lines);
  }

  /** Interning into an empty map numbers names in order of first occurrence. */
  lemma {:induction false} FreshFromEmpty<K>(names: seq<K>)
    ensures Fresh(map[], names) == FirstSeen(names)
  {
    if names != [] {
      FreshFromEmpty(names[..|names| - 1]);
      assert names[|names| - 1] in FirstSeen(names[..|names| - 1]) <==> names[|names| - 1] in Elems(FirstSeen(names[..|names| - 1]));
    }
  }
}
