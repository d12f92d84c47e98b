/** Recursive in-place patching of nested tables, and the pure merge it equals. */
module PatchDocument {
  import opened Std

  /** A document value: a leaf (any non-table value) or a table. */
  datatype Doc = Leaf(value: string) | Table(entries: Entries)

  type Entries = map<string, Doc>

  /** The table under a key, or an empty one where there is none. */
  function SubTable(m: Entries, k: string): Entries {
    if k in m && m[k].Table? then m[k].entries else map[]
  }

  /** The pure merge: leaves of `data` replace, tables of `data` merge. */
  function Merge(m: Entries, data: Doc): Entries
    requires data.Table?
    decreases data
  {
    map k | k in m.Keys + data.entries.Keys ::
      if k !in data.entries then m[k]
      else if data.entries[k].Leaf? then data.entries[k]
      else Table(Merge(SubTable(m, k), data.entries[k]))
  }

  /** What the merge puts under one key of the data. */
  function Patched(m: Entries, k: string, v: Doc): Doc {
    if v.Leaf? then v else Table(Merge(SubTable(m, k), v))
  }

  // ----- the tables in memory -----

  datatype Node = Plain(value: string) | Sub(table: TableNode)

  class TableNode {
    var entries: map<string, Node>
    /** The table's value, and the tables it is made of. */
    ghost var value: Entries
    ghost var repr: set<TableNode>

    /** A tree of tables: sub-tables lie inside the footprint, apart from each
        other and from this table, and `value` is what the tree spells out. */
    ghost predicate Valid()
      reads this, repr
      decreases repr, 0
    {
      && this in repr
      && entries.Keys == value.Keys
      && (forall k <- entries :: Holds(entries[k], value[k], repr - {this}))
      && (forall j, k | j in entries && k in entries && j != k :: Apart(entries[j], entries[k]))
    }

    constructor ()
      ensures Valid() && value == map[] && repr == {this}
    {
      entries, value, repr := map[], map[], {this};
    }

    method AssignLeaf(key: string, v: string)
      requires Valid()
      modifies this
      ensures Valid() && repr == old(repr) && value == old(value)[key := Leaf(v)]
    {
      entries, value := entries[key := Plain(v)], value[key := Leaf(v)];
    }

    /** The sub-table under a key, put there if there is none. */
    method EnsureTable(key: string) returns (t: TableNode)
      requires Valid()
      modifies this
      ensures Valid() && fresh(repr - old(repr))
      ensures key in entries && entries[key] == Sub(t)
      ensures value == old(value)[key := Table(SubTable(old(value), key))]
    {
      if key !in entries || !entries[key].Sub? {
        t := new TableNode();
        entries, value, repr := entries[key := Sub(t)], value[key := Table(map[])], repr + {t};
      } else {
        t := entries[key].table;
      }
    }

    /** Patches one key: a leaf is assigned, a table is merged into the table
        already there, or into a new one. */
    method PatchKey(key: string, v: Doc)
      requires Valid()
      modifies repr
      ensures Valid() && fresh(repr - old(repr))
      ensures value == old(value)[key := Patched(old(value), key, v)]
      decreases v, 3
    {
      hide Merge, Holds, Apart;
      if v.Leaf? {
        AssignLeaf(key, v.value);
      } else {
        var t := EnsureTable(key);
        PatchBelow(key, t, v);
      }
    }

    lemma Rooted()
      requires Valid()
      ensures this in repr
    {
    }

    method PatchBelow(key: string, t: TableNode, v: Doc)
      requires Valid() && v.Table? && key in entries && entries[key] == Sub(t)
      modifies repr
      ensures Valid() && fresh(repr - old(repr))
      ensures value == old(value)[key := Table(Merge(SubTable(old(value), key), v))]
      decreases v, 2
    {
      hide Merge, Holds, Apart, SubTable;
      PatchInside(key, t, v);
      value, repr := value[key := Table(t.value)], repr + t.repr;
    }

    /** Patching a sub-table leaves the entries beside it as they are. */
    method PatchInside(key: string, t: TableNode, v: Doc)
      requires Valid() && v.Table? && key in entries && entries[key] == Sub(t)
      modifies repr - {this}
      ensures this in repr && t in t.repr && fresh(t.repr - repr) && entries.Keys == value.Keys
      ensures SubTable(old(value), key) == old(t.value) && t.value == Merge(old(t.value), v)
      ensures Holds(entries[key], Table(t.value), repr + t.repr - {this})
      ensures forall k | k in entries && k != key :: Holds(entries[k], value[k], repr + t.repr - {this})
      ensures forall j, k | j in entries && k in entries && j != k :: Apart(entries[j], entries[k])
      ensures forall k <- entries :: entries[k] != Sub(this)
      decreases v, 1
    {
      hide Merge, Valid;
      Beside(key, t);
      t.Patch(v);
    }

    lemma Beside(key: string, t: TableNode)
      requires Valid() && key in entries && entries[key] == Sub(t)
      ensures this in repr && t.Valid() && t in t.repr && this !in t.repr && t.repr <= repr
      ensures entries.Keys == value.Keys && value[key] == Table(t.value)
      ensures forall k | k in entries && k != key :: Holds(entries[k], value[k], repr - {this})
      ensures forall k | k in entries && k != key && entries[k].Sub? ::
                var s := entries[k].table; s in s.repr && s.repr !! t.repr && s.repr <= repr - {this}
      ensures forall j, k | j in entries && k in entries && j != k :: Apart(entries[j], entries[k])
    {
    }

    /** Applies `data`, taking its keys in any order. */
    method Patch(data: Doc)
      requires Valid() && data.Table?
      modifies repr
      ensures Valid() && fresh(repr - old(repr))
      ensures this in repr && value == Merge(old(value), data)
      decreases data, 0
    {
      hide Merge;
      ghost var m, done := value, {};
      MergeNothing(m, data);
      var rest := data.entries.Keys;
      while rest != {}
        invariant Valid() && fresh(repr - old(repr)) && rest !! done && rest + done == data.entries.Keys
        invariant value == Merge(m, Only(data, done))
        decreases rest
      {
        var key :| key in rest;
        MergeOneMore(m, data, done, key);
        PatchKey(key, data.entries[key]);
        rest, done := rest - {key}, done + {key};
      }
      assert Only(data, done) == data;
    }
  }

  /** Node `n` spells out `d`, and lies inside the footprint `inside`. */
  ghost predicate Holds(n: Node, d: Doc, inside: set<TableNode>)
    reads inside
    decreases inside, 1
  {
    match n
    case Plain(v) => d == Leaf(v)
    case Sub(t) => t in inside && t.repr <= inside && t.Valid() && d == Table(t.value)
  }

  ghost predicate Apart(a: Node, b: Node)
    reads if a.Sub? then {a.table} else {}, if b.Sub? then {b.table} else {}
  {
    a.Sub? && b.Sub? ==> a.table.repr !! b.table.repr
  }

  lemma MergeNothing(m: Entries, data: Doc)
    requires data.Table?
    ensures Merge(m, Only(data, {})) == m
  {
  }

  /** The part of a table under the given keys. */
  function Only(data: Doc, keys: set<string>): (d: Doc)
    requires data.Table?
    ensures d.Table?
  {
    Table(map k | k in data.entries && k in keys :: data.entries[k])
  }

  lemma MergeOneMore(m: Entries, data: Doc, done: set<string>, key: string)
    requires data.Table? && key in data.entries && key !in done
    ensures var part := Merge(m, Only(data, done));
            Merge(m, Only(data, done + {key})) == part[key := Patched(part, key, data.entries[key])]
  {
  }

  /** Saving the task table: every task's own table is patched, or made, in the
      order the tasks come. */
  method SaveTasks(doc: TableNode, tasks: map<string, Entries>)
    requires doc.Valid()
    modifies doc.repr
    ensures doc.Valid() && doc.value == Merge(old(doc.value), TaskTables(tasks))
    ensures doc.value.Keys == old(doc.value).Keys + tasks.Keys
    ensures forall n <- tasks :: doc.value[n] == Table(Merge(SubTable(old(doc.value), n), Table(tasks[n])))
    ensures forall n | n in old(doc.value) && n !in tasks :: doc.value[n] == old(doc.value)[n]
  {
    hide Merge, TableNode.Valid;
    ghost var m, done, data := doc.value, {}, TaskTables(tasks);
    MergeNothing(m, data);
    var rest := tasks.Keys;
    while rest != {}
      invariant doc.Valid() && fresh(doc.repr - old(doc.repr)) && rest !! done && rest + done == tasks.Keys
      invariant doc.value == Merge(m, Only(data, done))
      decreases rest
    {
      var name :| name in rest;
      MergeOneMore(m, data, done, name);
      doc.Rooted();
      var t := doc.EnsureTable(name);
      doc.PatchBelow(name, t, Table(tasks[name]));
      rest, done := rest - {name}, done + {name};
    }
    assert Only(data, done) == data;
    TablesMerge(m, tasks);
  }

  /** Every task's table is merged into its own, and nothing else is touched. */
  lemma TablesMerge(m: Entries, tasks: map<string, Entries>)
    ensures var after := Merge(m, TaskTables(tasks));
            && after.Keys == m.Keys + tasks.Keys
            && (forall n <- tasks :: after[n] == Table(Merge(SubTable(m, n), Table(tasks[n]))))
            && (forall n | n in m && n !in tasks :: after[n] == m[n])
  {
  }

  /** The patch that saving makes: one table per task. */
  function TaskTables(tasks: map<string, Entries>): (d: Doc)
    ensures d.Table?
  {
    Table(map name | name in tasks :: Table(tasks[name]))
  }

  // ----- what a patch keeps and what it writes -----

  /** The value at the end of a path of keys. */
  function Lookup(m: Entries, path: seq<string>): Option<Doc>
    requires path != []
    decreases path
  {
    if path[0] !in m then None
    else if |path| == 1 then Some(m[path[0]])
    else if m[path[0]].Leaf? then None
    else Lookup(m[path[0]].entries, path[1..])
  }

  /** The data has something at this path, or a leaf above it. */
  predicate Covered(data: Doc, path: seq<string>)
    requires data.Table? && path != []
  {
    && path[0] in data.entries
    && (|path| == 1 || data.entries[path[0]].Leaf? || Covered(data.entries[path[0]], path[1..]))
  }

  predicate EndsInTable(data: Doc, path: seq<string>)
    requires data.Table? && path != []
  {
    var end := Lookup(data.entries, path);
    end.Some? && end.value.Table?
  }

  /** Everything outside the data keeps its value, at every depth; everything
      the data says at a leaf is what the patched table says there. */
  lemma {:induction false} PathsAfterMerge(m: Entries, data: Doc, path: seq<string>)
    requires data.Table? && path != []
    ensures !Covered(data, path) ==> Lookup(Merge(m, data), path) == Lookup(m, path)
    ensures Covered(data, path) && !EndsInTable(data, path) ==>
              Lookup(Merge(m, data), path) == Lookup(data.entries, path)
    decreases data
  {
    if |path| > 1 && path[0] in data.entries && data.entries[path[0]].Table? {
      PathsAfterMerge(SubTable(m, path[0]), data.entries[path[0]], path[1..]);
    }
  }

  /** The part of a table that lies along the shape of the data. */
  function ReadAlong(m: Entries, data: Doc): Entries
    requires data.Table?
    decreases data
  {
    map k | k in data.entries.Keys * m.Keys ::
      if data.entries[k].Table? && m[k].Table? then Table(ReadAlong(m[k].entries, data.entries[k]))
      else m[k]
  }

  /** Reading back along the data's shape gives the data. */
  lemma {:induction false} ReadBack(m: Entries, data: Doc)
    requires data.Table?
    ensures ReadAlong(Merge(m, data), data) == data.entries
    decreases data
  {
    forall k | k in data.entries && data.entries[k].Table?
      ensures ReadAlong(Merge(SubTable(m, k), data.entries[k]), data.entries[k]) == data.entries[k].entries
    {
      ReadBack(SubTable(m, k), data.entries[k]);
    }
  }

  /** A patch changes nothing iff the table already reads back as the data. */
  lemma {:induction false} NoChangeIff(m: Entries, data: Doc)
    requires data.Table?
    ensures Merge(m, data) == m <==> ReadAlong(m, data) == data.entries
    decreases data
  {
    ReadBack(m, data);
    if ReadAlong(m, data) == data.entries {
      forall k | k in data.entries
        ensures k in m && Merge(m, data)[k] == m[k]
      {
        assert k in ReadAlong(m, data) && ReadAlong(m, data)[k] == data.entries[k];
        if data.entries[k].Table? {
          NoChangeIff(SubTable(m, k), data.entries[k]);
        }
      }
    }
  }

  // ----- two patches in a row -----

  /** `b` writes over everything `a` writes. */
  predicate Overwritten(a: Doc, b: Doc)
    requires a.Table? && b.Table?
    decreases a
  {
    forall k <- a.entries ::
      && k in b.entries
      && (b.entries[k].Leaf? || (a.entries[k].Table? && Overwritten(a.entries[k], b.entries[k])))
  }

  /** The second patch alone does the work of both, on every document, iff it
      writes over everything the first one writes. */
  lemma SecondPatchWinsIff(a: Doc, b: Doc)
    requires a.Table? && b.Table?
    ensures (forall d :: Merge(Merge(d, a), b) == Merge(d, b)) <==> Overwritten(a, b)
  {
    if Overwritten(a, b) {
      forall d
        ensures Merge(Merge(d, a), b) == Merge(d, b)
      {
        SecondPatchWins(d, a, b);
      }
    } else {
      var d := LeftOver(a, b);
      assert Merge(Merge(d, a), b) != Merge(d, b);
    }
  }

  lemma {:induction false} SecondPatchWins(d: Entries, a: Doc, b: Doc)
    requires a.Table? && b.Table? && Overwritten(a, b)
    ensures Merge(Merge(d, a), b) == Merge(d, b)
    decreases a
  {
    forall k | k in b.entries && b.entries[k].Table?
      ensures Merge(SubTable(Merge(d, a), k), b.entries[k]) == Merge(SubTable(d, k), b.entries[k])
    {
      if k in a.entries {
        SecondPatchWins(SubTable(d, k), a.entries[k], b.entries[k]);
      }
    }
  }

  /** A document on which something of `a`, or of what `a` erased, shows. */
  lemma {:induction false} LeftOver(a: Doc, b: Doc) returns (d: Entries)
    requires a.Table? && b.Table? && !Overwritten(a, b)
    ensures Merge(Merge(d, a), b) != Merge(d, b)
    decreases a
  {
    var k :| k in a.entries && !(k in b.entries
               && (b.entries[k].Leaf? || (a.entries[k].Table? && Overwritten(a.entries[k], b.entries[k]))));
    if k !in b.entries {
      d := map[];
      assert k in Merge(Merge(d, a), b) && k !in Merge(d, b);
    } else if a.entries[k].Leaf? {
      d := Erased(k, b.entries[k]);
      assert SubTable(Merge(d, a), k) == map[];
      assert Merge(Merge(d, a), b)[k] == Table(Merge(map[], b.entries[k]));
      assert Merge(d, b)[k] == Table(Merge(SubTable(d, k), b.entries[k]));
    } else {
      var inner := LeftOver(a.entries[k], b.entries[k]);
      d := map[k := Table(inner)];
      assert Merge(Merge(d, a), b)[k] == Table(Merge(Merge(inner, a.entries[k]), b.entries[k]));
      assert Merge(d, b)[k] == Table(Merge(inner, b.entries[k]));
    }
  }

  /** A document with a key under `k` that the table `t` does not know: patching
      what was a leaf at `k` with `t` is not patching this document with `t`. */
  lemma Erased(k: string, t: Doc) returns (d: Entries)
    requires t.Table?
    ensures d.Keys == {k} && d[k].Table?
    ensures Merge(map[], t) != Merge(SubTable(d, k), t)
  {
    var key := UnusedKey(t.entries.Keys);
    d := map[k := Table(map[key := Leaf("")])];
    assert key in Merge(SubTable(d, k), t) && key !in Merge(map[], t);
  }

  lemma UnusedKey(keys: set<string>) returns (key: string)
    ensures key !in keys
  {
    var n := LongerThanAll(keys);
    key := seq(n, _ => 'x');
  }

  lemma LongerThanAll(keys: set<string>) returns (n: nat)
    ensures forall k <- keys :: |k| < n
  {
    if keys == {} {
      n := 0;
    } else {
      var k :| k in keys;
      n := LongerThanAll(keys - {k});
      if n <= |k| { n := |k| + 1; }
    }
  }

  /** No path is a leaf in `a` and a table in `b`. */
  predicate NoClash(a: Doc, b: Doc)
    requires a.Table? && b.Table?
    decreases a
  {
    forall k <- a.entries | k in b.entries && b.entries[k].Table? ::
      a.entries[k].Table? && NoClash(a.entries[k], b.entries[k])
  }

  /** Patching twice is patching once with the merged data, on every document,
      iff no path is a leaf in the earlier patch and a table in the later one. */
  lemma PatchesComposeIff(a: Doc, b: Doc)
    requires a.Table? && b.Table?
    ensures (forall d :: Merge(Merge(d, a), b) == Merge(d, Table(Merge(a.entries, b)))) <==> NoClash(a, b)
  {
    if NoClash(a, b) {
      forall d
        ensures Merge(Merge(d, a), b) == Merge(d, Table(Merge(a.entries, b)))
      {
        PatchesCompose(d, a, b);
      }
    } else {
      var d := Clash(a, b);
      assert Merge(Merge(d, a), b) != Merge(d, Table(Merge(a.entries, b)));
    }
  }

  lemma {:induction false} PatchesCompose(d: Entries, a: Doc, b: Doc)
    requires a.Table? && b.Table? && NoClash(a, b)
    ensures Merge(Merge(d, a), b) == Merge(d, Table(Merge(a.entries, b)))
    decreases b, 1
  {
    var both := Table(Merge(a.entries, b));
    var left, right := Merge(Merge(d, a), b), Merge(d, both);
    MergeKeys(d, a);
    MergeKeys(Merge(d, a), b);
    MergeKeys(a.entries, b);
    MergeKeys(d, both);
    hide Merge;
    forall k <- left
      ensures left[k] == right[k]
    {
      PatchesComposeAt(d, a, b, k);
    }
  }

  lemma MergeKeys(m: Entries, data: Doc)
    requires data.Table?
    ensures Merge(m, data).Keys == m.Keys + data.entries.Keys
  {
  }

  lemma {:induction false} PatchesComposeAt(d: Entries, a: Doc, b: Doc, k: string)
    requires a.Table? && b.Table? && NoClash(a, b) && k in d.Keys + a.entries.Keys + b.entries.Keys
    ensures Merge(Merge(d, a), b)[k] == Merge(d, Table(Merge(a.entries, b)))[k]
    decreases b, 0
  {
    if k in b.entries && b.entries[k].Table? {
      if k in a.entries {
        PatchesCompose(SubTable(d, k), a.entries[k], b.entries[k]);
      } else {
        MergeFromEmpty(b.entries[k]);
      }
    }
  }

  lemma {:induction false} MergeFromEmpty(data: Doc)
    requires data.Table?
    ensures Merge(map[], data) == data.entries
    decreases data
  {
    forall k | k in data.entries && data.entries[k].Table?
      ensures Merge(map[], data.entries[k]) == data.entries[k].entries
    {
      MergeFromEmpty(data.entries[k]);
    }
  }

  lemma {:induction false} Clash(a: Doc, b: Doc) returns (d: Entries)
    requires a.Table? && b.Table? && !NoClash(a, b)
    ensures Merge(Merge(d, a), b) != Merge(d, Table(Merge(a.entries, b)))
    decreases a
  {
    var k :| k in a.entries && k in b.entries && b.entries[k].Table?
             && !(a.entries[k].Table? && NoClash(a.entries[k], b.entries[k]));
    if a.entries[k].Leaf? {
      d := Erased(k, b.entries[k]);
      LeafClash(d, a, b, k);
    } else {
      var inner := Clash(a.entries[k], b.entries[k]);
      d := map[k := Table(inner)];
      TableClash(inner, a, b, k);
    }
  }

  lemma LeafClash(d: Entries, a: Doc, b: Doc, k: string)
    requires a.Table? && b.Table? && k in a.entries && k in b.entries && a.entries[k].Leaf? && b.entries[k].Table?
    ensures Merge(Merge(d, a), b)[k] == Table(Merge(map[], b.entries[k]))
    ensures Merge(d, Table(Merge(a.entries, b)))[k] == Table(Merge(SubTable(d, k), b.entries[k]))
  {
    MergeFromEmpty(b.entries[k]);
    assert Merge(a.entries, b)[k] == b.entries[k];
    assert SubTable(Merge(d, a), k) == map[];
  }

  lemma TableClash(inner: Entries, a: Doc, b: Doc, k: string)
    requires a.Table? && b.Table? && k in a.entries && k in b.entries && a.entries[k].Table? && b.entries[k].Table?
    ensures var d := map[k := Table(inner)];
            && Merge(Merge(d, a), b)[k] == Table(Merge(Merge(inner, a.entries[k]), b.entries[k]))
            && Merge(d, Table(Merge(a.entries, b)))[k]
               == Table(Merge(inner, Table(Merge(a.entries[k].entries, b.entries[k]))))
  {
  }
}
