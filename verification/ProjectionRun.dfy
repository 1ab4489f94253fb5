/**
 The pipeline a projection goes through on its way to the rows, and what runs of it amount to:
 each is idempotent, none moves the root or makes up an asset, and whatever earlier runs were
 skipped or refused, the last one leaves the same rows -- unless it removes the root.
 */
module ProjectionRun {
  import opened Options
  import opened Projection

  // ---- The pipeline, for one kind ----

  function Minted(entries: seq<Nested>): set<Id> { set n | n in entries && !n.destroy :: n.id }

  function OfKind(rows: Rows, kind: Kind): set<Id> { set i | i in rows && rows[i].kind == kind }

  /** The collection as it was loaded, grown by what the entries mint. */
  predicate Grown(kind: Kind, rows: Rows, entries: seq<Nested>, collection: Rows) {
    && collection.Keys == OfKind(rows, kind) + (Minted(entries) - rows.Keys)
    && forall i :: i in collection ==> collection[i] == if i in rows then rows[i] else Initial(kind)
  }

  /** The entries kept are those whose id the collection now has. */
  ghost predicate KeptFrom(entries: seq<Nested>, collection: Rows, kept: seq<Nested>) {
    && (forall n :: n in kept <==> n in entries && n.id in collection)
    && DistinctIds(kept)
  }

  lemma MintedByOne(before: seq<Nested>, entry: Nested)
    ensures Minted(before + [entry]) == Minted(before) + (if entry.destroy then {} else {entry.id})
  {
    assert forall n :: n in before + [entry] <==> n in before || n == entry;
  }

  lemma GrownByOne(kind: Kind, rows: Rows, before: seq<Nested>, entry: Nested, collection: Rows)
    requires Grown(kind, rows, before, collection)
    ensures var all := before + [entry];
      if entry.id in rows || entry.destroy then Grown(kind, rows, all, collection)
      else Grown(kind, rows, all, collection[entry.id := Initial(kind)])
  {
    hide Initial, Minted, OfKind;
    MintedByOne(before, entry);
    var minted, keys, all := Minted(before), rows.Keys, before + [entry];
    if entry.id in rows || entry.destroy {
      assert Minted(all) - keys == minted - keys;
    } else {
      assert Minted(all) - keys == (minted - keys) + {entry.id};
    }
  }

  lemma KeptByOne(before: seq<Nested>, entry: Nested, collection: Rows, after: Rows, kept: seq<Nested>)
    requires KeptFrom(before, collection, kept) && forall n :: n in before ==> n.id != entry.id
    requires forall i :: i != entry.id ==> (i in after <==> i in collection)
    ensures KeptFrom(before + [entry], after, if entry.id in after then kept + [entry] else kept)
  {
    var all := before + [entry];
    assert forall n :: n in all <==> n in before || n == entry;
    assert forall n :: n in kept ==> n in before;
  }

  function CollectionStep(kind: Kind, rows: Rows, collection: Rows, entry: Nested): Rows {
    if entry.id in collection || entry.id in rows || entry.destroy then collection
    else collection[entry.id := Initial(kind)]
  }

  lemma StepTolerates(kind: Kind, rows: Rows, before: seq<Nested>, entry: Nested, collection: Rows, kept: seq<Nested>)
    requires Grown(kind, rows, before, collection) && KeptFrom(before, collection, kept)
    requires forall n :: n in before ==> n.id != entry.id
    ensures var after := CollectionStep(kind, rows, collection, entry);
      && Grown(kind, rows, before + [entry], after)
      && KeptFrom(before + [entry], after, if entry.id in after then kept + [entry] else kept)
  {
    assert entry.id in collection ==> entry.id in rows;
    hide Grown, KeptFrom, Initial;
    GrownByOne(kind, rows, before, entry, collection);
    KeptByOne(before, entry, collection, CollectionStep(kind, rows, collection, entry), kept);
  }

  /** The association as the database has it. */
  function Loaded(kind: Kind, rows: Rows): Rows { map i | i in rows && rows[i].kind == kind :: rows[i] }

  lemma LoadedIsStart(kind: Kind, rows: Rows)
    ensures Loaded(kind, rows).Keys == OfKind(rows, kind)
    ensures Grown(kind, rows, [], Loaded(kind, rows)) && KeptFrom([], Loaded(kind, rows), [])
  {
  }

  /** `tolerate_client_minted_ids`: the entries that can be applied, and the collection they need. */
  method TolerateClientMintedIds(kind: Kind, rows: Rows, entries: seq<Nested>)
    returns (kept: seq<Nested>, collection: Rows)
    requires DistinctIds(entries)
    ensures Grown(kind, rows, entries, collection) && KeptFrom(entries, collection, kept)
  {
    hide Grown, KeptFrom, DistinctIds, Initial, OfKind, Loaded;
    collection := Loaded(kind, rows);
    LoadedIsStart(kind, rows);
    var known, elsewhere := collection.Keys, rows.Keys - collection.Keys;
    kept := [];
    for k := 0 to |entries|
      invariant known == collection.Keys && elsewhere == rows.Keys - OfKind(rows, kind)
      invariant Grown(kind, rows, entries[..k], collection) && KeptFrom(entries[..k], collection, kept)
    {
      var entry := entries[k];
      ghost var before := entries[..k];
      assert entries[..k + 1] == before + [entry];
      EarlierIdsDiffer(entries, k);
      LoadedIsGrown(kind, rows, before, collection);
      StepTolerates(kind, rows, before, entry, collection, kept);
      if entry.id in known {
        kept := kept + [entry];
      } else if entry.id !in elsewhere && !entry.destroy {
        collection := collection[entry.id := Initial(kind)];
        known := known + {entry.id};
        kept := kept + [entry];
      }
    }
    assert entries[..|entries|] == entries;
  }

  lemma EarlierIdsDiffer(entries: seq<Nested>, k: nat)
    requires DistinctIds(entries) && k < |entries|
    ensures forall n :: n in entries[..k] ==> n.id != entries[k].id
  {
  }

  lemma LoadedIsGrown(kind: Kind, rows: Rows, entries: seq<Nested>, collection: Rows)
    requires Grown(kind, rows, entries, collection)
    ensures OfKind(rows, kind) <= collection.Keys
  {
  }

  /** `keep_root_division`: an entry naming the root loses its `_destroy`. */
  function KeepRootDivision(collection: Rows, entries: seq<Nested>): (r: seq<Nested>)
    ensures |r| == |entries|
    ensures forall i :: 0 <= i < |r| ==>
      && r[i].id == entries[i].id && r[i].columns == entries[i].columns
      && r[i].destroy == (entries[i].destroy && !(entries[i].id in collection && collection[entries[i].id].isRoot))
  {
    if entries == [] then []
    else
      var e := entries[|entries| - 1];
      KeepRootDivision(collection, entries[..|entries| - 1])
      + [if e.id in collection && collection[e.id].isRoot then e.(destroy := false) else e]
  }

  function RowAssigned(row: Row, n: Nested): Option<Row> {
    if n.destroy then None else Some(row.(columns := row.columns + n.columns))
  }

  ghost predicate Assigned(collection: Rows, entries: seq<Nested>, after: Rows) {
    && (forall n :: n in entries && n.id in collection ==> RowIn(after, n.id) == RowAssigned(collection[n.id], n))
    && (forall i :: (forall n :: n in entries ==> n.id != i) ==> RowIn(after, i) == RowIn(collection, i))
  }

  /** Assigning nested attributes to a loaded collection, and saving it. */
  method AssignNested(collection: Rows, entries: seq<Nested>) returns (after: Rows)
    requires DistinctIds(entries) && forall n :: n in entries ==> n.id in collection
    ensures Assigned(collection, entries, after)
  {
    after := collection;
    var marked := {};
    for k := 0 to |entries|
      invariant after.Keys == collection.Keys
      invariant marked == set n | n in entries[..k] && n.destroy :: n.id
      invariant forall n :: n in entries[..k] && !n.destroy ==>
        after[n.id] == collection[n.id].(columns := collection[n.id].columns + n.columns)
      invariant forall i :: i in collection && (forall n :: n in entries[..k] ==> n.id != i || n.destroy) ==>
        after[i] == collection[i]
    {
      var n := entries[k];
      assert entries[..k + 1] == entries[..k] + [n];
      assert forall m :: m in entries[..k] ==> m.id != n.id;
      if n.destroy {
        marked := marked + {n.id};
      } else {
        after := after[n.id := after[n.id].(columns := after[n.id].columns + n.columns)];
      }
    }
    assert entries[..|entries|] == entries;
    assert forall n :: n in entries && !n.destroy ==> n.id !in marked;
    after := after - marked;
  }

  lemma SparedEntry(collection: Rows, kept: seq<Nested>, n: Nested)
    requires DistinctIds(kept)
    ensures DistinctIds(KeepRootDivision(collection, kept))
    ensures n in kept && n.id in collection ==>
      n.(destroy := n.destroy && !collection[n.id].isRoot) in KeepRootDivision(collection, kept)
    ensures (forall m :: m in kept ==> m.id != n.id) ==>
      forall m :: m in KeepRootDivision(collection, kept) ==> m.id != n.id
  {
    var r := KeepRootDivision(collection, kept);
    if n in kept {
      var i :| 0 <= i < |kept| && kept[i] == n;
      assert r[i] in r;
    }
    if m :| m in r && m.id == n.id {
      var i :| 0 <= i < |r| && r[i] == m;
      assert kept[i] in kept;
    }
  }

  /** The entry the pipeline holds for an id, if it holds one. */
  function EntryFor(kind: Kind, rows: Rows, doc: Doc, i: Id): Option<Nested> {
    if Tombstoned(doc, kind, i) then Some(Nested(i, true, map[]))
    else if EntryOf(doc, kind, i).Some? && (kind.Asset? ==> Held(rows, kind, i))
    then Some(Nested(i, false, ColumnsFor(kind, EntryOf(doc, kind, i).value)))
    else None
  }

  lemma AttributesAt(kind: Kind, rows: Rows, doc: Doc, i: Id)
    requires Coherent(doc)
    ensures var e, entries := EntryFor(kind, rows, doc, i), AttributesFor(kind, rows, doc);
      && (e.Some? ==> e.value in entries)
      && (forall n :: n in entries && n.id == i ==> e == Some(n))
  {
    hide Coherent;
    var e := EntryFor(kind, rows, doc, i);
    if e.Some? { AttributesAre(kind, rows, doc, e.value); }
    forall n | n in AttributesFor(kind, rows, doc) && n.id == i ensures e == Some(n) {
      AttributesAre(kind, rows, doc, n);
    }
  }

  lemma CollectionAt(kind: Kind, rows: Rows, doc: Doc, collection: Rows, i: Id)
    requires Coherent(doc) && Grown(kind, rows, AttributesFor(kind, rows, doc), collection)
    ensures var e := EntryFor(kind, rows, doc, i);
      && (i in collection <==> Held(rows, kind, i) || (i !in rows && e.Some? && !e.value.destroy))
      && (i in collection ==> collection[i] == if i in rows then rows[i] else Initial(kind))
  {
    AttributesAt(kind, rows, doc, i);
    hide Coherent, AttributesFor, EntryFor, Initial;
    var entries := AttributesFor(kind, rows, doc);
    if i in Minted(entries) {
      var n :| n in entries && !n.destroy && n.id == i;
    }
  }

  lemma AssignedAt(kind: Kind, rows: Rows, doc: Doc, collection: Rows, kept: seq<Nested>, after: Rows, i: Id)
    requires Coherent(doc) && KeptFrom(AttributesFor(kind, rows, doc), collection, kept)
    requires Assigned(collection, if kind.Division? then KeepRootDivision(collection, kept) else kept, after)
    ensures var e := EntryFor(kind, rows, doc, i);
      RowIn(after, i) ==
        if i !in collection then None
        else if e.None? then Some(collection[i])
        else RowAssigned(collection[i],
          if kind.Division? then e.value.(destroy := e.value.destroy && !collection[i].isRoot) else e.value)
  {
    var e := EntryFor(kind, rows, doc, i);
    AttributesAt(kind, rows, doc, i);
    hide Coherent, AttributesFor, DistinctIds, RowAssigned;
    if e.Some? && i in collection {
      assert e.value.id == i && e.value in kept;
      SparedEntry(collection, kept, e.value);
    } else {
      assert forall m :: m in kept ==> m.id != i;
      SparedEntry(collection, kept, Nested(i, false, map[]));
    }
  }

  lemma PipelineAt(kind: Kind, rows: Rows, doc: Doc, collection: Rows, kept: seq<Nested>, after: Rows, i: Id)
    requires Coherent(doc) && RootsAreDivisions(rows)
    requires Grown(kind, rows, AttributesFor(kind, rows, doc), collection)
    requires KeptFrom(AttributesFor(kind, rows, doc), collection, kept)
    requires Assigned(collection, if kind.Division? then KeepRootDivision(collection, kept) else kept, after)
    ensures RowIn(after, i) == RowOfKindAfter(kind, rows, doc, i)
  {
    CollectionAt(kind, rows, doc, collection, i);
    AssignedAt(kind, rows, doc, collection, kept, after, i);
    hide Coherent, Grown, KeptFrom, Assigned, AttributesFor, ColumnsFor, KeepRootDivision, EntryOf, Tombstoned;
    if i in rows { PipelineAtRow(kind, rows, doc, collection, after, i); }
  }

  lemma PipelineAtRow(kind: Kind, rows: Rows, doc: Doc, collection: Rows, after: Rows, i: Id)
    requires RootsAreDivisions(rows) && i in rows
    requires i in collection <==> rows[i].kind == kind
    requires i in collection ==> collection[i] == rows[i]
    requires var e := EntryFor(kind, rows, doc, i);
      RowIn(after, i) ==
        if i !in collection then None
        else if e.None? then Some(collection[i])
        else RowAssigned(collection[i],
          if kind.Division? then e.value.(destroy := e.value.destroy && !collection[i].isRoot) else e.value)
    ensures RowIn(after, i) == RowOfKindAfter(kind, rows, doc, i)
  {
    hide ColumnsFor, EntryOf, Tombstoned;
    assert rows[i].columns + map[] == rows[i].columns;
  }

  /** One `*_attributes=` of the save: the rows of `kind` afterwards. */
  method ProjectKind(kind: Kind, rows: Rows, doc: Doc) returns (after: Rows)
    requires Coherent(doc) && RootsAreDivisions(rows)
    ensures IsCollection(kind, rows, doc, after)
  {
    var entries := AttributesFor(kind, rows, doc);
    AttributesAreDistinct(kind, rows, doc);
    var kept, collection := TolerateClientMintedIds(kind, rows, entries);
    var spared := if kind.Division? then KeepRootDivision(collection, kept) else kept;
    SparedEntry(collection, kept, Nested(0, false, map[]));
    after := AssignNested(collection, spared);
    forall i ensures RowIn(after, i) == RowOfKindAfter(kind, rows, doc, i) {
      PipelineAt(kind, rows, doc, collection, kept, after, i);
    }
  }

  // ---- The whole projection ----

  function NamedAs(doc: Doc, i: Id): Kind {
    if EntryOf(doc, Snippet, i).Some? then Snippet
    else if EntryOf(doc, Exercise, i).Some? then Exercise
    else if EntryOf(doc, Asset, i).Some? then Asset
    else Division
  }

  /** What one id's row is after the projection of `doc`. */
  function RowProjected(rows: Rows, doc: Doc, i: Id): Option<Row> {
    RowOfKindAfter(if i in rows then rows[i].kind else NamedAs(doc, i), rows, doc, i)
  }

  function IdsOf(items: seq<Item>): set<Id> { set x | x in items :: x.id }

  function ProjectedRows(rows: Rows, doc: Doc): Rows {
    map i | i in rows.Keys + IdsOf(doc.divisions) + IdsOf(doc.snippets) + IdsOf(doc.exercises)
            && RowProjected(rows, doc, i).Some? :: RowProjected(rows, doc, i).value
  }

  /** `attributes_from` and the save. */
  function Projected(s: Saved, doc: Doc): Saved {
    Saved(doc.meta.title.GetOr(""), doc.meta.docinfo.GetOr(""),
          doc.meta.common.GetOr(s.common), doc.meta.language.GetOr(s.language),
          ProjectedRows(s.rows, doc))
  }

  lemma EntryNamesItem(items: seq<Item>, i: Id)
    ensures EntryIn(items, i).Some? <==> i in IdsOf(items)
  {
    if items != [] {
      var front, x := items[..|items| - 1], items[|items| - 1];
      assert items == front + [x];
      EntryNamesItem(front, i);
    }
  }

  lemma RowsAreProjected(rows: Rows, doc: Doc, i: Id)
    ensures RowIn(ProjectedRows(rows, doc), i) == RowProjected(rows, doc, i)
  {
    EntryNamesItem(doc.divisions, i);
    EntryNamesItem(doc.snippets, i);
    EntryNamesItem(doc.exercises, i);
    hide ColumnsFor, Initial, EntryIn;
  }

  lemma EntriesAreOfOneKind(doc: Doc, k: Kind, l: Kind, i: Id)
    requires Coherent(doc) && EntryOf(doc, k, i).Some? && EntryOf(doc, l, i).Some?
    ensures k == l
  {
    EntryNamesItem(doc.Items(k), i);
    EntryNamesItem(doc.Items(l), i);
    var x :| x in doc.Items(k) && x.id == i;
    var y :| y in doc.Items(l) && y.id == i;
  }

  lemma NamedKindHasEntry(doc: Doc, k: Kind, i: Id)
    requires EntryOf(doc, k, i).Some?
    ensures EntryOf(doc, NamedAs(doc, i), i).Some?
  {
    hide EntryOf;
    match k { case Division => case Snippet => case Exercise => case Asset => }
  }

  lemma OneKindHasTheRow(rows: Rows, doc: Doc, k: Kind, i: Id)
    requires Coherent(doc) && RowOfKindAfter(k, rows, doc, i).Some?
    ensures k == if i in rows then rows[i].kind else NamedAs(doc, i)
  {
    if i !in rows {
      assert EntryOf(doc, k, i).Some?;
      hide Coherent, EntryOf, NamedAs;
      NamedKindHasEntry(doc, k, i);
      EntriesAreOfOneKind(doc, k, NamedAs(doc, i), i);
    }
  }

  class ProjectRecord {
    var saved: Saved

    constructor (saved: Saved)
      ensures this.saved == saved
    {
      this.saved := saved;
    }

    /** `apply!`. A save that is refused raises, and its transaction leaves every row as it was. */
    method Apply(doc: Option<Doc>, accepted: bool) returns (applied: bool)
      requires doc.Some? ==> Coherent(doc.value)
      requires RootsAreDivisions(saved.rows)
      modifies this
      ensures applied <==> doc.Some? && accepted
      ensures saved == if applied then Projected(old(saved), doc.value) else old(saved)
    {
      if doc.None? { return false; }
      var d, meta := doc.value, doc.value.meta;
      var divisions := ProjectKind(Division, saved.rows, d);
      var assets := ProjectKind(Asset, saved.rows, d);
      var snippets := ProjectKind(Snippet, saved.rows, d);
      var exercises := ProjectKind(Exercise, saved.rows, d);
      if !accepted { return false; }
      var rows := divisions + assets + snippets + exercises;
      CollectionsMakeTheRows(saved.rows, d, divisions, assets, snippets, exercises);
      saved := Saved(meta.title.GetOr(""), meta.docinfo.GetOr(""),
                     if meta.common.Some? then meta.common.value else saved.common,
                     if meta.language.Some? then meta.language.value else saved.language, rows);
      applied := true;
    }
  }

  ghost predicate IsCollection(k: Kind, rows: Rows, doc: Doc, c: Rows) {
    forall i :: RowIn(c, i) == RowOfKindAfter(k, rows, doc, i)
  }

  lemma CollectionsMakeTheRow(rows: Rows, doc: Doc, divisions: Rows, assets: Rows, snippets: Rows, exercises: Rows,
    i: Id)
    requires Coherent(doc)
    requires RowIn(divisions, i) == RowOfKindAfter(Division, rows, doc, i)
    requires RowIn(assets, i) == RowOfKindAfter(Asset, rows, doc, i)
    requires RowIn(snippets, i) == RowOfKindAfter(Snippet, rows, doc, i)
    requires RowIn(exercises, i) == RowOfKindAfter(Exercise, rows, doc, i)
    ensures RowIn(divisions + assets + snippets + exercises, i) == RowProjected(rows, doc, i)
  {
    var k := if i in rows then rows[i].kind else NamedAs(doc, i);
    assert RowProjected(rows, doc, i) == RowOfKindAfter(k, rows, doc, i);
    hide RowOfKindAfter, NamedAs, Coherent;
    forall l: Kind | RowOfKindAfter(l, rows, doc, i).Some? ensures l == k {
      OneKindHasTheRow(rows, doc, l, i);
    }
  }

  lemma CollectionsMakeTheRows(rows: Rows, doc: Doc, divisions: Rows, assets: Rows, snippets: Rows, exercises: Rows)
    requires Coherent(doc)
    requires IsCollection(Division, rows, doc, divisions) && IsCollection(Asset, rows, doc, assets)
    requires IsCollection(Snippet, rows, doc, snippets) && IsCollection(Exercise, rows, doc, exercises)
    ensures divisions + assets + snippets + exercises == ProjectedRows(rows, doc)
  {
    hide Coherent, RowOfKindAfter, ProjectedRows, RowProjected;
    var all, projected := divisions + assets + snippets + exercises, ProjectedRows(rows, doc);
    forall i ensures RowIn(all, i) == RowIn(projected, i) {
      RowsAreProjected(rows, doc, i);
      CollectionsMakeTheRow(rows, doc, divisions, assets, snippets, exercises, i);
    }
    SameRows(all, projected);
  }

  lemma SameRows(a: Rows, b: Rows)
    requires forall i :: RowIn(a, i) == RowIn(b, i)
    ensures a == b
  {
    assert forall i :: i in a <==> RowIn(a, i).Some?;
    assert forall i :: i in b <==> RowIn(b, i).Some?;
    forall i | i in a ensures i in b && a[i] == b[i] { assert RowIn(a, i) == RowIn(b, i); }
    forall i | i in b ensures i in a { assert RowIn(a, i) == RowIn(b, i); }
  }
}
