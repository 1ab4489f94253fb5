/**
 Writing a collaborative document out into a project's rows.

 The document is given decoded: for each kind of content the entries it holds, and the tombstones
 of everything ever removed. `ProjectedRows` says what each row becomes from that row, its entry
 and its tombstone alone; the methods are the pipeline of the source -- build nested attributes,
 drop or build what the collection does not know, spare the root, assign -- proved to do that.
 */
module Projection {
  import opened Options
  import opened Texts

  type Id = nat

  /** What a row is, as far as the nested collections tell kinds apart. */
  datatype Kind = Division | Snippet | Exercise | Asset

  datatype Value = Text(text: string) | Table(table: map<string, string>)

  type Columns = map<string, Value>

  datatype Row = Row(kind: Kind, isRoot: bool, columns: Columns)

  type Rows = map<Id, Row>

  /** A document's entry; a field it does not carry (or that has the wrong type) is `None`. */
  datatype Entry = Entry(
    ref: Option<string>, source: Option<string>, format: Option<string>, title: Option<string>,
    divisionType: Option<string>, attrs: Option<map<string, string>>, shortDescription: Option<string>)

  datatype Item = Item(id: Id, entry: Entry)
  datatype Tombstone = Tombstone(id: Id, kind: Kind)

  datatype Meta = Meta(title: Option<string>, docinfo: Option<string>, common: Option<bool>, language: Option<string>)

  datatype Doc = Doc(
    meta: Meta, divisions: seq<Item>, snippets: seq<Item>, exercises: seq<Item>, assets: seq<Item>,
    deleted: seq<Tombstone>)
  {
    function Items(kind: Kind): seq<Item> {
      match kind
      case Division => divisions
      case Snippet => snippets
      case Exercise => exercises
      case Asset => assets
    }
  }

  /** The project's own columns, and its content. */
  datatype Saved = Saved(title: string, docinfo: string, common: bool, language: string, rows: Rows)

  // ---- The attribute builders ----

  predicate Present(o: Option<string>) { o.Some? && !Blank(o.value) }

  /** A column written only when the entry carries the field. */
  function Carried(column: string, o: Option<string>): Columns {
    if o.Some? then map[column := Text(o.value)] else map[]
  }

  function CarriedTable(o: Option<map<string, string>>): Columns {
    if o.Some? then map["attrs" := Table(o.value)] else map[]
  }

  function Body(e: Entry): Columns {
    map["ref" := Text(e.ref.GetOr("")), "source" := Text(e.source.GetOr(""))]
  }

  function Format(e: Entry): Columns {
    map["source_format" := Text(if Present(e.format) then e.format.value else "pretext")]
  }

  /** The columns an entry of each kind is projected onto. */
  function ColumnsFor(kind: Kind, e: Entry): Columns {
    match kind
    case Division =>
      Body(e) + Format(e) + Carried("title", e.title)
      + Carried("division_type", if Present(e.divisionType) then e.divisionType else None)
      + CarriedTable(e.attrs)
    case Snippet => Body(e) + Format(e) + Carried("title", e.title)
    case Exercise => Body(e) + Carried("title", e.title) + CarriedTable(e.attrs)
    case Asset =>
      Body(e) + map["title" := Text(e.title.GetOr("")), "short_description" := Text(e.shortDescription.GetOr(""))]
  }

  /** What a row built under an id the editor minted starts from. */
  function Initial(kind: Kind): Row {
    Row(kind, false,
        map["source_format" := Text("pretext"), "attrs" := Table(map[])]
        + if kind.Division? then map["division_type" := Text("section")] else map[])
  }

  // ---- What a projection does, row by row ----

  function EntryIn(items: seq<Item>, id: Id): Option<Entry> {
    if items == [] then None
    else if items[|items| - 1].id == id then Some(items[|items| - 1].entry)
    else EntryIn(items[..|items| - 1], id)
  }

  function EntryOf(doc: Doc, kind: Kind, id: Id): Option<Entry> { EntryIn(doc.Items(kind), id) }

  predicate Tombstoned(doc: Doc, kind: Kind, id: Id) { Tombstone(id, kind) in doc.deleted }

  function RowIn(rows: Rows, id: Id): Option<Row> { if id in rows then Some(rows[id]) else None }

  function Changed(row: Row, kind: Kind, e: Entry): Row {
    row.(columns := row.columns + ColumnsFor(kind, e))
  }

  /** What becomes of a row (or of an id without one) among the content of one kind. */
  function RowAfter(kind: Kind, row: Option<Row>, entry: Option<Entry>, gone: bool): Option<Row> {
    match row
    case Some(r) =>
      if gone then if r.isRoot then row else None
      else if entry.Some? then Some(Changed(r, kind, entry.value)) else row
    case None =>
      if entry.Some? && !gone && !kind.Asset? then Some(Changed(Initial(kind), kind, entry.value)) else None
  }

  /** The same, an id of another kind being none of this kind's business. */
  function RowOfKindAfter(kind: Kind, rows: Rows, doc: Doc, id: Id): Option<Row> {
    if id in rows && rows[id].kind != kind then None
    else RowAfter(kind, RowIn(rows, id), EntryOf(doc, kind, id), Tombstoned(doc, kind, id))
  }

  predicate DistinctItems(items: seq<Item>) {
    forall i, j :: 0 <= i < j < |items| ==> items[i].id != items[j].id
  }

  /** An id is of one kind, and named at most once as an entry of it and once as removed. */
  predicate Coherent(doc: Doc) {
    && (forall k: Kind :: DistinctItems(doc.Items(k)))
    && (forall i, j :: 0 <= i < j < |doc.deleted| ==> doc.deleted[i].id != doc.deleted[j].id)
    && (forall k: Kind, l: Kind, x, y :: x in doc.Items(k) && y in doc.Items(l) && x.id == y.id ==> k == l)
    && (forall k: Kind, x, t :: x in doc.Items(k) && t in doc.deleted && x.id == t.id ==> k == t.kind)
  }

  /** The rows of the project are of the kinds the root flag allows. */
  predicate RootsAreDivisions(rows: Rows) { forall i :: i in rows && rows[i].isRoot ==> rows[i].kind.Division? }

  // ---- Nested attributes ----

  /** One entry of a nested-attributes array. */
  datatype Nested = Nested(id: Id, destroy: bool, columns: Columns)

  predicate DistinctIds(entries: seq<Nested>) {
    forall i, j :: 0 <= i < j < |entries| ==> entries[i].id != entries[j].id
  }

  predicate Held(rows: Rows, kind: Kind, id: Id) { id in rows && rows[id].kind == kind }

  function Surviving(kind: Kind, rows: Rows, doc: Doc, items: seq<Item>): seq<Nested> {
    if items == [] then []
    else
      var x := items[|items| - 1];
      Surviving(kind, rows, doc, items[..|items| - 1])
      + if Tombstoned(doc, kind, x.id) || (kind.Asset? && !Held(rows, kind, x.id)) then []
        else [Nested(x.id, false, ColumnsFor(kind, x.entry))]
  }

  function Destroying(kind: Kind, deleted: seq<Tombstone>): seq<Nested> {
    if deleted == [] then []
    else
      var t := deleted[|deleted| - 1];
      Destroying(kind, deleted[..|deleted| - 1]) + if t.kind == kind then [Nested(t.id, true, map[])] else []
  }

  /** The four `*_attributes` builders. */
  function AttributesFor(kind: Kind, rows: Rows, doc: Doc): seq<Nested> {
    Surviving(kind, rows, doc, doc.Items(kind)) + Destroying(kind, doc.deleted)
  }

  lemma {:induction false} SurvivingAre(kind: Kind, rows: Rows, doc: Doc, items: seq<Item>, n: Nested)
    requires DistinctItems(items)
    ensures n in Surviving(kind, rows, doc, items) <==>
      && EntryIn(items, n.id).Some? && !n.destroy && n.columns == ColumnsFor(kind, EntryIn(items, n.id).value)
      && !Tombstoned(doc, kind, n.id) && (kind.Asset? ==> Held(rows, kind, n.id))
    ensures DistinctIds(Surviving(kind, rows, doc, items))
    ensures EntryIn(items, n.id).Some? <==> exists x :: x in items && x.id == n.id
  {
    if items != [] {
      var front, x := items[..|items| - 1], items[|items| - 1];
      assert items == front + [x];
      SurvivingAre(kind, rows, doc, front, n);
      forall m | m in Surviving(kind, rows, doc, front) ensures m.id != x.id {
        SurvivingAre(kind, rows, doc, front, m);
      }
      SurvivingAre(kind, rows, doc, front, Nested(x.id, n.destroy, n.columns));
    }
  }

  lemma {:induction false} DestroyingAre(kind: Kind, deleted: seq<Tombstone>, n: Nested)
    requires forall i, j :: 0 <= i < j < |deleted| ==> deleted[i].id != deleted[j].id
    ensures n in Destroying(kind, deleted) <==> n.destroy && n.columns == map[] && Tombstone(n.id, kind) in deleted
    ensures DistinctIds(Destroying(kind, deleted))
  {
    if deleted != [] {
      var front, t := deleted[..|deleted| - 1], deleted[|deleted| - 1];
      assert deleted == front + [t];
      DestroyingAre(kind, front, n);
      forall m | m in Destroying(kind, front) ensures m.id != t.id {
        DestroyingAre(kind, front, m);
      }
    }
  }

  /** The entries of one kind: at most one for an id, a removal or the fields of a surviving entry. */
  lemma AttributesAre(kind: Kind, rows: Rows, doc: Doc, n: Nested)
    requires Coherent(doc)
    ensures n in AttributesFor(kind, rows, doc) <==>
      if Tombstoned(doc, kind, n.id) then n.destroy && n.columns == map[]
      else
        && EntryOf(doc, kind, n.id).Some? && !n.destroy && n.columns == ColumnsFor(kind, EntryOf(doc, kind, n.id).value)
        && (kind.Asset? ==> Held(rows, kind, n.id))
  {
    SurvivingAre(kind, rows, doc, doc.Items(kind), n);
    DestroyingAre(kind, doc.deleted, n);
  }

  lemma AttributesAreDistinct(kind: Kind, rows: Rows, doc: Doc)
    requires Coherent(doc)
    ensures DistinctIds(AttributesFor(kind, rows, doc))
  {
    var present, removed := Surviving(kind, rows, doc, doc.Items(kind)), Destroying(kind, doc.deleted);
    forall m, n | m in present && n in removed ensures m.id != n.id {
      SurvivingAre(kind, rows, doc, doc.Items(kind), m);
      DestroyingAre(kind, doc.deleted, n);
    }
    SurvivingAre(kind, rows, doc, doc.Items(kind), Nested(0, false, map[]));
    DestroyingAre(kind, doc.deleted, Nested(0, false, map[]));
    var all := present + removed;
    forall i, j | 0 <= i < j < |all| ensures all[i].id != all[j].id {
      if i < |present| <= j { assert all[i] in present && all[j] in removed; }
    }
  }
}
