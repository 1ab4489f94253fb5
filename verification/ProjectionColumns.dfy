/** What a projection writes, column by column, in terms of the document's own fields. */
module ProjectionColumns {
  import opened Options
  import opened Projection
  import opened ProjectionRun
  import opened Texts

  function ColumnIn(columns: Columns, name: string): Option<Value> {
    if name in columns then Some(columns[name]) else None
  }

  /** The field's text, or the empty text for an entry without the field. */
  function TextOrEmpty(o: Option<string>): Option<Value> {
    match o
    case Some(s) => Some(Text(s))
    case None => Some(Text(""))
  }

  /** The field's text, or what the column had for an entry without the field. */
  function TextOrKept(o: Option<string>, kept: Option<Value>): Option<Value> {
    match o
    case Some(s) => Some(Text(s))
    case None => kept
  }

  function TableOrKept(o: Option<map<string, string>>, kept: Option<Value>): Option<Value> {
    match o
    case Some(m) => Some(Table(m))
    case None => kept
  }

  /** The format named, or PreTeXt's own for a blank one or none. */
  function FormatOf(e: Entry): Option<Value> {
    match e.format
    case Some(f) => Some(Text(if Blank(f) then "pretext" else f))
    case None => Some(Text("pretext"))
  }

  /** The type named, or what the column had for a blank one or none. */
  function TypeOf(e: Entry, kept: Option<Value>): Option<Value> {
    match e.divisionType
    case Some(t) => if Blank(t) then kept else Some(Text(t))
    case None => kept
  }

  const NAMES := {"ref", "source", "source_format", "title", "division_type", "attrs", "short_description"}

  lemma NamesDiffer()
    ensures "ref" != "source" && "ref" != "source_format" && "ref" != "title" && "ref" != "division_type"
    ensures "ref" != "attrs" && "ref" != "short_description" && "source" != "source_format" && "source" != "title"
    ensures "source" != "division_type" && "source" != "attrs" && "source" != "short_description"
    ensures "source_format" != "title" && "source_format" != "division_type" && "source_format" != "attrs"
    ensures "source_format" != "short_description" && "title" != "division_type" && "title" != "attrs"
    ensures "title" != "short_description" && "division_type" != "attrs" && "division_type" != "short_description"
    ensures "attrs" != "short_description"
  {
    assert "title"[0] != "attrs"[0] && "source_format"[0] != "division_type"[0];
  }

  /** The columns every kind has. */
  predicate SaysBody(kind: Kind, e: Entry, before: Columns, after: Columns) {
    && ColumnIn(after, "ref") == TextOrEmpty(e.ref)
    && ColumnIn(after, "source") == TextOrEmpty(e.source)
    && ColumnIn(after, "source_format") ==
         (if kind == Division || kind == Snippet then FormatOf(e) else ColumnIn(before, "source_format"))
    && ColumnIn(after, "title") ==
         (if kind == Asset then TextOrEmpty(e.title) else TextOrKept(e.title, ColumnIn(before, "title")))
  }

  /** The columns of some kinds, and those no entry has anything to say about. */
  predicate SaysRest(kind: Kind, e: Entry, before: Columns, after: Columns) {
    && ColumnIn(after, "division_type") ==
         (if kind == Division then TypeOf(e, ColumnIn(before, "division_type")) else ColumnIn(before, "division_type"))
    && ColumnIn(after, "attrs") ==
         (if kind == Division || kind == Exercise then TableOrKept(e.attrs, ColumnIn(before, "attrs"))
          else ColumnIn(before, "attrs"))
    && ColumnIn(after, "short_description") ==
         (if kind == Asset then TextOrEmpty(e.shortDescription) else ColumnIn(before, "short_description"))
    && forall name :: name in before.Keys + after.Keys && name !in NAMES ==>
         ColumnIn(after, name) == ColumnIn(before, name)
  }

  /** What a row built under an id of the editor's starts from, as the schema has it. */
  function Defaults(kind: Kind): Columns {
    map["source_format" := Text("pretext"), "attrs" := Table(map[])]
    + match kind { case Division => map["division_type" := Text("section")] case _ => map[] }
  }

  lemma {:induction false} ItemIsEntry(items: seq<Item>, id: Id, e: Entry)
    requires DistinctItems(items) && Item(id, e) in items
    ensures EntryIn(items, id) == Some(e)
  {
    var front, x := items[..|items| - 1], items[|items| - 1];
    assert items == front + [x];
    if x != Item(id, e) {
      assert Item(id, e) in front;
      var i :| 0 <= i < |front| && front[i] == Item(id, e);
      assert items[i] == Item(id, e);
      ItemIsEntry(front, id, e);
    }
  }

  lemma ItemIsEntryOf(doc: Doc, kind: Kind, id: Id, e: Entry)
    requires Coherent(doc) && Item(id, e) in doc.Items(kind)
    ensures EntryOf(doc, kind, id) == Some(e)
  {
    ItemIsEntry(doc.Items(kind), id, e);
  }

  lemma ColumnsSay(kind: Kind, e: Entry, before: Columns)
    ensures SaysBody(kind, e, before, before + ColumnsFor(kind, e))
    ensures SaysRest(kind, e, before, before + ColumnsFor(kind, e))
  {
    match kind {
      case Division => DivisionColumnsSay(e, before);
      case Snippet => SnippetColumnsSay(e, before);
      case Exercise => ExerciseColumnsSay(e, before);
      case Asset => AssetColumnsSay(e, before);
    }
  }

  /** A division's columns are a snippet's, its type and its attributes. */
  lemma DivisionColumnsSay(e: Entry, before: Columns)
    ensures SaysBody(Division, e, before, before + ColumnsFor(Division, e))
    ensures SaysRest(Division, e, before, before + ColumnsFor(Division, e))
  {
    hide ColumnsFor, DivisionsOwn, SaysBody, SaysRest, Blank;
    DivisionIsSnippetAndOwn(e, before);
    SnippetColumnsSay(e, before);
    DivisionsOwnSays(e, before + ColumnsFor(Snippet, e));
    OwnAfterSnippet(e, before, before + ColumnsFor(Snippet, e), before + ColumnsFor(Division, e));
  }

  lemma DivisionIsSnippetAndOwn(e: Entry, before: Columns)
    ensures before + ColumnsFor(Division, e) == before + ColumnsFor(Snippet, e) + DivisionsOwn(e)
  {
    hide Body, Format, Carried, CarriedTable, Present;
  }

  lemma OwnAfterSnippet(e: Entry, before: Columns, middle: Columns, after: Columns)
    requires SaysBody(Snippet, e, before, middle) && SaysRest(Snippet, e, before, middle)
    requires SaysOwn(e, middle, after)
    ensures SaysBody(Division, e, before, after) && SaysRest(Division, e, before, after)
  {
    hide TextOrEmpty, TextOrKept, TableOrKept, FormatOf, TypeOf;
    NamesDiffer();
  }

  function DivisionsOwn(e: Entry): Columns {
    Carried("division_type", if Present(e.divisionType) then e.divisionType else None) + CarriedTable(e.attrs)
  }

  predicate SaysOwn(e: Entry, before: Columns, after: Columns) {
    && ColumnIn(after, "division_type") == TypeOf(e, ColumnIn(before, "division_type"))
    && ColumnIn(after, "attrs") == TableOrKept(e.attrs, ColumnIn(before, "attrs"))
    && before.Keys <= after.Keys <= before.Keys + {"division_type", "attrs"}
    && forall name :: name in NAMES - {"division_type", "attrs"} + after.Keys && name !in {"division_type", "attrs"}
                      ==> ColumnIn(after, name) == ColumnIn(before, name)
  }

  lemma DivisionsOwnSays(e: Entry, before: Columns)
    ensures SaysOwn(e, before, before + DivisionsOwn(e))
  {
    hide Blank;
    NamesDiffer();
  }

  lemma SnippetColumnsSay(e: Entry, before: Columns)
    ensures SaysBody(Snippet, e, before, before + ColumnsFor(Snippet, e))
    ensures SaysRest(Snippet, e, before, before + ColumnsFor(Snippet, e))
  {
    hide Blank;
    NamesDiffer();
  }

  lemma ExerciseColumnsSay(e: Entry, before: Columns)
    ensures SaysBody(Exercise, e, before, before + ColumnsFor(Exercise, e))
    ensures SaysRest(Exercise, e, before, before + ColumnsFor(Exercise, e))
  {
    hide Blank;
    NamesDiffer();
  }

  lemma AssetColumnsSay(e: Entry, before: Columns)
    ensures SaysBody(Asset, e, before, before + ColumnsFor(Asset, e))
    ensures SaysRest(Asset, e, before, before + ColumnsFor(Asset, e))
  {
    hide Blank;
    NamesDiffer();
  }

  /**
   After a projection, an entry that is not removed stands in a row of its kind -- the one it had,
   or a new one unless it is an asset's -- and every column of that row says what the entry says,
   what the fallback for a field it does not carry is, or what the row or the schema had.
   */
  lemma RowSaysWhatTheEntrySays(s: Saved, doc: Doc, kind: Kind, id: Id, e: Entry)
    requires Coherent(doc) && Item(id, e) in doc.Items(kind) && Tombstone(id, kind) !in doc.deleted
    requires if id in s.rows then s.rows[id].kind == kind else kind != Asset
    ensures var after, before := Projected(s, doc).rows, if id in s.rows then s.rows[id].columns else Defaults(kind);
      && id in after && after[id].kind == kind
      && after[id].isRoot == (id in s.rows && s.rows[id].isRoot)
      && SaysBody(kind, e, before, after[id].columns) && SaysRest(kind, e, before, after[id].columns)
  {
    ItemIsEntryOf(doc, kind, id, e);
    var before := if id in s.rows then s.rows[id].columns else Defaults(kind);
    hide Coherent, ColumnsFor, EntryOf, SaysBody, SaysRest;
    ColumnsSay(kind, e, before);
    RowIsChanged(s, doc, kind, id, e);
  }

  lemma RowIsChanged(s: Saved, doc: Doc, kind: Kind, id: Id, e: Entry)
    requires Coherent(doc) && EntryOf(doc, kind, id) == Some(e) && Tombstone(id, kind) !in doc.deleted
    requires if id in s.rows then s.rows[id].kind == kind else kind != Asset
    ensures var row := if id in s.rows then s.rows[id] else Row(kind, false, Defaults(kind));
      RowIn(Projected(s, doc).rows, id) == Some(row.(columns := row.columns + ColumnsFor(kind, e)))
  {
    hide Coherent, ColumnsFor, EntryOf, ProjectedRows;
    RowsAreProjected(s.rows, doc, id);
    if id !in s.rows {
      NamedKindHasEntry(doc, kind, id);
      EntriesAreOfOneKind(doc, kind, NamedAs(doc, id), id);
    }
  }

  /** A row whose removal the document records is gone, unless it is the root, which stays as it is. */
  lemma RemovedRowsAreGone(s: Saved, doc: Doc, kind: Kind, id: Id)
    requires Coherent(doc) && RootsAreDivisions(s.rows) && Tombstone(id, kind) in doc.deleted
    requires id in s.rows && s.rows[id].kind == kind
    ensures var after := Projected(s, doc).rows;
      if s.rows[id].isRoot then id in after && after[id] == s.rows[id] else id !in after
  {
    RowsAreProjected(s.rows, doc, id);
    hide Coherent, ColumnsFor, EntryOf, ProjectedRows;
  }

  /** A row the document says nothing about stays as it is, and none appears that it does not name. */
  lemma UnnamedRowsStay(s: Saved, doc: Doc, id: Id)
    requires forall k: Kind, x :: x in doc.Items(k) ==> x.id != id
    requires forall x :: x in doc.deleted ==> x.id != id
    ensures RowIn(Projected(s, doc).rows, id) == RowIn(s.rows, id)
  {
    RowsAreProjected(s.rows, doc, id);
    forall k: Kind ensures EntryOf(doc, k, id) == None && !Tombstoned(doc, k, id) {
      EntryNamesItem(doc.Items(k), id);
    }
    hide ColumnsFor, EntryOf, ProjectedRows, Tombstoned;
  }

  /** The project's own columns: a missing title or docinfo is blanked, a missing setting kept. */
  lemma ProjectSaysWhatTheDocumentSays(s: Saved, doc: Doc)
    ensures var after := Projected(s, doc);
      && (doc.meta.title.Some? ==> after.title == doc.meta.title.value)
      && (doc.meta.title.None? ==> after.title == "")
      && (doc.meta.docinfo.Some? ==> after.docinfo == doc.meta.docinfo.value)
      && (doc.meta.docinfo.None? ==> after.docinfo == "")
      && (doc.meta.common.Some? ==> after.common == doc.meta.common.value)
      && (doc.meta.common.None? ==> after.common == s.common)
      && (doc.meta.language.Some? ==> after.language == doc.meta.language.value)
      && (doc.meta.language.None? ==> after.language == s.language)
  {
    hide ProjectedRows;
  }
}
