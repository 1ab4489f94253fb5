/**
 The laws a projection obeys, over every project, every document and every run of projections.
 */
module ProjectionLaws {
  import opened Options
  import opened Projection
  import opened ProjectionRun

  function RootsOf(rows: Rows): set<Id> { set i | i in rows && rows[i].isRoot }

  /** The root is never moved, made or removed, no asset is made, and no row changes its kind. */
  lemma RootsAndAssetsAreLeftAlone(rows: Rows, doc: Doc)
    requires RootsAreDivisions(rows)
    ensures var after := ProjectedRows(rows, doc);
      && RootsOf(after) == RootsOf(rows) && RootsAreDivisions(after)
      && (forall i :: i in after && after[i].kind.Asset? ==> i in rows && rows[i].kind.Asset?)
      && (forall i :: i in after && i in rows ==> after[i].kind == rows[i].kind)
  {
    var after := ProjectedRows(rows, doc);
    forall i ensures i in after && (after[i].isRoot || after[i].kind.Asset?) ==> i in rows
      ensures i in after && i in rows ==> after[i].kind == rows[i].kind && after[i].isRoot == rows[i].isRoot
      ensures i in rows && rows[i].isRoot ==> i in after
    {
      RowsAreProjected(rows, doc, i);
      RowKeepsItsKind(rows, doc, i);
      hide ProjectedRows, RowProjected;
    }
  }

  lemma RowKeepsItsKind(rows: Rows, doc: Doc, i: Id)
    ensures var r := RowProjected(rows, doc, i);
      && (r.Some? && i in rows ==> r.value.kind == rows[i].kind && r.value.isRoot == rows[i].isRoot)
      && (r.Some? && i !in rows ==> !r.value.isRoot && !r.value.kind.Asset?)
      && (i in rows && rows[i].isRoot ==> r.Some?)
  {
    hide EntryOf, Tombstoned, ColumnsFor, NamedAs;
  }

  // ---- Later documents ----

  /** `later` has every optional field `earlier` had. */
  predicate CarriesFields(earlier: Entry, later: Entry) {
    && (earlier.title.Some? ==> later.title.Some?)
    && (Present(earlier.divisionType) ==> Present(later.divisionType))
    && (earlier.attrs.Some? ==> later.attrs.Some?)
  }

  /**
   `later` is a document `earlier` could have become: what was removed stays removed, and an entry
   that was not is still there, with the fields it had, or has been removed since.
   */
  ghost predicate Extends(later: Doc, earlier: Doc) {
    && (forall t :: t in earlier.deleted ==> t in later.deleted)
    && (forall k: Kind, i :: EntryOf(earlier, k, i).Some? && !Tombstoned(later, k, i) ==>
          EntryOf(later, k, i).Some? && CarriesFields(EntryOf(earlier, k, i).value, EntryOf(later, k, i).value))
    && (earlier.meta.common.Some? ==> later.meta.common.Some?)
    && (earlier.meta.language.Some? ==> later.meta.language.Some?)
  }

  /** The root was removed in `later`, which cannot be obeyed, after `earlier` had written to it. */
  predicate WritesToRemovedRoot(rows: Rows, earlier: Doc, later: Doc, i: Id) {
    && i in rows && rows[i].isRoot
    && Tombstoned(later, Division, i) && !Tombstoned(earlier, Division, i)
    && EntryOf(earlier, Division, i).Some?
    && Changed(rows[i], Division, EntryOf(earlier, Division, i).value) != rows[i]
  }

  lemma LaterColumnsCover(k: Kind, earlier: Entry, later: Entry, before: Columns)
    requires CarriesFields(earlier, later)
    ensures before + ColumnsFor(k, earlier) + ColumnsFor(k, later) == before + ColumnsFor(k, later)
  {
    LaterHasTheColumns(k, earlier, later);
    hide ColumnsFor, CarriesFields;
    LaterOverrides(before, ColumnsFor(k, earlier), ColumnsFor(k, later));
  }

  lemma LaterOverrides(before: Columns, earlier: Columns, later: Columns)
    requires earlier.Keys <= later.Keys
    ensures before + earlier + later == before + later
  {
  }

  lemma LaterHasTheColumns(k: Kind, earlier: Entry, later: Entry)
    requires CarriesFields(earlier, later)
    ensures ColumnsFor(k, earlier).Keys <= ColumnsFor(k, later).Keys
  {
    assert Body(earlier).Keys == Body(later).Keys && Format(earlier).Keys == Format(later).Keys;
    assert Carried("title", earlier.title).Keys <= Carried("title", later.title).Keys;
    assert CarriedTable(earlier.attrs).Keys <= CarriedTable(later.attrs).Keys;
    hide Body, Format, CarriedTable, Present;
  }

  lemma ChangedTwice(k: Kind, r: Row, earlier: Entry, later: Entry)
    requires CarriesFields(earlier, later)
    ensures Changed(Changed(r, k, earlier), k, later) == Changed(r, k, later)
  {
    LaterColumnsCover(k, earlier, later, r.columns);
  }

  /** One kind, one id: the earlier projection shows only in a removed root. */
  lemma RowAfterBoth(k: Kind, row: Option<Row>, e1: Option<Entry>, gone1: bool, e2: Option<Entry>, gone2: bool)
    requires gone1 ==> gone2
    requires e1.Some? && !gone2 ==> e2.Some? && CarriesFields(e1.value, e2.value)
    ensures var both, once := RowAfter(k, RowAfter(k, row, e1, gone1), e2, gone2), RowAfter(k, row, e2, gone2);
      both == once <==>
        !(row.Some? && row.value.isRoot && gone2 && !gone1 && e1.Some? && Changed(row.value, k, e1.value) != row.value)
  {
    if e1.Some? && !gone2 {
      ChangedTwice(k, if row.Some? then row.value else Initial(k), e1.value, e2.value);
    }
    hide ColumnsFor, Initial, CarriesFields;
    assert !Initial(k).isRoot by { InitialIsNoRoot(k); }
  }

  lemma InitialIsNoRoot(k: Kind)
    ensures !Initial(k).isRoot
  {
  }

  lemma TombstonesAreOfOneKind(doc: Doc, k: Kind, l: Kind, i: Id)
    requires Coherent(doc) && Tombstoned(doc, k, i) && EntryOf(doc, l, i).Some?
    ensures k == l
  {
    EntryNamesItem(doc.Items(l), i);
    var x :| x in doc.Items(l) && x.id == i;
    assert Tombstone(i, k) in doc.deleted;
  }

  /** An id removed as one kind, and without a row, gets none as another. */
  lemma RemovedStaysAway(rows: Rows, doc: Doc, k: Kind, i: Id)
    requires Coherent(doc) && Tombstoned(doc, k, i) && i !in rows
    ensures RowProjected(rows, doc, i) == None
  {
    var l := NamedAs(doc, i);
    if EntryOf(doc, l, i).Some? { TombstonesAreOfOneKind(doc, k, l, i); }
  }

  /** An entry that was not removed is what the id is named as. */
  lemma NamedByItsEntry(doc: Doc, k: Kind, i: Id)
    requires Coherent(doc) && EntryOf(doc, k, i).Some?
    ensures NamedAs(doc, i) == k
  {
    NamedKindHasEntry(doc, k, i);
    EntriesAreOfOneKind(doc, k, NamedAs(doc, i), i);
  }

  lemma RowAbsorbed(rows: Rows, earlier: Doc, later: Doc, i: Id)
    requires Coherent(earlier) && Coherent(later) && Extends(later, earlier) && RootsAreDivisions(rows)
    ensures RowProjected(ProjectedRows(rows, earlier), later, i) == RowProjected(rows, later, i)
      <==> !WritesToRemovedRoot(rows, earlier, later, i)
  {
    var k := if i in rows then rows[i].kind else NamedAs(earlier, i);
    var between := ProjectedRows(rows, earlier);
    var e1, gone1 := EntryOf(earlier, k, i), Tombstoned(earlier, k, i);
    var e2, gone2 := EntryOf(later, k, i), Tombstoned(later, k, i);
    RowsAreProjected(rows, earlier, i);
    RowKeepsItsKind(rows, earlier, i);
    assert gone1 ==> gone2;
    assert e1.Some? && !gone2 ==> e2.Some? && CarriesFields(e1.value, e2.value);
    RowAfterBoth(k, RowIn(rows, i), e1, gone1, e2, gone2);
    hide ProjectedRows, Coherent, Extends, EntryOf, Tombstoned, NamedAs, ColumnsFor, Initial, CarriesFields;
    if i in rows {
      if i !in between { RemovedStaysAway(between, later, k, i); }
    } else if i in between {
      if gone2 { RemovedStaysAway(rows, later, k, i); } else { NamedByItsEntry(later, k, i); }
    }
  }

  lemma RowAbsorbedIn(rows: Rows, earlier: Doc, later: Doc, i: Id)
    requires Coherent(earlier) && Coherent(later) && Extends(later, earlier) && RootsAreDivisions(rows)
    ensures RowIn(ProjectedRows(ProjectedRows(rows, earlier), later), i) == RowIn(ProjectedRows(rows, later), i)
      <==> !WritesToRemovedRoot(rows, earlier, later, i)
  {
    RowsAreProjected(ProjectedRows(rows, earlier), later, i);
    RowsAreProjected(rows, later, i);
    RowAbsorbed(rows, earlier, later, i);
    hide *;
  }

  lemma RowsAbsorbedExactlyWhen(rows: Rows, earlier: Doc, later: Doc)
    requires Coherent(earlier) && Coherent(later) && Extends(later, earlier) && RootsAreDivisions(rows)
    ensures ProjectedRows(ProjectedRows(rows, earlier), later) == ProjectedRows(rows, later)
      <==> forall i :: i in rows ==> !WritesToRemovedRoot(rows, earlier, later, i)
  {
    var both, once := ProjectedRows(ProjectedRows(rows, earlier), later), ProjectedRows(rows, later);
    assert forall i :: WritesToRemovedRoot(rows, earlier, later, i) ==> i in rows;
    hide Coherent, Extends, RootsAreDivisions, ProjectedRows, WritesToRemovedRoot;
    forall i ensures RowIn(both, i) == RowIn(once, i) <==> !WritesToRemovedRoot(rows, earlier, later, i) {
      RowAbsorbedIn(rows, earlier, later, i);
    }
    if forall i :: i in rows ==> !WritesToRemovedRoot(rows, earlier, later, i) {
      SameRows(both, once);
    }
  }

  /**
   Absorption. Projecting an earlier document first makes no difference to what a later one
   leaves behind, exactly when the later one has not removed a root the earlier one wrote to.
   */
  lemma EarlierProjectionIsAbsorbedExactlyWhen(s: Saved, earlier: Doc, later: Doc)
    requires Coherent(earlier) && Coherent(later) && Extends(later, earlier) && RootsAreDivisions(s.rows)
    ensures Projected(Projected(s, earlier), later) == Projected(s, later)
      <==> forall i :: i in s.rows ==> !WritesToRemovedRoot(s.rows, earlier, later, i)
  {
    RowsAbsorbedExactlyWhen(s.rows, earlier, later);
    hide Coherent, ProjectedRows, WritesToRemovedRoot;
  }

  /** Projecting a document a second time changes nothing, whatever it says about the root. */
  lemma ProjectingAgainChangesNothing(s: Saved, doc: Doc)
    requires Coherent(doc) && RootsAreDivisions(s.rows)
    ensures Projected(Projected(s, doc), doc) == Projected(s, doc)
  {
    EarlierProjectionIsAbsorbedExactlyWhen(s, doc, doc);
  }

  // ---- Runs ----

  /** One run of the projection: the document as it was then, and whether its save went through. */
  datatype Attempt = Attempt(doc: Doc, accepted: bool)

  function After(s: Saved, attempts: seq<Attempt>): Saved {
    if attempts == [] then s
    else
      var before, a := After(s, attempts[..|attempts| - 1]), attempts[|attempts| - 1];
      if a.accepted then Projected(before, a.doc) else before
  }

  /** What the accepted attempts among `attempts` make of a root's row, by its own entries alone. */
  function RootAfter(row: Row, i: Id, attempts: seq<Attempt>): Row {
    if attempts == [] then row
    else
      var before, a := RootAfter(row, i, attempts[..|attempts| - 1]), attempts[|attempts| - 1];
      var e := EntryOf(a.doc, Division, i);
      if a.accepted && e.Some? && !Tombstoned(a.doc, Division, i) then Changed(before, Division, e.value) else before
  }

  lemma {:induction false} RootsFollowTheirEntries(s: Saved, attempts: seq<Attempt>, i: Id)
    requires RootsAreDivisions(s.rows) && i in s.rows && s.rows[i].isRoot
    ensures RootsOf(After(s, attempts).rows) == RootsOf(s.rows) && RootsAreDivisions(After(s, attempts).rows)
    ensures RowIn(After(s, attempts).rows, i) == Some(RootAfter(s.rows[i], i, attempts))
  {
    if attempts != [] {
      var front, a := attempts[..|attempts| - 1], attempts[|attempts| - 1];
      var before := After(s, front);
      RootsFollowTheirEntries(s, front, i);
      if a.accepted {
        RootsAndAssetsAreLeftAlone(before.rows, a.doc);
        RowsAreProjected(before.rows, a.doc, i);
        assert i in RootsOf(before.rows) && before.rows[i].kind.Division?;
        hide ProjectedRows, EntryOf, Tombstoned, ColumnsFor, RootsOf, NamedAs;
      }
    }
  }

  lemma {:induction false} RootsStayOver(s: Saved, attempts: seq<Attempt>)
    requires RootsAreDivisions(s.rows)
    ensures RootsOf(After(s, attempts).rows) == RootsOf(s.rows) && RootsAreDivisions(After(s, attempts).rows)
  {
    if attempts != [] {
      var front, a := attempts[..|attempts| - 1], attempts[|attempts| - 1];
      RootsStayOver(s, front);
      hide Projected, RootsOf, RootsAreDivisions;
      if a.accepted { RootsStayProjected(After(s, front), a.doc); }
    }
  }

  lemma RootsStayProjected(s: Saved, doc: Doc)
    requires RootsAreDivisions(s.rows)
    ensures RootsOf(Projected(s, doc).rows) == RootsOf(s.rows) && RootsAreDivisions(Projected(s, doc).rows)
  {
    RootsAndAssetsAreLeftAlone(s.rows, doc);
  }

  predicate RemovedRoot(rows: Rows, last: Doc, i: Id) {
    i in rows && rows[i].isRoot && Tombstoned(last, Division, i)
  }

  lemma SameRootsRemoved(rows: Rows, later: Rows, last: Doc, i: Id)
    requires RootsOf(later) == RootsOf(rows)
    ensures RemovedRoot(later, last, i) <==> RemovedRoot(rows, last, i)
  {
    assert i in RootsOf(later) <==> i in RootsOf(rows);
  }

  /** Anything but a removed root ends up as the last projection alone would leave it. */
  lemma {:induction false} RowAbsorbedOver(s: Saved, attempts: seq<Attempt>, last: Doc, i: Id)
    requires RootsAreDivisions(s.rows) && Coherent(last) && !RemovedRoot(s.rows, last, i)
    requires forall a :: a in attempts ==> Coherent(a.doc) && Extends(last, a.doc)
    ensures RowProjected(After(s, attempts).rows, last, i) == RowProjected(s.rows, last, i)
  {
    if attempts != [] {
      var front, a := attempts[..|attempts| - 1], attempts[|attempts| - 1];
      var before := After(s, front);
      RowAbsorbedOver(s, front, last, i);
      if a.accepted {
        assert After(s, attempts).rows == ProjectedRows(before.rows, a.doc);
        RootsStayOver(s, front);
        SameRootsRemoved(s.rows, before.rows, last, i);
        assert !WritesToRemovedRoot(before.rows, a.doc, last, i);
        hide RowProjected, ProjectedRows, Extends, Coherent, RootsAreDivisions, RemovedRoot, WritesToRemovedRoot,
          After;
        RowAbsorbed(before.rows, a.doc, last, i);
      }
    }
  }

  lemma {:induction false} MetaAbsorbedOver(s: Saved, attempts: seq<Attempt>, last: Doc)
    requires forall a :: a in attempts ==> Extends(last, a.doc)
    ensures var t := After(s, attempts);
      && last.meta.common.GetOr(t.common) == last.meta.common.GetOr(s.common)
      && last.meta.language.GetOr(t.language) == last.meta.language.GetOr(s.language)
  {
    if attempts != [] {
      var front, a := attempts[..|attempts| - 1], attempts[|attempts| - 1];
      MetaAbsorbedOver(s, front, last);
      assert a in attempts && Extends(last, a.doc);
      hide ProjectedRows, EntryOf, Tombstoned;
    }
  }

  lemma RemovedRootStaysAsItIs(rows: Rows, last: Doc, i: Id)
    requires RootsAreDivisions(rows) && RemovedRoot(rows, last, i)
    ensures RowProjected(rows, last, i) == Some(rows[i])
  {
    hide EntryOf, Tombstoned, ColumnsFor;
  }

  lemma RowAfterRun(s: Saved, attempts: seq<Attempt>, last: Doc, i: Id)
    requires RootsAreDivisions(s.rows) && Coherent(last)
    requires forall a :: a in attempts ==> Coherent(a.doc) && Extends(last, a.doc)
    ensures RowIn(ProjectedRows(After(s, attempts).rows, last), i) == RowIn(ProjectedRows(s.rows, last), i)
      <==> (RemovedRoot(s.rows, last, i) ==> RootAfter(s.rows[i], i, attempts) == s.rows[i])
  {
    var t := After(s, attempts);
    RowsAreProjected(t.rows, last, i);
    RowsAreProjected(s.rows, last, i);
    if RemovedRoot(s.rows, last, i) {
      RootsFollowTheirEntries(s, attempts, i);
      SameRootsRemoved(s.rows, t.rows, last, i);
      RemovedRootStaysAsItIs(s.rows, last, i);
      RemovedRootStaysAsItIs(t.rows, last, i);
      hide RowProjected, ProjectedRows, RemovedRoot, RootAfter, After, Coherent, Extends;
    } else {
      RowAbsorbedOver(s, attempts, last, i);
    }
  }

  /**
   Whatever projections ran before, of whatever earlier states of the document, skipped, repeated
   or refused in any combination, the last one leaves the rows it would have left on its own:
   exactly if those that were accepted have left every root it removes as they found it.
   */
  lemma OnlyTheLastProjectionMatters(s: Saved, attempts: seq<Attempt>, last: Doc)
    requires RootsAreDivisions(s.rows) && Coherent(last)
    requires forall a :: a in attempts ==> Coherent(a.doc) && Extends(last, a.doc)
    ensures Projected(After(s, attempts), last) == Projected(s, last)
      <==> forall i :: i in s.rows && s.rows[i].isRoot && Tombstoned(last, Division, i) ==>
             RootAfter(s.rows[i], i, attempts) == s.rows[i]
  {
    var t := After(s, attempts);
    var both, once := ProjectedRows(t.rows, last), ProjectedRows(s.rows, last);
    MetaAbsorbedOver(s, attempts, last);
    assert Projected(t, last) == Projected(s, last) <==> both == once;
    assert forall i :: RemovedRoot(s.rows, last, i) <==>
      i in s.rows && s.rows[i].isRoot && Tombstoned(last, Division, i);
    hide Projected, ProjectedRows, After, RootAfter, Coherent, Extends, RemovedRoot, RootsAreDivisions, Tombstoned;
    forall i ensures RowIn(both, i) == RowIn(once, i)
        <==> (RemovedRoot(s.rows, last, i) ==> RootAfter(s.rows[i], i, attempts) == s.rows[i])
    {
      RowAfterRun(s, attempts, last, i);
    }
    if forall i :: RemovedRoot(s.rows, last, i) ==> RootAfter(s.rows[i], i, attempts) == s.rows[i] {
      SameRows(both, once);
    }
  }

  /**
   Without that condition it can matter: a document that holds the root with a new source, and a
   later one in which the root has been removed. Projecting both leaves the new source, projecting
   the later one alone leaves the old.
   */
  lemma RemovedRootKeepsWhatWasWritten(s: Saved, root: Id, e: Entry, meta: Meta)
    requires root in s.rows && s.rows[root].isRoot && RootsAreDivisions(s.rows)
    requires Changed(s.rows[root], Division, e) != s.rows[root]
    ensures var earlier, later := Doc(meta, [Item(root, e)], [], [], [], []),
      Doc(meta, [], [], [], [], [Tombstone(root, Division)]);
      && Coherent(earlier) && Coherent(later) && Extends(later, earlier)
      && Projected(Projected(s, earlier), later) != Projected(s, later)
  {
    var earlier, later := Doc(meta, [Item(root, e)], [], [], [], []),
      Doc(meta, [], [], [], [], [Tombstone(root, Division)]);
    RemovedRootDocuments(earlier, later, root, e);
    assert EntryIn([Item(root, e)], root) == Some(e);
    assert WritesToRemovedRoot(s.rows, earlier, later, root);
    hide Coherent, Extends, RootsAreDivisions, Projected, WritesToRemovedRoot;
    EarlierProjectionIsAbsorbedExactlyWhen(s, earlier, later);
  }

  lemma RemovedRootDocuments(earlier: Doc, later: Doc, root: Id, e: Entry)
    requires earlier.meta == later.meta
    requires earlier == Doc(earlier.meta, [Item(root, e)], [], [], [], [])
    requires later == Doc(later.meta, [], [], [], [], [Tombstone(root, Division)])
    ensures Coherent(earlier) && Coherent(later) && Extends(later, earlier)
  {
    assert forall k: Kind :: later.Items(k) == [];
    assert forall k: Kind :: k != Division ==> earlier.Items(k) == [];
    assert earlier.Items(Division) == [Item(root, e)];
    assert Coherent(earlier) && Coherent(later);
    hide Coherent;
    forall k: Kind, i | EntryOf(earlier, k, i).Some? ensures Tombstoned(later, k, i) {
      EntryNamesItem(earlier.Items(k), i);
      assert k == Division && IdsOf([Item(root, e)]) == {root};
    }
  }
}
