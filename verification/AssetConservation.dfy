/**
 What the asset migration conserves: one asset for every membership and one for every orphan, each
 with the fields and the file it came from, and every orphan referred to by its owner's one
 holding project.
 */
module AssetConservation {
  import opened Options
  import opened OutputNames
  import opened AssetMigration

  /** An asset there has to be: what it is made from, where it goes and under which ref. */
  datatype Due = Due(la: LibraryAsset, project: ProjectId, ref: string)

  function DueFor(la: LibraryAsset, ms: seq<Membership>, holding: map<UserId, nat>): (r: seq<Due>)
    ensures |r| == if |ms| == 0 then 1 else |ms|
  {
    if ms == [] then [Due(la, Holding(if la.user in holding then holding[la.user] else 0), OrphanRef(la.id))]
    else DueExtras(la, ms)
  }

  function Dues(las: seq<LibraryAsset>, memberships: seq<Membership>, holding: map<UserId, nat>): seq<Due> {
    if las == [] then []
    else
      var la := las[|las| - 1];
      Dues(las[..|las| - 1], memberships, holding) + DueFor(la, MembershipsOf(memberships, la.id), holding)
  }

  predicate DistinctIds(las: seq<LibraryAsset>) {
    forall i, j :: 0 <= i < j < |las| ==> las[i].id != las[j].id
  }

  // ---- Every due asset is there ----

  /** `a` is the asset `d` asks for, with the file its library asset had. */
  predicate Meets(a: Asset, files: map<Record, Blob>, d: Due, original: map<Record, Blob>) {
    && a.project == d.project && a.ref == d.ref && a.fields == d.la.fields
    && BlobOf(files, AssetFile(a.id)) == BlobOf(original, LibraryFile(d.la.id))
    && (a.id.Same? ==> a.id.library == d.la.id)
  }

  /** The assets are exactly the due ones, in order, under ids of their own. */
  ghost predicate Carried(original: map<Record, Blob>, s: State, dues: seq<Due>) {
    && |s.assets| == |dues|
    && (forall i :: 0 <= i < |dues| ==> Meets(s.assets[i], s.files, dues[i], original))
    && (forall i, j :: 0 <= i < j < |dues| ==> s.assets[i].id != s.assets[j].id)
    && (forall i :: 0 <= i < |dues| && s.assets[i].id.New? ==> s.assets[i].id.index < s.drawn)
    && (forall r :: r in s.files && r.AssetFile? ==> exists i :: 0 <= i < |dues| && s.assets[i].id == r.asset)
  }

  ghost predicate SameAssetFiles(s: State, t: State, id: AssetId) {
    forall r: Record :: r.AssetFile? && r.asset != id ==> BlobOf(t.files, r) == BlobOf(s.files, r)
  }

  lemma OneMoreIsCarried(original: map<Record, Blob>, s: State, t: State, dues: seq<Due>, d: Due, a: Asset)
    requires Carried(original, s, dues)
    requires forall i :: 0 <= i < |dues| ==> s.assets[i].id != a.id
    requires t.assets == s.assets + [a] && t.drawn >= s.drawn && SameAssetFiles(s, t, a.id)
    requires Meets(a, t.files, d, original) && (a.id.New? ==> a.id.index < t.drawn)
    ensures Carried(original, t, dues + [d])
  {
    var more := dues + [d];
    assert t.assets[|dues|] == a && more[|dues|] == d;
    forall i | 0 <= i < |more| ensures Meets(t.assets[i], t.files, more[i], original) {
      if i < |dues| { assert Meets(s.assets[i], s.files, dues[i], original); }
    }
    forall r | r in t.files && r.AssetFile? ensures exists i :: 0 <= i < |more| && t.assets[i].id == r.asset {
      if r.asset != a.id {
        assert BlobOf(t.files, r) == BlobOf(s.files, r);
        var i :| 0 <= i < |dues| && s.assets[i].id == r.asset;
        assert t.assets[i].id == r.asset;
      }
    }
  }

  predicate NotDue(dues: seq<Due>, id: Uuid) { forall i :: 0 <= i < |dues| ==> dues[i].la.id != id }

  /** The asset that keeps the library asset's id, and takes over its file. */
  lemma PrimaryIsCarried(original: map<Record, Blob>, s: State, dues: seq<Due>, d: Due)
    requires Carried(original, s, dues) && NotDue(dues, d.la.id)
    requires BlobOf(s.files, LibraryFile(d.la.id)) == BlobOf(original, LibraryFile(d.la.id))
    ensures Carried(original, FileMoved(WithAsset(s, Asset(Same(d.la.id), d.project, d.ref, d.la.fields)), d.la.id),
      dues + [d])
  {
    var a := Asset(Same(d.la.id), d.project, d.ref, d.la.fields);
    var t := FileMoved(WithAsset(s, a), d.la.id);
    assert forall i :: 0 <= i < |dues| ==> Meets(s.assets[i], s.files, dues[i], original);
    assert AssetFile(a.id) !in s.files;
    assert SameAssetFiles(s, t, a.id);
    OneMoreIsCarried(original, s, t, dues, d, a);
  }

  lemma ExtraIsCarried(original: map<Record, Blob>, s: State, dues: seq<Due>, la: LibraryAsset, m: Membership)
    requires Carried(original, s, dues)
    ensures var t := ExtraMigrated(s, la, m, BlobOf(original, LibraryFile(la.id)));
      && Carried(original, t, dues + [Due(la, m.project, m.ref)])
      && t.holding == s.holding && t.owners == s.owners && t.roots == s.roots
      && forall r: Record :: r.LibraryFile? ==> BlobOf(t.files, r) == BlobOf(s.files, r)
  {
    var t := ExtraMigrated(s, la, m, BlobOf(original, LibraryFile(la.id)));
    var a, d := Asset(New(s.drawn), m.project, m.ref, la.fields), Due(la, m.project, m.ref);
    assert AssetFile(a.id) !in s.files;
    assert SameAssetFiles(s, t, a.id);
    assert t.assets == s.assets + [a] && Meets(a, t.files, d, original);
    hide ExtraMigrated, Meets, SameAssetFiles;
    OneMoreIsCarried(original, s, t, dues, d, a);
  }

  function DueExtras(la: LibraryAsset, ms: seq<Membership>): seq<Due> {
    seq(|ms|, k requires 0 <= k < |ms| => Due(la, ms[k].project, ms[k].ref))
  }

  lemma {:induction false} ExtrasAreCarried(original: map<Record, Blob>, s: State, dues: seq<Due>, la: LibraryAsset,
    extras: seq<Membership>)
    requires Carried(original, s, dues)
    ensures var t := ExtrasMigrated(s, la, extras, BlobOf(original, LibraryFile(la.id)));
      && Carried(original, t, dues + DueExtras(la, extras))
      && t.holding == s.holding && t.owners == s.owners && t.roots == s.roots
      && forall r: Record :: r.LibraryFile? ==> BlobOf(t.files, r) == BlobOf(s.files, r)
  {
    if extras == [] {
      assert dues + DueExtras(la, []) == dues;
    } else {
      var front, m := extras[..|extras| - 1], extras[|extras| - 1];
      assert dues + DueExtras(la, extras) == dues + DueExtras(la, front) + [Due(la, m.project, m.ref)];
      hide Carried, ExtraMigrated;
      ExtrasAreCarried(original, s, dues, la, front);
      ExtraIsCarried(original, ExtrasMigrated(s, la, front, BlobOf(original, LibraryFile(la.id))),
                     dues + DueExtras(la, front), la, m);
    }
  }

  /** The one library asset has no file any more, and no other has lost or gained one. */
  ghost predicate LibraryFileGone(before: map<Record, Blob>, after: map<Record, Blob>, id: Uuid) {
    && LibraryFile(id) !in after
    && forall r: Record :: r.LibraryFile? && r.library != id ==> BlobOf(after, r) == BlobOf(before, r)
  }

  // ---- Holding projects ----

  /** One holding project for each owner in the memo, and none besides. */
  predicate HoldingSound(s: State) {
    && |s.owners| == |s.roots|
    && (forall u :: u in s.holding ==> s.holding[u] < |s.owners| && s.owners[s.holding[u]] == u)
    && (forall i :: 0 <= i < |s.owners| ==> s.owners[i] in s.holding && s.holding[s.owners[i]] == i)
  }

  predicate Extends(h: map<UserId, nat>, later: map<UserId, nat>) {
    forall u :: u in h ==> u in later && later[u] == h[u]
  }

  lemma HoldingIsSound(s: State, user: UserId)
    requires HoldingSound(s)
    ensures var t := WithHolding(s, user);
      && HoldingSound(t) && Extends(s.holding, t.holding) && t.holding.Keys == s.holding.Keys + {user}
      && t.assets == s.assets && t.files == s.files && t.drawn == s.drawn
      && forall u :: u in t.holding ==>
           t.roots[t.holding[u]] == if u in s.holding then s.roots[s.holding[u]] else ROOT_SOURCE
  {
    hide ROOT_SOURCE;
  }

  /** What one library asset's turn does to everything but the text of the root sources. */
  lemma TurnCarries(original: map<Record, Blob>, s: State, dues: seq<Due>, la: LibraryAsset,
    memberships: seq<Membership>)
    requires Carried(original, s, dues) && HoldingSound(s)
    requires NotDue(dues, la.id)
    requires BlobOf(s.files, LibraryFile(la.id)) == BlobOf(original, LibraryFile(la.id))
    ensures var t, ms := OneMigrated(s, la, memberships), MembershipsOf(memberships, la.id);
      && Carried(original, t, dues + DueFor(la, ms, t.holding))
      && HoldingSound(t) && Extends(s.holding, t.holding)
      && t.holding.Keys == s.holding.Keys + (if ms == [] then {la.user} else {})
      && (ms != [] ==> t.holding == s.holding && t.roots == s.roots)
      && LibraryFileGone(s.files, t.files, la.id)
  {
    var ms := MembershipsOf(memberships, la.id);
    if ms == [] {
      OrphanTurnCarries(original, s, dues, la);
    } else {
      assert OneMigrated(s, la, memberships) == PlacedMigrated(s, la, ms);
      hide Carried, OneMigrated, PlacedMigrated, HoldingSound;
      PlacedTurnCarries(original, s, dues, la, ms);
    }
  }

  lemma PlacedTurnCarries(original: map<Record, Blob>, s: State, dues: seq<Due>, la: LibraryAsset, ms: seq<Membership>)
    requires ms != [] && Carried(original, s, dues)
    requires NotDue(dues, la.id)
    requires BlobOf(s.files, LibraryFile(la.id)) == BlobOf(original, LibraryFile(la.id))
    ensures var t := PlacedMigrated(s, la, ms);
      && Carried(original, t, dues + DueFor(la, ms, s.holding))
      && t.holding == s.holding && t.owners == s.owners && t.roots == s.roots
      && LibraryFileGone(s.files, t.files, la.id)
  {
    hide Carried, NotDue, BlobOf;
    var d := Due(la, ms[0].project, ms[0].ref);
    var a := Asset(Same(la.id), d.project, d.ref, la.fields);
    var s1 := FileMoved(WithAsset(s, a), la.id);
    PrimaryIsCarried(original, s, dues, d);
    assert dues + [d] + DueExtras(la, ms[1..]) == dues + DueFor(la, ms, s.holding);
    assert PlacedMigrated(s, la, ms) == ExtrasMigrated(s1, la, ms[1..], BlobOf(original, LibraryFile(la.id)));
    hide ExtrasMigrated, PlacedMigrated, FileMoved, WithAsset, DueExtras, DueFor;
    FileMovedAway(s, la.id, a);
    ExtrasAreCarried(original, s1, dues + [d], la, ms[1..]);
    StillGone(s.files, s1.files, PlacedMigrated(s, la, ms).files, la.id);
  }

  lemma StillGone(before: map<Record, Blob>, between: map<Record, Blob>, after: map<Record, Blob>, id: Uuid)
    requires LibraryFileGone(before, between, id)
    requires forall r: Record :: r.LibraryFile? ==> BlobOf(after, r) == BlobOf(between, r)
    ensures LibraryFileGone(before, after, id)
  {
    assert BlobOf(after, LibraryFile(id)) == BlobOf(between, LibraryFile(id)) == None;
  }

  lemma OrphanTurnCarries(original: map<Record, Blob>, s: State, dues: seq<Due>, la: LibraryAsset)
    requires Carried(original, s, dues) && HoldingSound(s)
    requires NotDue(dues, la.id)
    requires BlobOf(s.files, LibraryFile(la.id)) == BlobOf(original, LibraryFile(la.id))
    ensures var t := OrphanMigrated(s, la);
      && Carried(original, t, dues + DueFor(la, [], t.holding))
      && HoldingSound(t) && Extends(s.holding, t.holding) && t.holding.Keys == s.holding.Keys + {la.user}
      && LibraryFileGone(s.files, t.files, la.id)
  {
    hide Carried, HoldingSound, WithHolding, Extends, NotDue;
    var s1 := WithHolding(s, la.user);
    HoldingIsSound(s, la.user);
    var home := s1.holding[la.user];
    var d := Due(la, Holding(home), OrphanRef(la.id));
    CarriedWhateverIsHeld(original, s, s1, dues);
    PrimaryIsCarried(original, s1, dues, d);
    var s2 := FileMoved(WithAsset(s1, Asset(Same(la.id), d.project, d.ref, la.fields)), la.id);
    var t := Referenced(s2, home, d.ref);
    assert t == OrphanMigrated(s, la);
    FileMovedAway(s1, la.id, Asset(Same(la.id), d.project, d.ref, la.fields));
    ReferencingTouchesRootsOnly(s2, home, d.ref);
    CarriedWhateverIsHeld(original, s2, t, dues + [d]);
    SoundWhateverTheText(s1, t);
    assert DueFor(la, [], t.holding) == [d];
  }

  lemma CarriedWhateverIsHeld(original: map<Record, Blob>, s: State, t: State, dues: seq<Due>)
    requires Carried(original, s, dues) && t.assets == s.assets && t.files == s.files && t.drawn == s.drawn
    ensures Carried(original, t, dues)
  {
  }

  lemma FileMovedAway(s: State, id: Uuid, a: Asset)
    ensures var t := FileMoved(WithAsset(s, a), id);
      && LibraryFileGone(s.files, t.files, id)
      && t.holding == s.holding && t.owners == s.owners && t.roots == s.roots
  {
  }

  lemma ReferencingTouchesRootsOnly(s: State, index: nat, ref: string)
    ensures var t := Referenced(s, index, ref);
      && t.assets == s.assets && t.files == s.files && t.drawn == s.drawn
      && t.holding == s.holding && t.owners == s.owners && |t.roots| == |s.roots|
  {
    hide Sub;
  }

  lemma SoundWhateverTheText(s: State, t: State)
    requires HoldingSound(s) && t.holding == s.holding && t.owners == s.owners && |t.roots| == |s.roots|
    ensures HoldingSound(t)
  {
  }

  // ---- Root sources ----

  function Paragraphs(refs: seq<string>): string {
    if refs == [] then "" else Paragraphs(refs[..|refs| - 1]) + Paragraph(refs[|refs| - 1])
  }

  /** The root source of a holding project that refers to `refs`, in order. */
  function RootWith(refs: seq<string>): string { HEAD + Paragraphs(refs) + CLOSE + "\n" }

  /** The refs of one user's orphans. */
  function OrphanRefs(las: seq<LibraryAsset>, memberships: seq<Membership>, user: UserId): seq<string> {
    if las == [] then []
    else
      var la := las[|las| - 1];
      OrphanRefs(las[..|las| - 1], memberships, user)
      + if la.user == user && Orphaned(memberships, la) then [OrphanRef(la.id)] else []
  }

  predicate AllLegal(refs: seq<string>) { forall i :: 0 <= i < |refs| ==> Legal(refs[i]) }

  lemma LegalIsOpen(ref: string)
    requires Legal(ref)
    ensures '<' !in ref
  {
  }

  lemma {:induction false} RootWithIsOpen(refs: seq<string>)
    requires AllLegal(refs)
    ensures NothingCloses(HEAD + Paragraphs(refs))
  {
    hide NothingCloses, HEAD, Paragraph;
    assert refs != [] ==> Legal(refs[|refs| - 1]);
    if refs == [] {
      HeadIsOpen();
      assert HEAD + "" == HEAD;
    } else {
      var front, ref := refs[..|refs| - 1], refs[|refs| - 1];
      RootWithIsOpen(front);
      LegalIsOpen(ref);
      ParagraphIsOpen(ref);
      NothingClosesInBoth(HEAD + Paragraphs(front), Paragraph(ref));
      assert HEAD + Paragraphs(refs) == HEAD + Paragraphs(front) + Paragraph(ref);
    }
  }

  /** Appending a reference puts it last, just before the end of the document. */
  lemma AppendingAddsTheRef(refs: seq<string>, ref: string)
    requires AllLegal(refs)
    ensures Sub(RootWith(refs), CLOSE, Paragraph(ref) + CLOSE) == RootWith(refs + [ref])
  {
    RootWithIsOpen(refs);
    var before := HEAD + Paragraphs(refs);
    hide NothingCloses, HEAD, Paragraph;
    assert RootWith(refs) == before + CLOSE + "\n";
    SubReplacesAt(before, "\n", Paragraph(ref) + CLOSE, 0);
    assert (refs + [ref])[..|refs|] == refs;
    assert before + (Paragraph(ref) + CLOSE) + "\n" == HEAD + (Paragraphs(refs) + Paragraph(ref)) + CLOSE + "\n";
  }

  lemma {:induction false} OrphanRefsAreOpen(las: seq<LibraryAsset>, memberships: seq<Membership>, user: UserId)
    requires forall i :: 0 <= i < |las| ==> WellFormed(las[i].id)
    ensures AllLegal(OrphanRefs(las, memberships, user))
  {
    if las != [] {
      var front, la := OrphanRefs(las[..|las| - 1], memberships, user), las[|las| - 1];
      OrphanRefsAreOpen(las[..|las| - 1], memberships, user);
      OrphanRefsAreLegal(la.id);
      var refs := OrphanRefs(las, memberships, user);
      forall i | 0 <= i < |refs| ensures Legal(refs[i]) {
        assert refs[i] == if i < |front| then front[i] else OrphanRef(la.id);
      }
    }
  }

  /** A ref among a user's orphans comes from an orphan of that user. */
  lemma {:induction false} OrphanRefComesFrom(las: seq<LibraryAsset>, memberships: seq<Membership>, user: UserId,
    ref: string)
    ensures ref in OrphanRefs(las, memberships, user)
      <==> exists la :: la in las && la.user == user && Orphaned(memberships, la) && OrphanRef(la.id) == ref
  {
    if las != [] {
      var front, la := las[..|las| - 1], las[|las| - 1];
      OrphanRefComesFrom(front, memberships, user, ref);
      assert las == front + [la];
    }
  }

  lemma {:induction false} OrphanRefsAreDistinct(las: seq<LibraryAsset>, memberships: seq<Membership>, user: UserId)
    requires DistinctIds(las) && forall i :: 0 <= i < |las| ==> WellFormed(las[i].id)
    ensures var refs := OrphanRefs(las, memberships, user);
      forall i, j :: 0 <= i < j < |refs| ==> refs[i] != refs[j]
  {
    if las != [] {
      var front, la := las[..|las| - 1], las[|las| - 1];
      OrphanRefsAreDistinct(front, memberships, user);
      var ref := OrphanRef(la.id);
      OrphanRefComesFrom(front, memberships, user, ref);
      if ref in OrphanRefs(front, memberships, user) {
        var other :| other in front && OrphanRef(other.id) == ref;
        OrphanRefsDiffer(other.id, la.id);
      }
    }
  }

  /** Every holding project's source refers to its owner's orphans, each once and in order. */
  predicate RootsSound(s: State, las: seq<LibraryAsset>, memberships: seq<Membership>)
    requires HoldingSound(s)
  {
    forall u :: u in s.holding ==> s.roots[s.holding[u]] == RootWith(OrphanRefs(las, memberships, u))
  }

  /** The users who have a library asset in no project. */
  function OrphanOwners(las: seq<LibraryAsset>, memberships: seq<Membership>): set<UserId> {
    set la | la in las && Orphaned(memberships, la) :: la.user
  }

  lemma NoOrphansNoRefs(las: seq<LibraryAsset>, memberships: seq<Membership>, user: UserId)
    requires user !in OrphanOwners(las, memberships)
    ensures OrphanRefs(las, memberships, user) == []
  {
    var refs := OrphanRefs(las, memberships, user);
    if refs != [] {
      OrphanRefComesFrom(las, memberships, user, refs[0]);
    }
  }

  /** An orphan's turn adds its reference to its owner's root source and leaves the others alone. */
  lemma OrphanTurnWritesRoot(s: State, la: LibraryAsset, refs: seq<string>)
    requires HoldingSound(s) && AllLegal(refs)
    requires if la.user in s.holding then s.roots[s.holding[la.user]] == RootWith(refs) else refs == []
    ensures var t := OrphanMigrated(s, la);
      && la.user in t.holding && |t.roots| >= |s.roots| && t.holding[la.user] < |t.roots|
      && t.roots[t.holding[la.user]] == RootWith(refs + [OrphanRef(la.id)])
      && forall u :: u in s.holding && u != la.user ==>
           u in t.holding && t.holding[u] == s.holding[u] && t.roots[t.holding[u]] == s.roots[s.holding[u]]
  {
    var s1, t := WithHolding(s, la.user), OrphanMigrated(s, la);
    HoldingIsSound(s, la.user);
    var home, ref := s1.holding[la.user], OrphanRef(la.id);
    EmptyRoot();
    assert s1.roots[home] == RootWith(refs);
    AppendingAddsTheRef(refs, ref);
    assert t.holding == s1.holding && t.roots == s1.roots[home := Sub(s1.roots[home], CLOSE, Paragraph(ref) + CLOSE)];
  }

  lemma TurnKeepsRoots(s: State, las: seq<LibraryAsset>, memberships: seq<Membership>, la: LibraryAsset)
    requires HoldingSound(s) && RootsSound(s, las, memberships) && s.holding.Keys == OrphanOwners(las, memberships)
    requires forall i :: 0 <= i < |las| ==> WellFormed(las[i].id)
    requires Orphaned(memberships, la) && HoldingSound(OrphanMigrated(s, la))
    requires OrphanMigrated(s, la).holding.Keys == s.holding.Keys + {la.user}
    ensures RootsSound(OrphanMigrated(s, la), las + [la], memberships)
  {
    var t := OrphanMigrated(s, la);
    var refs := OrphanRefs(las, memberships, la.user);
    OrphanRefsAreOpen(las, memberships, la.user);
    if la.user !in s.holding { NoOrphansNoRefs(las, memberships, la.user); }
    hide OrphanMigrated, RootWith, OrphanRefs, OrphanOwners, OrphanRef, AllLegal, WellFormed;
    OrphanTurnWritesRoot(s, la, refs);
    forall u | u in t.holding ensures t.roots[t.holding[u]] == RootWith(OrphanRefs(las + [la], memberships, u)) {
      OrphanRefsGrow(las, memberships, u, la);
      if u != la.user { assert s.roots[s.holding[u]] == RootWith(OrphanRefs(las, memberships, u)); }
    }
  }

  lemma OrphanRefsGrow(las: seq<LibraryAsset>, memberships: seq<Membership>, user: UserId, la: LibraryAsset)
    ensures var refs := OrphanRefs(las, memberships, user);
      OrphanRefs(las + [la], memberships, user) ==
        if la.user == user && Orphaned(memberships, la) then refs + [OrphanRef(la.id)] else refs
  {
    assert (las + [la])[..|las|] == las;
    assert OrphanRefs(las, memberships, user) + [] == OrphanRefs(las, memberships, user);
  }

  lemma EmptyRoot()
    ensures RootWith([]) == ROOT_SOURCE
  {
    hide HEAD;
    assert HEAD + "" == HEAD;
  }

  lemma {:induction false} DuesAreOf(las: seq<LibraryAsset>, memberships: seq<Membership>, holding: map<UserId, nat>)
    ensures forall d :: d in Dues(las, memberships, holding) ==> d.la in las
  {
    if las != [] {
      DuesAreOf(las[..|las| - 1], memberships, holding);
    }
  }

  /** Holding projects made later do not change where an orphan went. */
  lemma {:induction false} DuesAreSettled(las: seq<LibraryAsset>, memberships: seq<Membership>, h: map<UserId, nat>,
    later: map<UserId, nat>)
    requires Extends(h, later) && OrphanOwners(las, memberships) <= h.Keys
    ensures Dues(las, memberships, later) == Dues(las, memberships, h)
  {
    if las != [] {
      var front, la := las[..|las| - 1], las[|las| - 1];
      assert las == front + [la];
      DuesAreSettled(front, memberships, h, later);
      if Orphaned(memberships, la) { assert la in las && la.user in OrphanOwners(las, memberships); }
    }
  }

  /** No file is left on a migrated library asset, and those of the others are as they were. */
  ghost predicate FilesConserved(original: map<Record, Blob>, files: map<Record, Blob>, las: seq<LibraryAsset>) {
    && (forall la :: la in las ==> LibraryFile(la.id) !in files)
    && (forall r: Record :: r.LibraryFile? && (forall la :: la in las ==> la.id != r.library) ==>
          BlobOf(files, r) == BlobOf(original, r))
  }

  /** What is true once the library assets `las` have had their turns. */
  ghost predicate Conserved(original: map<Record, Blob>, t: State, las: seq<LibraryAsset>,
    memberships: seq<Membership>) {
    && Carried(original, t, Dues(las, memberships, t.holding))
    && HoldingSound(t) && RootsSound(t, las, memberships)
    && t.holding.Keys == OrphanOwners(las, memberships)
    && FilesConserved(original, t.files, las)
  }

  /**
   Nothing is lost and nothing is made up. After the migration the assets are, one for one, the
   memberships and the orphans, under ids of their own, each with the fields and the file of the
   library asset behind it; no file is left on a migrated library asset and no other file was
   touched; each user with orphans, and nobody else, has exactly one holding project, and its
   source refers to each of those orphans.
   */
  lemma {:induction false} MigrationConserves(s: State, las: seq<LibraryAsset>, memberships: seq<Membership>)
    requires Before(s) && DistinctIds(las) && forall i :: 0 <= i < |las| ==> WellFormed(las[i].id)
    ensures Conserved(s.files, Migrated(s, las, memberships), las, memberships)
  {
    if las != [] {
      var front, la := las[..|las| - 1], las[|las| - 1];
      assert las == front + [la];
      var s1, t := Migrated(s, front, memberships), Migrated(s, las, memberships);
      MigrationConserves(s, front, memberships);
      TurnConserves(s.files, s1, front, la, memberships);
    }
  }

  lemma TurnConserves(original: map<Record, Blob>, s: State, front: seq<LibraryAsset>, la: LibraryAsset,
    memberships: seq<Membership>)
    requires Conserved(original, s, front, memberships)
    requires forall other :: other in front ==> other.id != la.id
    requires forall i :: 0 <= i < |front| ==> WellFormed(front[i].id)
    ensures Conserved(original, OneMigrated(s, la, memberships), front + [la], memberships)
  {
    hide OneMigrated, OrphanMigrated, Carried, HoldingSound, RootsSound, OrphanOwners, Dues, WellFormed, DueFor,
      FilesConserved, LibraryFileGone, Extends, BlobOf;
    var las, t, ms := front + [la], OneMigrated(s, la, memberships), MembershipsOf(memberships, la.id);
    var dues := Dues(front, memberships, s.holding);
    NotYetDue(original, s, front, la, memberships);
    DuesGrow(front, la, memberships, t.holding);
    OwnersSplit(front, la, memberships);
    TurnCarries(original, s, dues, la, memberships);
    DuesAreSettled(front, memberships, s.holding, t.holding);
    if ms == [] {
      OrphanTurn(s, la, memberships);
      TurnKeepsRoots(s, front, memberships, la);
    } else {
      OthersKeepRoots(s, t, front, memberships, la);
    }
    FilesAfterTurn(original, s.files, t.files, front, la);
  }

  lemma OrphanTurn(s: State, la: LibraryAsset, memberships: seq<Membership>)
    requires Orphaned(memberships, la)
    ensures OneMigrated(s, la, memberships) == OrphanMigrated(s, la)
  {
    hide OrphanMigrated;
  }

  lemma NotYetDue(original: map<Record, Blob>, s: State, front: seq<LibraryAsset>, la: LibraryAsset,
    memberships: seq<Membership>)
    requires Conserved(original, s, front, memberships)
    requires forall other :: other in front ==> other.id != la.id
    ensures BlobOf(s.files, LibraryFile(la.id)) == BlobOf(original, LibraryFile(la.id))
    ensures NotDue(Dues(front, memberships, s.holding), la.id)
  {
    DuesAreOf(front, memberships, s.holding);
    var dues := Dues(front, memberships, s.holding);
    hide Carried, HoldingSound, RootsSound, Dues, BlobOf;
    forall i | 0 <= i < |dues| ensures dues[i].la.id != la.id { assert dues[i] in dues; }
  }

  lemma DuesGrow(front: seq<LibraryAsset>, la: LibraryAsset, memberships: seq<Membership>, holding: map<UserId, nat>)
    ensures Dues(front + [la], memberships, holding)
         == Dues(front, memberships, holding) + DueFor(la, MembershipsOf(memberships, la.id), holding)
  {
    assert (front + [la])[..|front|] == front;
  }

  lemma OthersKeepRoots(s: State, t: State, front: seq<LibraryAsset>, memberships: seq<Membership>, la: LibraryAsset)
    requires HoldingSound(s) && RootsSound(s, front, memberships) && !Orphaned(memberships, la)
    requires HoldingSound(t) && t.holding == s.holding && t.roots == s.roots
    ensures RootsSound(t, front + [la], memberships)
  {
    hide RootWith, OrphanRefs;
    forall u | u in t.holding ensures t.roots[t.holding[u]] == RootWith(OrphanRefs(front + [la], memberships, u)) {
      OrphanRefsGrow(front, memberships, u, la);
    }
  }

  lemma FilesAfterTurn(original: map<Record, Blob>, before: map<Record, Blob>, after: map<Record, Blob>,
    front: seq<LibraryAsset>, la: LibraryAsset)
    requires FilesConserved(original, before, front) && LibraryFileGone(before, after, la.id)
    ensures FilesConserved(original, after, front + [la])
  {
    var las := front + [la];
    assert forall x :: x in las <==> x in front || x == la;
    forall x | x in las ensures LibraryFile(x.id) !in after {
      if x.id != la.id { assert BlobOf(after, LibraryFile(x.id)) == BlobOf(before, LibraryFile(x.id)) == None; }
    }
  }

  lemma OwnersSplit(front: seq<LibraryAsset>, la: LibraryAsset, memberships: seq<Membership>)
    ensures OrphanOwners(front + [la], memberships)
         == OrphanOwners(front, memberships) + (if Orphaned(memberships, la) then {la.user} else {})
  {
    var las := front + [la];
    assert forall x :: x in las <==> x in front || x == la;
    hide Orphaned;
  }

  /** How many assets that comes to: one for each membership, and one for each orphan. */
  function ExpectedCount(las: seq<LibraryAsset>, memberships: seq<Membership>): nat {
    if las == [] then 0
    else
      var n := |MembershipsOf(memberships, las[|las| - 1].id)|;
      ExpectedCount(las[..|las| - 1], memberships) + if n == 0 then 1 else n
  }

  lemma {:induction false} DuesCount(las: seq<LibraryAsset>, memberships: seq<Membership>, holding: map<UserId, nat>)
    ensures |Dues(las, memberships, holding)| == ExpectedCount(las, memberships)
  {
    if las != [] { DuesCount(las[..|las| - 1], memberships, holding); }
  }

  lemma {:induction false} DueExists(las: seq<LibraryAsset>, memberships: seq<Membership>, holding: map<UserId, nat>,
    m: Membership)
    requires m in memberships && exists la :: la in las && la.id == m.library
    ensures exists d ::
      d in Dues(las, memberships, holding) && d.la.id == m.library && d.project == m.project && d.ref == m.ref
  {
    var front, la := las[..|las| - 1], las[|las| - 1];
    assert las == front + [la];
    if la.id == m.library {
      var ms := MembershipsOf(memberships, la.id);
      assert m in ms;
      var k :| 0 <= k < |ms| && ms[k] == m;
      assert DueFor(la, ms, holding)[k] in Dues(las, memberships, holding);
    } else {
      DueExists(front, memberships, holding, m);
    }
  }

  /** The count, and a place for every membership: the two facts a reader of the tables can check. */
  lemma EveryMembershipHasItsAsset(s: State, las: seq<LibraryAsset>, memberships: seq<Membership>, m: Membership)
    requires Before(s) && DistinctIds(las) && forall i :: 0 <= i < |las| ==> WellFormed(las[i].id)
    requires m in memberships && exists la :: la in las && la.id == m.library
    ensures var t := Migrated(s, las, memberships);
      && |t.assets| == ExpectedCount(las, memberships)
      && exists a, la :: a in t.assets && la in las && la.id == m.library
           && a.project == m.project && a.ref == m.ref && a.fields == la.fields
           && BlobOf(t.files, AssetFile(a.id)) == BlobOf(s.files, LibraryFile(la.id))
  {
    var t := Migrated(s, las, memberships);
    MigrationConserves(s, las, memberships);
    var dues := Dues(las, memberships, t.holding);
    DuesCount(las, memberships, t.holding);
    DueExists(las, memberships, t.holding, m);
    DuesAreOf(las, memberships, t.holding);
    var d :| d in dues && d.la.id == m.library && d.project == m.project && d.ref == m.ref;
    var i :| 0 <= i < |dues| && dues[i] == d;
    assert Meets(t.assets[i], t.files, d, s.files);
    assert t.assets[i] in t.assets;
  }
}
