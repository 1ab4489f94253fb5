/**
 The migration that turns library assets, which any number of projects could share, into assets
 that belong to one project each. Every membership becomes an asset; a library asset in no
 project goes to a holding project made for its owner, whose source refers to it.

 Rows are in the order the migration reads them: library assets by id, memberships by creation.
 An id drawn at random is `New`, and so never one that exists; `files` maps the record a file is
 attached to (it can have one) to its blob.
 */
module AssetMigration {
  import opened Options
  import opened OutputNames

  type Uuid = string
  type UserId = nat
  type Blob = nat

  datatype Fields = Fields(
    kind: nat, source: string, shortDescription: string, description: string, title: string,
    createdAt: nat, updatedAt: nat)

  datatype ProjectId = Existing(number: nat) | Holding(index: nat)
  datatype AssetId = Same(library: Uuid) | New(index: nat)

  datatype LibraryAsset = LibraryAsset(id: Uuid, user: UserId, fields: Fields)
  datatype Membership = Membership(library: Uuid, project: ProjectId, ref: string)
  datatype Asset = Asset(id: AssetId, project: ProjectId, ref: string, fields: Fields)
  datatype Record = LibraryFile(library: Uuid) | AssetFile(asset: AssetId)

  /** `owners` and `roots` are the holding projects made so far and their root sources. */
  datatype State = State(
    assets: seq<Asset>,
    files: map<Record, Blob>,
    holding: map<UserId, nat>,
    owners: seq<UserId>,
    roots: seq<string>,
    drawn: nat)

  // ---- Text ----

  const OPENING := "<article xml:id=\"document\">\n"
  const TITLE := "  <title>Imported Assets</title>\n"
  const PROSE_1 := "    This project was created automatically "
  const PROSE_2 := "to hold image/authored assets\n"
  const PROSE_3 := "    that existed in your library but "
  const PROSE_4 := "weren't part of any project at the\n"
  const PROSE_5 := "    time PreTeXt.Plus merged its asset "
  const PROSE_6 := "models. Feel free to rename this\n"
  const PROSE_7 := "    project, move these assets' content "
  const PROSE_8 := "elsewhere, or delete it.\n"

  const ROOT_TEXT: seq<string> := [
    OPENING, TITLE, "  <p>\n",
    PROSE_1, PROSE_2, PROSE_3, PROSE_4, PROSE_5, PROSE_6, PROSE_7, PROSE_8,
    "  </p>\n"]

  const CLOSE := "</article>"

  function Joined(lines: seq<string>): string {
    if lines == [] then "" else Joined(lines[..|lines| - 1]) + lines[|lines| - 1]
  }

  const HEAD := Joined(ROOT_TEXT)

  /** `holding_project_root_source` */
  const ROOT_SOURCE := HEAD + CLOSE + "\n"

  function Paragraph(ref: string): string { "    <p><plus:image ref=\"" + ref + "\"/></p>\n" }

  predicate MatchesAt(s: string, pattern: string, i: nat) {
    i + |pattern| <= |s| && s[i..i + |pattern|] == pattern
  }

  /** `sub` with a plain pattern: the first occurrence replaced. */
  function SubFrom(s: string, pattern: string, replacement: string, i: nat): string
    decreases |s| - i
  {
    if MatchesAt(s, pattern, i) then s[..i] + replacement + s[i + |pattern|..]
    else if i < |s| then SubFrom(s, pattern, replacement, i + 1)
    else s
  }

  function Sub(s: string, pattern: string, replacement: string): string { SubFrom(s, pattern, replacement, 0) }

  /** No closing tag starting with an `a` begins in `s`, nor could one with text after it. */
  predicate NothingCloses(s: string) {
    forall i :: 0 <= i < |s| && s[i] == '<' ==> i + 2 < |s| && !(s[i + 1] == '/' && s[i + 2] == 'a')
  }

  lemma MatchStarts(s: string, i: nat)
    requires MatchesAt(s, CLOSE, i)
    ensures i + 2 < |s| && s[i] == '<' && s[i + 1] == '/' && s[i + 2] == 'a'
  {
    var m := s[i..i + |CLOSE|];
    assert m[0] == s[i] && m[1] == s[i + 1] && m[2] == s[i + 2];
  }

  lemma {:induction false} SubReplacesAt(before: string, after: string, replacement: string, i: nat)
    requires NothingCloses(before) && i <= |before|
    ensures SubFrom(before + CLOSE + after, CLOSE, replacement, i) == before + replacement + after
    decreases |before| - i
  {
    var s := before + CLOSE + after;
    if i == |before| {
      assert s[i..i + |CLOSE|] == CLOSE;
      assert s[..i] == before && s[i + |CLOSE|..] == after;
    } else {
      if MatchesAt(s, CLOSE, i) { MatchStarts(s, i); }
      assert s[i] == before[i] && (i + 2 < |before| ==> s[i + 1] == before[i + 1] && s[i + 2] == before[i + 2]);
      SubReplacesAt(before, after, replacement, i + 1);
    }
  }

  lemma NothingClosesInBoth(a: string, b: string)
    requires NothingCloses(a) && NothingCloses(b)
    ensures NothingCloses(a + b)
  {
  }

  lemma {:induction false} NothingClosesInLines(lines: seq<string>)
    requires forall i :: 0 <= i < |lines| ==> NothingCloses(lines[i])
    ensures NothingCloses(Joined(lines))
  {
    if lines != [] {
      NothingClosesInLines(lines[..|lines| - 1]);
      NothingClosesInBoth(Joined(lines[..|lines| - 1]), lines[|lines| - 1]);
    }
  }

  lemma FrameIsOpen()
    ensures NothingCloses(OPENING) && NothingCloses(TITLE) && NothingCloses("  <p>\n") && NothingCloses("  </p>\n")
  {
  }

  lemma ProseIsPlain1()
    ensures '<' !in PROSE_1 && '<' !in PROSE_2
  {
  }

  lemma ProseIsPlain2()
    ensures '<' !in PROSE_3 && '<' !in PROSE_4
  {
  }

  lemma ProseIsPlain3()
    ensures '<' !in PROSE_5 && '<' !in PROSE_6
  {
  }

  lemma ProseIsPlain4()
    ensures '<' !in PROSE_7 && '<' !in PROSE_8
  {
  }

  lemma ProseIsPlain()
    ensures forall i :: 3 <= i < 11 ==> '<' !in ROOT_TEXT[i]
  {
    hide OPENING, TITLE, PROSE_1, PROSE_2, PROSE_3, PROSE_4, PROSE_5, PROSE_6, PROSE_7, PROSE_8;
    ProseIsPlain1();
    ProseIsPlain2();
    ProseIsPlain3();
    ProseIsPlain4();
  }

  lemma HeadIsOpen()
    ensures NothingCloses(HEAD)
  {
    FrameIsOpen();
    ProseIsPlain();
    hide OPENING, TITLE, PROSE_1, PROSE_2, PROSE_3, PROSE_4, PROSE_5, PROSE_6, PROSE_7, PROSE_8;
    assert forall i :: 3 <= i < 11 ==> NothingCloses(ROOT_TEXT[i]);
    hide NothingCloses;
    NothingClosesInLines(ROOT_TEXT);
  }

  lemma ParagraphIsOpen(ref: string)
    requires '<' !in ref
    ensures NothingCloses(Paragraph(ref))
  {
    var front, back := "    <p><plus:image ref=\"", "\"/></p>\n";
    assert NothingCloses(front) && NothingCloses(back) && NothingCloses(ref);
    NothingClosesInBoth(front, ref);
    NothingClosesInBoth(front + ref, back);
  }

  // ---- Refs for orphans ----

  predicate Dash(i: nat) { i == 8 || i == 13 || i == 18 || i == 23 }

  /** The text of a UUID. */
  predicate WellFormed(id: Uuid) {
    && |id| == 36
    && forall i :: 0 <= i < 36 ==> if Dash(i) then id[i] == '-' else Digit(id[i]) || 'a' <= id[i] <= 'f'
  }

  /** `delete('-')` */
  function Undashed(s: string): string {
    if s == "" then "" else Undashed(s[..|s| - 1]) + if s[|s| - 1] == '-' then "" else [s[|s| - 1]]
  }

  function OrphanRef(id: Uuid): string { "asset_" + Undashed(id) }

  /** How many dashes a UUID has before position `n`. */
  function DashesBefore(n: nat): (d: nat)
    ensures d <= n
  {
    if n <= 8 then 0 else if n <= 13 then 1 else if n <= 18 then 2 else if n <= 23 then 3 else 4
  }

  lemma {:induction false} UndashedPrefix(id: Uuid, n: nat)
    requires WellFormed(id) && n <= 36
    ensures var u := Undashed(id[..n]);
      && |u| == n - DashesBefore(n)
      && (forall i :: 0 <= i < n && !Dash(i) ==> 0 <= i - DashesBefore(i) < |u| && u[i - DashesBefore(i)] == id[i])
      && (forall k :: 0 <= k < |u| ==> Digit(u[k]) || 'a' <= u[k] <= 'f')
  {
    if n > 0 {
      UndashedPrefix(id, n - 1);
      assert id[..n][..n - 1] == id[..n - 1];
    }
  }

  /** The ref made for an orphan is legal, and no two of them are alike. */
  lemma OrphanRefsAreLegal(id: Uuid)
    requires WellFormed(id)
    ensures Legal(OrphanRef(id))
  {
    UndashedPrefix(id, 36);
    assert id[..36] == id;
    assert "asset_" == ['a', 's', 's', 'e', 't', '_'];
  }

  lemma OrphanRefsDiffer(a: Uuid, b: Uuid)
    requires WellFormed(a) && WellFormed(b) && OrphanRef(a) == OrphanRef(b)
    ensures a == b
  {
    UndashedPrefix(a, 36);
    UndashedPrefix(b, 36);
    assert a[..36] == a && b[..36] == b;
    assert Undashed(a) == OrphanRef(a)[6..] && Undashed(b) == OrphanRef(b)[6..];
    forall i | 0 <= i < 36 ensures a[i] == b[i] {
      if !Dash(i) { assert Undashed(a)[i - DashesBefore(i)] == a[i]; }
    }
  }

  // ---- The migration ----

  function MembershipsOf(memberships: seq<Membership>, id: Uuid): (r: seq<Membership>)
    ensures |r| <= |memberships|
    ensures forall m :: m in r <==> m in memberships && m.library == id
  {
    if memberships == [] then []
    else
      var last := memberships[|memberships| - 1];
      MembershipsOf(memberships[..|memberships| - 1], id) + if last.library == id then [last] else []
  }

  predicate Orphaned(memberships: seq<Membership>, la: LibraryAsset) { MembershipsOf(memberships, la.id) == [] }

  /** `holding_projects_by_user_id[user] ||= create_holding_project` */
  function WithHolding(s: State, user: UserId): State {
    if user in s.holding then s
    else s.(holding := s.holding[user := |s.roots|], owners := s.owners + [user], roots := s.roots + [ROOT_SOURCE])
  }

  function WithAsset(s: State, a: Asset): State { s.(assets := s.assets + [a]) }

  /** The attachment's record type flipped. */
  function FileMoved(s: State, id: Uuid): State {
    if LibraryFile(id) !in s.files then s
    else s.(files := (s.files - {LibraryFile(id)})[AssetFile(Same(id)) := s.files[LibraryFile(id)]])
  }

  function FileShared(s: State, id: AssetId, blob: Option<Blob>): State {
    if blob.None? then s else s.(files := s.files[AssetFile(id) := blob.value])
  }

  /** `append_asset_reference` */
  function Referenced(s: State, index: nat, ref: string): State {
    if index >= |s.roots| then s
    else s.(roots := s.roots[index := Sub(s.roots[index], CLOSE, Paragraph(ref) + CLOSE)])
  }

  function OrphanMigrated(s: State, la: LibraryAsset): State {
    var s1 := WithHolding(s, la.user);
    var home := s1.holding[la.user];
    var ref := OrphanRef(la.id);
    Referenced(FileMoved(WithAsset(s1, Asset(Same(la.id), Holding(home), ref, la.fields)), la.id), home, ref)
  }

  /** One more membership: an asset of its own that shares the blob. */
  function ExtraMigrated(s: State, la: LibraryAsset, m: Membership, blob: Option<Blob>): State {
    var s1 := WithAsset(s, Asset(New(s.drawn), m.project, m.ref, la.fields));
    FileShared(s1.(drawn := s.drawn + 1), New(s.drawn), blob)
  }

  function ExtrasMigrated(s: State, la: LibraryAsset, extras: seq<Membership>, blob: Option<Blob>): State {
    if extras == [] then s
    else ExtraMigrated(ExtrasMigrated(s, la, extras[..|extras| - 1], blob), la, extras[|extras| - 1], blob)
  }

  function BlobOf(files: map<Record, Blob>, r: Record): Option<Blob> {
    if r in files then Some(files[r]) else None
  }

  function PlacedMigrated(s: State, la: LibraryAsset, ms: seq<Membership>): State
    requires ms != []
  {
    var s1 := FileMoved(WithAsset(s, Asset(Same(la.id), ms[0].project, ms[0].ref, la.fields)), la.id);
    ExtrasMigrated(s1, la, ms[1..], BlobOf(s.files, LibraryFile(la.id)))
  }

  function OneMigrated(s: State, la: LibraryAsset, memberships: seq<Membership>): State {
    var ms := MembershipsOf(memberships, la.id);
    if ms == [] then OrphanMigrated(s, la) else PlacedMigrated(s, la, ms)
  }

  /** `up` */
  function Migrated(s: State, las: seq<LibraryAsset>, memberships: seq<Membership>): State {
    if las == [] then s
    else OneMigrated(Migrated(s, las[..|las| - 1], memberships), las[|las| - 1], memberships)
  }

  /** The database as the migration finds it: no assets and no holding projects yet. */
  predicate Before(s: State) {
    s.assets == [] && s.holding == map[] && s.owners == [] && s.roots == [] && s.drawn == 0
    && forall r :: r in s.files ==> r.LibraryFile?
  }

  class AssetMigrator {
    var state: State

    constructor (files: map<Record, Blob>)
      requires forall r :: r in files ==> r.LibraryFile?
      ensures state == State([], files, map[], [], [], 0) && Before(state)
    {
      state := State([], files, map[], [], [], 0);
    }

    method MigrateExtras(la: LibraryAsset, extras: seq<Membership>, blob: Option<Blob>)
      modifies this
      ensures state == ExtrasMigrated(old(state), la, extras, blob)
    {
      for i := 0 to |extras|
        invariant state == ExtrasMigrated(old(state), la, extras[..i], blob)
      {
        assert extras[..i + 1][..i] == extras[..i];
        var id := New(state.drawn);
        var asset := Asset(id, extras[i].project, extras[i].ref, la.fields);
        state := state.(assets := state.assets + [asset], drawn := state.drawn + 1);
        if blob.Some? {
          state := state.(files := state.files[AssetFile(id) := blob.value]);
        }
      }
      assert extras[..|extras|] == extras;
    }

    method MigrateOne(la: LibraryAsset, memberships: seq<Membership>)
      modifies this
      ensures state == OneMigrated(old(state), la, memberships)
    {
      var ms := MembershipsOf(memberships, la.id);
      var blob := BlobOf(state.files, LibraryFile(la.id));
      if ms == [] {
        if la.user !in state.holding {
          state := state.(holding := state.holding[la.user := |state.roots|],
                          owners := state.owners + [la.user], roots := state.roots + [ROOT_SOURCE]);
        }
        var home, ref := state.holding[la.user], OrphanRef(la.id);
        state := WithAsset(state, Asset(Same(la.id), Holding(home), ref, la.fields));
        state := FileMoved(state, la.id);
        state := Referenced(state, home, ref);
      } else {
        state := WithAsset(state, Asset(Same(la.id), ms[0].project, ms[0].ref, la.fields));
        state := FileMoved(state, la.id);
        MigrateExtras(la, ms[1..], blob);
      }
    }

    method Up(las: seq<LibraryAsset>, memberships: seq<Membership>)
      modifies this
      ensures state == Migrated(old(state), las, memberships)
    {
      for i := 0 to |las|
        invariant state == Migrated(old(state), las[..i], memberships)
      {
        assert las[..i + 1][..i] == las[..i];
        MigrateOne(las[i], memberships);
      }
      assert las[..|las|] == las;
    }
  }
}
