/** Which asset keeps the id of the library asset, where an orphan goes, and under what ref. */
module AssetMeanings {
  import opened AssetMigration
  import opened AssetConservation

  function Digits(id: Uuid): string
    requires |id| == 36
  {
    id[..8] + id[9..13] + id[14..18] + id[19..23] + id[24..]
  }

  /** The ref made for an orphan is the 32 digits of its id, in order. */
  lemma OrphanRefIsTheDigits(id: Uuid)
    requires WellFormed(id)
    ensures OrphanRef(id) == "asset_" + Digits(id)
  {
    UndashedPrefix(id, 36);
    assert id[..36] == id;
    var digits, u := Digits(id), Undashed(id);
    forall k | 0 <= k < 32 ensures u[k] == digits[k] {
      var i := if k < 8 then k else if k < 12 then k + 1 else if k < 16 then k + 2 else if k < 20 then k + 3 else k + 4;
      assert !Dash(i) && i - DashesBefore(i) == k && digits[k] == id[i];
    }
    assert u == digits;
  }

  // ---- The memberships of one library asset ----

  predicate FirstOf(memberships: seq<Membership>, id: Uuid, i: nat) {
    && i < |memberships| && memberships[i].library == id
    && forall j :: 0 <= j < i ==> memberships[j].library != id
  }

  lemma {:induction false} NoneIsOfIt(memberships: seq<Membership>, id: Uuid)
    requires forall m :: m in memberships ==> m.library != id
    ensures MembershipsOf(memberships, id) == []
  {
    if memberships != [] { NoneIsOfIt(memberships[..|memberships| - 1], id); }
  }

  lemma {:induction false} FirstIsFirst(memberships: seq<Membership>, id: Uuid, i: nat)
    requires FirstOf(memberships, id, i)
    ensures var ms := MembershipsOf(memberships, id); ms != [] && ms[0] == memberships[i]
  {
    var front := memberships[..|memberships| - 1];
    if i < |front| {
      FirstIsFirst(front, id, i);
    } else {
      NoneIsOfIt(front, id);
    }
  }

  // ---- A turn only adds ----

  lemma {:induction false} ExtrasOnlyAdd(s: State, la: LibraryAsset, extras: seq<Membership>)
    ensures forall blob :: var t := ExtrasMigrated(s, la, extras, blob); s.assets <= t.assets && t.holding == s.holding
  {
    if extras != [] { ExtrasOnlyAdd(s, la, extras[..|extras| - 1]); }
  }

  lemma TurnOnlyAdds(s: State, la: LibraryAsset, memberships: seq<Membership>)
    ensures var t := OneMigrated(s, la, memberships); s.assets <= t.assets && Extends(s.holding, t.holding)
  {
    var ms := MembershipsOf(memberships, la.id);
    if ms != [] {
      var a := Asset(Same(la.id), ms[0].project, ms[0].ref, la.fields);
      ExtrasOnlyAdd(FileMoved(WithAsset(s, a), la.id), la, ms[1..]);
    }
  }

  /** There is an asset under the library asset's own id: for its first membership, or in its owner's project. */
  predicate KeptItsId(t: State, la: LibraryAsset, ms: seq<Membership>) {
    if ms != [] then Asset(Same(la.id), ms[0].project, ms[0].ref, la.fields) in t.assets
    else
      && la.user in t.holding
      && Asset(Same(la.id), Holding(t.holding[la.user]), OrphanRef(la.id), la.fields) in t.assets
  }

  /** The asset made in a turn under the library asset's own id. */
  lemma TurnKeepsTheId(s: State, la: LibraryAsset, memberships: seq<Membership>)
    ensures KeptItsId(OneMigrated(s, la, memberships), la, MembershipsOf(memberships, la.id))
  {
    var ms := MembershipsOf(memberships, la.id);
    if ms != [] {
      var a := Asset(Same(la.id), ms[0].project, ms[0].ref, la.fields);
      var s1 := FileMoved(WithAsset(s, a), la.id);
      assert s1.assets[|s.assets|] == a;
      ExtrasOnlyAdd(s1, la, ms[1..]);
    }
  }

  /** It is still there when all have had their turns. */
  lemma {:induction false} EachKeepsItsId(s: State, las: seq<LibraryAsset>, memberships: seq<Membership>,
    la: LibraryAsset)
    requires la in las
    ensures KeptItsId(Migrated(s, las, memberships), la, MembershipsOf(memberships, la.id))
  {
    var front, last := las[..|las| - 1], las[|las| - 1];
    assert las == front + [last];
    hide OneMigrated, MembershipsOf, OrphanRef;
    var s1 := Migrated(s, front, memberships);
    if la == last {
      TurnKeepsTheId(s1, la, memberships);
    } else {
      EachKeepsItsId(s, front, memberships, la);
      TurnOnlyAdds(s1, last, memberships);
    }
  }

  /** The first membership of a library asset, as they are read, keeps its id and its file. */
  lemma FirstMembershipKeepsTheAsset(s: State, las: seq<LibraryAsset>, memberships: seq<Membership>, la: LibraryAsset,
    i: nat)
    requires Before(s) && DistinctIds(las) && forall j :: 0 <= j < |las| ==> WellFormed(las[j].id)
    requires la in las && FirstOf(memberships, la.id, i)
    ensures var t := Migrated(s, las, memberships);
      && Asset(Same(la.id), memberships[i].project, memberships[i].ref, la.fields) in t.assets
      && BlobOf(t.files, AssetFile(Same(la.id))) == BlobOf(s.files, LibraryFile(la.id))
  {
    EachKeepsItsId(s, las, memberships, la);
    FirstIsFirst(memberships, la.id, i);
    OwnFileStays(s, las, memberships, Asset(Same(la.id), memberships[i].project, memberships[i].ref, la.fields));
  }

  lemma OwnFileStays(s: State, las: seq<LibraryAsset>, memberships: seq<Membership>, a: Asset)
    requires Before(s) && DistinctIds(las) && forall j :: 0 <= j < |las| ==> WellFormed(las[j].id)
    requires a in Migrated(s, las, memberships).assets && a.id.Same?
    ensures BlobOf(Migrated(s, las, memberships).files, AssetFile(a.id)) == BlobOf(s.files, LibraryFile(a.id.library))
  {
    MigrationConserves(s, las, memberships);
    var t := Migrated(s, las, memberships);
    var dues := Dues(las, memberships, t.holding);
    var k :| 0 <= k < |t.assets| && t.assets[k] == a;
    assert Meets(t.assets[k], t.files, dues[k], s.files);
  }

  /** An orphan keeps its id and its file too, in the one project held for its owner. */
  lemma OrphanGoesToItsOwner(s: State, las: seq<LibraryAsset>, memberships: seq<Membership>, la: LibraryAsset)
    requires Before(s) && DistinctIds(las) && forall j :: 0 <= j < |las| ==> WellFormed(las[j].id)
    requires la in las && WellFormed(la.id) && forall m :: m in memberships ==> m.library != la.id
    ensures var t, id := Migrated(s, las, memberships), la.id;
      && la.user in t.holding && t.holding[la.user] < |t.owners| && t.owners[t.holding[la.user]] == la.user
      && Asset(Same(id), Holding(t.holding[la.user]), "asset_" + Digits(id), la.fields) in t.assets
      && BlobOf(t.files, AssetFile(Same(id))) == BlobOf(s.files, LibraryFile(id))
  {
    EachKeepsItsId(s, las, memberships, la);
    NoneIsOfIt(memberships, la.id);
    OrphanRefIsTheDigits(la.id);
    MigrationConserves(s, las, memberships);
    var t := Migrated(s, las, memberships);
    OwnFileStays(s, las, memberships, Asset(Same(la.id), Holding(t.holding[la.user]), OrphanRef(la.id), la.fields));
  }
}
