/**
 How often a holding project's source refers to an asset, counted in the text itself: once for
 each time the asset's ref is among the refs the text was built from.
 */
module AssetReferences {
  import opened OutputNames
  import opened AssetMigration
  import opened AssetConservation

  /** The tag that places an asset by its ref. */
  function Tag(ref: string): string { "<plus:image ref=\"" + ref + "\"/>" }

  /** How many times `pattern` occurs in `s`. */
  function Occurrences(s: string, pattern: string): nat {
    if s == "" then 0 else (if MatchesAt(s, pattern, 0) then 1 else 0) + Occurrences(s[1..], pattern)
  }

  /** No tag of the form above begins in `s`, whatever comes after it. */
  predicate NoTagBegins(s: string) {
    forall i :: 0 <= i < |s| && s[i] == '<' ==> i + 2 < |s| && !(s[i + 1] == 'p' && s[i + 2] == 'l')
  }

  lemma TagStarts(ref: string, s: string)
    requires MatchesAt(s, Tag(ref), 0)
    ensures |s| > 2 && s[0] == '<' && s[1] == 'p' && s[2] == 'l'
  {
    var t := Tag(ref);
    assert t == s[0..|t|];
    assert t[0] == '<' && t[1] == 'p' && t[2] == 'l';
  }

  lemma {:induction false} NothingBefore(a: string, rest: string, ref: string)
    requires NoTagBegins(a)
    ensures Occurrences(a + rest, Tag(ref)) == Occurrences(rest, Tag(ref))
  {
    if a == "" {
      assert a + rest == rest;
    } else {
      assert (a + rest)[1..] == a[1..] + rest;
      NothingBefore(a[1..], rest, ref);
      if MatchesAt(a + rest, Tag(ref), 0) { TagStarts(ref, a + rest); }
    }
  }

  const FRONT := "<plus:image ref=\""
  const BACK := "\"/></p>\n"

  /** Two texts without a quote, each closed by one, agree as soon as one begins the other. */
  lemma {:induction false} QuotedAgree(a: string, b: string, rest: string)
    requires '"' !in a && '"' !in b && b + "\"" <= a + "\"" + rest
    ensures a == b
  {
    var s, t := a + "\"" + rest, b + "\"";
    assert s[0] == t[0];
    if a != "" && b != "" {
      assert s[1..] == a[1..] + "\"" + rest && t[1..] == b[1..] + "\"";
      QuotedAgree(a[1..], b[1..], rest);
    }
  }

  lemma LegalHasNoQuote(ref: string)
    requires Legal(ref)
    ensures '"' !in ref
  {
  }

  /** At the tag of one ref, the tag of another does not match. */
  lemma OnlyItsOwnTag(one: string, rest: string, ref: string)
    requires Legal(one) && Legal(ref)
    ensures MatchesAt(FRONT + one + BACK + rest, Tag(ref), 0) <==> one == ref
  {
    var s, n := FRONT + one + BACK + rest, |FRONT|;
    var close := "/></p>\n" + rest;
    assert BACK + rest == "\"" + close;
    assert s == FRONT + (one + "\"" + close);
    assert Tag(ref) == FRONT + (ref + "\"" + "/>");
    LegalHasNoQuote(one);
    LegalHasNoQuote(ref);
    hide Legal, Tag;
    if MatchesAt(s, FRONT + (ref + "\"" + "/>"), 0) {
      MatchAfterFront(FRONT, one + "\"" + close, ref + "\"" + "/>");
      assert ref + "\"" <= ref + "\"" + "/>";
      QuotedAgree(one, ref, close);
    }
    if one == ref {
      assert s == FRONT + (ref + "\"" + "/>") + ("</p>\n" + rest);
    }
  }

  lemma MatchAfterFront(front: string, a: string, b: string)
    requires MatchesAt(front + a, front + b, 0)
    ensures b <= a
  {
    assert (front + a)[0..|front + b|] == front + b;
    assert forall i :: 0 <= i < |b| ==> a[i] == (front + a)[|front| + i] && b[i] == (front + b)[|front| + i];
  }

  lemma NoTagInside(ref: string)
    requires Legal(ref)
    ensures NoTagBegins(FRONT[1..] + ref + BACK)
  {
    LegalIsOpen(ref);
    assert NoTagBegins(FRONT[1..]) && NoTagBegins(ref) && NoTagBegins(BACK);
  }

  /** A paragraph holds one tag, its own. */
  lemma ParagraphHasOneTag(one: string, rest: string, ref: string)
    requires Legal(one) && Legal(ref)
    ensures Occurrences(Paragraph(one) + rest, Tag(ref)) == (if one == ref then 1 else 0) + Occurrences(rest, Tag(ref))
  {
    var tag := FRONT + one + BACK + rest;
    assert Paragraph(one) + rest == "    <p>" + tag;
    assert NoTagBegins("    <p>");
    OnlyItsOwnTag(one, rest, ref);
    NoTagInside(one);
    assert tag[1..] == (FRONT[1..] + one + BACK) + rest;
    hide Tag, Legal, Paragraph;
    NothingBefore("    <p>", tag, ref);
    NothingBefore(FRONT[1..] + one + BACK, rest, ref);
  }

  /** How often `ref` is among `refs`. */
  function CountOf(refs: seq<string>, ref: string): nat { multiset(refs)[ref] }

  lemma {:induction false} ParagraphsHoldTheTags(refs: seq<string>, rest: string, ref: string)
    requires AllLegal(refs) && Legal(ref)
    ensures Occurrences(Paragraphs(refs) + rest, Tag(ref)) == CountOf(refs, ref) + Occurrences(rest, Tag(ref))
  {
    if refs == [] {
      assert "" + rest == rest;
    } else {
      var front, last := refs[..|refs| - 1], refs[|refs| - 1];
      assert refs == front + [last] && Legal(last);
      assert Paragraphs(refs) + rest == Paragraphs(front) + (Paragraph(last) + rest);
      ParagraphsHoldTheTags(front, Paragraph(last) + rest, ref);
      hide Tag, Legal, Paragraph;
      ParagraphHasOneTag(last, rest, ref);
    }
  }

  lemma NoTagInBoth(a: string, b: string)
    requires NoTagBegins(a) && NoTagBegins(b)
    ensures NoTagBegins(a + b)
  {
  }

  lemma {:induction false} NoTagInText(lines: seq<string>)
    requires forall i :: 0 <= i < |lines| ==> NoTagBegins(lines[i])
    ensures NoTagBegins(Joined(lines))
  {
    if lines != [] {
      NoTagInText(lines[..|lines| - 1]);
      NoTagInBoth(Joined(lines[..|lines| - 1]), lines[|lines| - 1]);
    }
  }

  lemma FrameHasNoTag()
    ensures NoTagBegins(OPENING) && NoTagBegins(TITLE) && NoTagBegins("  <p>\n") && NoTagBegins("  </p>\n")
  {
  }

  lemma HeadHasNoTag()
    ensures NoTagBegins(HEAD)
  {
    FrameHasNoTag();
    ProseIsPlain();
    hide OPENING, TITLE, PROSE_1, PROSE_2, PROSE_3, PROSE_4, PROSE_5, PROSE_6, PROSE_7, PROSE_8;
    assert forall i :: 3 <= i < 11 ==> NoTagBegins(ROOT_TEXT[i]);
    hide NoTagBegins;
    NoTagInText(ROOT_TEXT);
  }

  /** A root source refers to an asset as often as its ref is among those it was built from. */
  lemma RootHoldsTheTags(refs: seq<string>, ref: string)
    requires AllLegal(refs) && Legal(ref)
    ensures Occurrences(RootWith(refs), Tag(ref)) == CountOf(refs, ref)
  {
    var end := CLOSE + "\n";
    assert NoTagBegins(end);
    assert end + "" == end && Occurrences("", Tag(ref)) == 0;
    HeadHasNoTag();
    hide HEAD, NoTagBegins, Tag, Legal, AllLegal, Paragraphs, Occurrences;
    assert RootWith(refs) == HEAD + (Paragraphs(refs) + end);
    NothingBefore(HEAD, Paragraphs(refs) + end, ref);
    ParagraphsHoldTheTags(refs, end, ref);
    NothingBefore(end, "", ref);
  }

  lemma {:induction false} CountInDistinct(refs: seq<string>, ref: string)
    requires forall i, j :: 0 <= i < j < |refs| ==> refs[i] != refs[j]
    ensures CountOf(refs, ref) == if ref in refs then 1 else 0
  {
    if refs != [] {
      var front, last := refs[..|refs| - 1], refs[|refs| - 1];
      assert refs == front + [last];
      CountInDistinct(front, ref);
      assert last !in front;
    }
  }

  /**
   After the migration, an orphan is referred to exactly once in the source of its owner's
   holding project, and nowhere in anyone else's.
   */
  lemma EachOrphanIsReferredToOnce(s: State, las: seq<LibraryAsset>, memberships: seq<Membership>, la: LibraryAsset,
    user: UserId)
    requires Before(s) && DistinctIds(las) && forall i :: 0 <= i < |las| ==> WellFormed(las[i].id)
    requires la in las && Orphaned(memberships, la) && user in OrphanOwners(las, memberships)
    ensures var t := Migrated(s, las, memberships);
      && user in t.holding && t.holding[user] < |t.roots|
      && Occurrences(t.roots[t.holding[user]], Tag(OrphanRef(la.id))) == if user == la.user then 1 else 0
  {
    var t, refs, ref := Migrated(s, las, memberships), OrphanRefs(las, memberships, user), OrphanRef(la.id);
    MigrationConserves(s, las, memberships);
    HoldsRoot(s.files, t, las, memberships, user);
    assert WellFormed(la.id);
    OrphanRefsAreLegal(la.id);
    OrphanRefsAreOpen(las, memberships, user);
    OrphanRefsAreDistinct(las, memberships, user);
    hide Conserved, Migrated, RootWith, Occurrences, Tag, AllLegal, Legal;
    RootHoldsTheTags(refs, ref);
    CountInDistinct(refs, ref);
    OrphanRefComesFrom(las, memberships, user, ref);
    OnlyItsOwner(las, memberships, la, user);
  }

  lemma HoldsRoot(original: map<Record, Blob>, t: State, las: seq<LibraryAsset>, memberships: seq<Membership>,
    user: UserId)
    requires Conserved(original, t, las, memberships) && user in OrphanOwners(las, memberships)
    ensures user in t.holding && t.holding[user] < |t.roots|
    ensures t.roots[t.holding[user]] == RootWith(OrphanRefs(las, memberships, user))
  {
    hide RootWith, OrphanRefs, Carried, FilesConserved, OrphanOwners;
  }

  /** A ref among a user's orphans is of none but theirs. */
  lemma OnlyItsOwner(las: seq<LibraryAsset>, memberships: seq<Membership>, la: LibraryAsset, user: UserId)
    requires DistinctIds(las) && (forall i :: 0 <= i < |las| ==> WellFormed(las[i].id)) && la in las
      && Orphaned(memberships, la)
    ensures (exists x :: x in las && x.user == user && Orphaned(memberships, x) && OrphanRef(x.id) == OrphanRef(la.id))
      <==> user == la.user
  {
    hide OrphanRef;
    forall x | x in las && OrphanRef(x.id) == OrphanRef(la.id) ensures x == la {
      OrphanRefsDiffer(x.id, la.id);
      var i :| 0 <= i < |las| && las[i] == x;
      var j :| 0 <= j < |las| && las[j] == la;
    }
  }
}
