/**
 A project's outputs by name and slug: adding one (with or without a name), renaming and removing
 them, and the validations that may refuse. Over every run, no two outputs share a slug or a name
 up to case, every slug is one PreTeXt accepts, and a slug never changes.
 */
module ProjectOutputs {
  import opened OutputNames

  type OutputId = nat

  datatype Output = Output(name: string, slug: string, kind: string)

  datatype Listing = Listing(slideshow: bool, nextId: OutputId, rows: map<OutputId, Output>)

  function Names(rows: map<OutputId, Output>): set<string> {
    set i | i in rows :: Downcase(rows[i].name)
  }

  function Slugs(rows: map<OutputId, Output>): set<string> {
    set i | i in rows :: rows[i].slug
  }

  /** `slug_base` */
  function SlugBase(name: string, kind: string): string {
    var candidate, prefix := Parameterize(name), Parameterize(kind);
    if candidate != "" && LowerCase(candidate[0]) then candidate
    else
      (if prefix == "" then "target" else prefix) + (if candidate == "" then "" else "-" + candidate)
  }

  /** A name alone may give no legal slug; with the kind in front it does, unless that starts with a digit. */
  lemma SlugBaseIsLegalExactly(name: string, kind: string)
    ensures Legal(SlugBase(name, kind)) <==>
      var candidate, prefix := Parameterize(name), Parameterize(kind);
      (candidate != "" && LowerCase(candidate[0])) || prefix == "" || !Digit(prefix[0])
  {
    ParameterizeIsSlugText(name);
    ParameterizeIsSlugText(kind);
    var candidate, prefix := Parameterize(name), Parameterize(kind);
    hide Parameterize;
    assert SlugText("target") && LowerCase("target"[0]);
    if candidate != "" && LowerCase(candidate[0]) {
      SlugTextIsLegalExactly(candidate, "");
    } else {
      var suffix := if candidate == "" then "" else "-" + candidate;
      SlugTextIsLegalExactly(if prefix == "" then "target" else prefix, suffix);
    }
  }

  /** Whether slug text followed by more of it is legal turns on the first character alone. */
  lemma SlugTextIsLegalExactly(first: string, more: string)
    requires first != "" && SlugText(first)
    requires more == "" || (more[0] == '-' && SlugText(more[1..]))
    ensures Legal(first + more) <==> !Digit(first[0])
  {
    var s := first + more;
    assert s[0] == first[0];
    forall i | 0 <= i < |s| ensures LowerCase(s[i]) || Digit(s[i]) || s[i] == '-' || s[i] == '_' {
      assert s[i] == if i < |first| then first[i] else if i == |first| then '-' else more[1..][i - |first| - 1];
    }
  }

  lemma SuffixKeepsLegal(base: string, k: nat)
    requires Legal(base)
    ensures Legal(Suffixed(base, "-", k))
  {
  }

  lemma KindsAreLetters(kind: string)
    requires Label(kind).Some?
    ensures kind != "" && forall i :: 0 <= i < |kind| ==> LowerCase(kind[i])
  {
  }

  lemma KindsMakeLegalSlugs(name: string, kind: string)
    requires Label(kind).Some?
    ensures Legal(SlugBase(name, kind))
  {
    SlugBaseIsLegalExactly(name, kind);
    KindsAreLetters(kind);
    hide Label, SlugBase, Legal;
    HyphenatedKeepsSlugText(kind);
    assert Parameterize(kind) == kind;
  }

  // ---- Adding, renaming, removing ----

  /** The name an output is created under. */
  ghost function GivenName(l: Listing, name: string, kind: string): string {
    if Strip(name) != "" then Strip(name)
    else FirstFreeName(Label(kind).GetOr(kind), Names(l.rows))
  }

  ghost predicate Addable(l: Listing, name: string, kind: string) {
    Buildable(kind, l.slideshow) && (Strip(name) == "" || Downcase(Strip(name)) !in Names(l.rows))
  }

  ghost function Added(l: Listing, name: string, kind: string): Listing {
    if !Addable(l, name, kind) then l
    else
      var full := GivenName(l, name, kind);
      var o := Output(full, FirstFree(SlugBase(full, kind), "-", Slugs(l.rows)), kind);
      Listing(l.slideshow, l.nextId + 1, l.rows[l.nextId := o])
  }

  ghost predicate Renamable(l: Listing, id: OutputId, name: string) {
    && id in l.rows && Strip(name) != ""
    && forall i :: i in l.rows && i != id ==> Downcase(l.rows[i].name) != Downcase(Strip(name))
  }

  ghost function Renamed(l: Listing, id: OutputId, name: string): Listing {
    if Renamable(l, id, name) then l.(rows := l.rows[id := l.rows[id].(name := Strip(name))]) else l
  }

  function Removed(l: Listing, id: OutputId): Listing { l.(rows := l.rows - {id}) }

  // ---- The invariant ----

  ghost predicate Sound(l: Listing) {
    && (forall i :: i in l.rows ==> i < l.nextId)
    && (forall i :: i in l.rows ==>
          Legal(l.rows[i].slug) && l.rows[i].name != "" && Buildable(l.rows[i].kind, l.slideshow))
    && (forall i, j :: i in l.rows && j in l.rows && i != j ==> l.rows[i].slug != l.rows[j].slug)
    && (forall i, j :: i in l.rows && j in l.rows && i != j ==> Downcase(l.rows[i].name) != Downcase(l.rows[j].name))
  }

  /** Whatever name is given, the slug found for it is legal and new: those validations never refuse. */
  lemma FoundSlugIsAccepted(name: string, kind: string, slugs: set<string>)
    requires Label(kind).Some?
    ensures var slug := FirstFree(SlugBase(name, kind), "-", slugs); Legal(slug) && slug !in slugs
  {
    KindsMakeLegalSlugs(name, kind);
    SuffixKeepsLegal(SlugBase(name, kind), FreeFrom(SlugBase(name, kind), "-", slugs, 1));
  }

  lemma GeneratedNameIsAccepted(kind: string, names: set<string>)
    requires Label(kind).Some?
    ensures var name := FirstFreeName(Label(kind).value, names); name != "" && Downcase(name) !in names
  {
    var base := Label(kind).value;
    DowncaseOfSuffixed(base, FreeFrom(Downcase(base), " ", names, 1));
  }

  lemma InsertingKeepsSound(l: Listing, o: Output)
    requires Sound(l) && Legal(o.slug) && o.slug !in Slugs(l.rows)
    requires o.name != "" && Downcase(o.name) !in Names(l.rows) && Buildable(o.kind, l.slideshow)
    ensures Sound(Listing(l.slideshow, l.nextId + 1, l.rows[l.nextId := o]))
  {
    hide Legal, Downcase, Buildable;
    assert forall i :: i in l.rows ==> l.rows[i].slug != o.slug by {
      forall i | i in l.rows ensures l.rows[i].slug != o.slug { assert l.rows[i].slug in Slugs(l.rows); }
    }
    assert forall i :: i in l.rows ==> Downcase(l.rows[i].name) != Downcase(o.name) by {
      forall i | i in l.rows ensures Downcase(l.rows[i].name) != Downcase(o.name) {
        assert Downcase(l.rows[i].name) in Names(l.rows);
      }
    }
    hide Slugs, Names;
  }

  lemma AddingKeepsSound(l: Listing, name: string, kind: string)
    requires Sound(l)
    ensures Sound(Added(l, name, kind))
  {
    if Addable(l, name, kind) {
      var full := GivenName(l, name, kind);
      FoundSlugIsAccepted(full, kind, Slugs(l.rows));
      GeneratedNameIsAccepted(kind, Names(l.rows));
      var slug := FirstFree(SlugBase(full, kind), "-", Slugs(l.rows));
      assert full != "" && Downcase(full) !in Names(l.rows);
      assert Added(l, name, kind).rows == l.rows[l.nextId := Output(full, slug, kind)];
      hide Added, GivenName, SlugBase, FirstFree, Addable, Legal, Downcase, Strip;
      InsertingKeepsSound(l, Output(full, slug, kind));
    }
  }

  // ---- Runs ----

  datatype Edit =
    | Add(name: string, kind: string)
    | Rename(id: OutputId, name: string)
    | Remove(id: OutputId)

  ghost function Edited(l: Listing, e: Edit): Listing {
    match e
    case Add(name, kind) => Added(l, name, kind)
    case Rename(id, name) => Renamed(l, id, name)
    case Remove(id) => Removed(l, id)
  }

  ghost function EditedAll(l: Listing, edits: seq<Edit>): Listing {
    if edits == [] then l else Edited(EditedAll(l, edits[..|edits| - 1]), edits[|edits| - 1])
  }

  /** Over every run of edits the names and slugs stay distinct and the slugs legal. */
  lemma {:induction false} NamesAndSlugsStaySound(l: Listing, edits: seq<Edit>)
    requires Sound(l)
    ensures Sound(EditedAll(l, edits))
    ensures EditedAll(l, edits).slideshow == l.slideshow && EditedAll(l, edits).nextId >= l.nextId
  {
    if edits != [] {
      var front, e := edits[..|edits| - 1], edits[|edits| - 1];
      NamesAndSlugsStaySound(l, front);
      match e {
        case Add(name, kind) => AddingKeepsSound(EditedAll(l, front), name, kind);
        case _ =>
      }
    }
  }

  /** An output that is still there after a run has the slug and kind it had before it. */
  lemma {:induction false} SlugsNeverChange(l: Listing, edits: seq<Edit>, id: OutputId)
    requires Sound(l) && id < l.nextId && id in EditedAll(l, edits).rows
    ensures id in l.rows
    ensures EditedAll(l, edits).rows[id].slug == l.rows[id].slug
    ensures EditedAll(l, edits).rows[id].kind == l.rows[id].kind
  {
    if edits != [] {
      NamesAndSlugsStaySound(l, edits[..|edits| - 1]);
      SlugsNeverChange(l, edits[..|edits| - 1], id);
    }
  }

  // ---- The rows ----

  lemma NamesOfOthers(rows: map<OutputId, Output>, id: OutputId, name: string)
    ensures name !in Names(rows - {id}) <==> forall i :: i in rows && i != id ==> Downcase(rows[i].name) != name
  {
    hide Downcase;
    forall i | i in rows && i != id ensures Downcase(rows[i].name) in Names(rows - {id}) {
      assert i in rows - {id} && Downcase((rows - {id})[i].name) in Names(rows - {id});
    }
  }

  class Outputs {
    const slideshow: bool
    var nextId: OutputId
    var rows: map<OutputId, Output>

    constructor (slideshow: bool)
      ensures Model() == Listing(slideshow, 0, map[]) && Sound(Model())
    {
      this.slideshow, nextId, rows := slideshow, 0, map[];
    }

    ghost function Model(): Listing
      reads this
    {
      Listing(slideshow, nextId, rows)
    }

    /** Creating a target, with the slug and the default name found by search. */
    method Add(name: string, kind: string) returns (saved: bool)
      requires Sound(Model())
      modifies this
      ensures Sound(Model()) && Model() == Added(old(Model()), name, kind)
      ensures saved <==> Addable(old(Model()), name, kind)
    {
      AddingKeepsSound(Model(), name, kind);
      var known := Label(kind);
      var full := Strip(name);
      if full == "" && known.Some? {
        GeneratedNameIsAccepted(kind, Names(rows));
        full := SearchName(known.value, Names(rows));
      }
      var slug := SearchSlug(SlugBase(full, kind), Slugs(rows));
      if known.Some? { FoundSlugIsAccepted(full, kind, Slugs(rows)); }
      saved := Buildable(kind, slideshow) && full != "" && Downcase(full) !in Names(rows)
               && Legal(slug) && slug !in Slugs(rows);
      if saved {
        rows, nextId := rows[nextId := Output(full, slug, kind)], nextId + 1;
      }
    }

    method Rename(id: OutputId, name: string) returns (saved: bool)
      requires Sound(Model())
      modifies this`rows
      ensures Sound(Model()) && Model() == Renamed(old(Model()), id, name)
      ensures saved <==> Renamable(old(Model()), id, name)
    {
      var full := Strip(name);
      saved := id in rows && full != "" && Downcase(full) !in Names(rows - {id});
      NamesOfOthers(rows, id, Downcase(full));
      if saved {
        rows := rows[id := rows[id].(name := full)];
      }
    }

    method Remove(id: OutputId)
      requires Sound(Model())
      modifies this`rows
      ensures Sound(Model()) && Model() == Removed(old(Model()), id)
    {
      rows := rows - {id};
    }
  }
}
