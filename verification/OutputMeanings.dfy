/** What the names and slugs of outputs say, in terms of the text they were made from. */
module OutputMeanings {
  import opened OutputNames
  import opened ProjectOutputs

  // ---- Slugs and the words of a name ----

  predicate WordChar(c: char) { 'A' <= c <= 'Z' || 'a' <= c <= 'z' || '0' <= c <= '9' || c == '_' }

  /** A word of a name, and what stands between it and the next. */
  datatype Cut = Cut(word: string, gap: string)

  /** A name cut up into the longest words there are, from what stands before the first. */
  predicate WellCut(lead: string, cuts: seq<Cut>) {
    && (forall c :: c in lead ==> !WordChar(c))
    && (forall i :: 0 <= i < |cuts| ==> cuts[i].word != "" && forall c :: c in cuts[i].word ==> WordChar(c))
    && (forall i :: 0 <= i < |cuts| ==> forall c :: c in cuts[i].gap ==> !WordChar(c))
    && (forall i :: 0 <= i < |cuts| - 1 ==> cuts[i].gap != "")
  }

  function Glued(lead: string, cuts: seq<Cut>): string {
    if cuts == [] then lead
    else Glued(lead, cuts[..|cuts| - 1]) + cuts[|cuts| - 1].word + cuts[|cuts| - 1].gap
  }

  function Small(c: char): char { if 'A' <= c <= 'Z' then c - 'A' + 'a' else c }

  function Lowered(s: string): (r: string)
    ensures |r| == |s|
  {
    seq(|s|, i requires 0 <= i < |s| => Small(s[i]))
  }

  lemma LoweredOneMore(s: string, c: char)
    ensures Lowered(s + [c]) == Lowered(s) + [Small(c)]
  {
  }

  /** The words in lower case, with a hyphen between each and the next. */
  function Joined(cuts: seq<Cut>): string {
    if cuts == [] then ""
    else
      var front := Joined(cuts[..|cuts| - 1]);
      (if |cuts| == 1 then "" else front + "-") + Lowered(cuts[|cuts| - 1].word)
  }

  lemma {:induction false} JoinedEndsInWord(cuts: seq<Cut>)
    requires cuts != [] && WellCut("", cuts)
    ensures Joined(cuts) != "" && Joined(cuts)[|Joined(cuts)| - 1] != '-'
  {
    var word := cuts[|cuts| - 1].word;
    assert word[|word| - 1] in word;
    assert Lowered(word)[|word| - 1] != '-';
  }

  lemma HyphenatedOneMore(s: string, c: char)
    ensures var h := Hyphenated(s);
      Hyphenated(s + [c]) ==
        if WordChar(c) then h + [Small(c)]
        else if h == "" || h[|h| - 1] == '-' then h else h + "-"
  {
    assert (s + [c])[..|s|] == s;
  }

  lemma HyphenatedLongerWord(s: string, front: string, c: char)
    requires WordChar(c) && Hyphenated(s + front) == Hyphenated(s) + Lowered(front)
    ensures Hyphenated(s + (front + [c])) == Hyphenated(s) + Lowered(front + [c])
  {
    hide Hyphenated, WordChar, Small, Lowered;
    HyphenatedOneMore(s + front, c);
    LoweredOneMore(front, c);
    assert s + (front + [c]) == s + front + [c];
  }

  lemma {:induction false} HyphenatedWord(s: string, word: string)
    requires forall c :: c in word ==> WordChar(c)
    ensures Hyphenated(s + word) == Hyphenated(s) + Lowered(word)
  {
    if word == "" {
      assert s + word == s && Hyphenated(s) + Lowered(word) == Hyphenated(s);
    } else {
      hide Hyphenated, WordChar, Lowered;
      var front, c := word[..|word| - 1], word[|word| - 1];
      HyphenatedWord(s, front);
      HyphenatedLongerWord(s, front, c);
      assert word == front + [c];
    }
  }

  lemma {:induction false} HyphenatedGap(s: string, gap: string)
    requires forall c :: c in gap ==> !WordChar(c)
    ensures var h := Hyphenated(s);
      Hyphenated(s + gap) == if gap == "" || h == "" || h[|h| - 1] == '-' then h else h + "-"
  {
    if gap == "" {
      assert s + gap == s;
    } else {
      HyphenatedGap(s, gap[..|gap| - 1]);
      hide Hyphenated, WordChar;
      HyphenatedOneMore(s + gap[..|gap| - 1], gap[|gap| - 1]);
      assert s + gap[..|gap| - 1] + [gap[|gap| - 1]] == s + gap;
    }
  }

  lemma HyphenatedCut(s: string, cut: Cut)
    requires cut.word != "" && (forall c :: c in cut.word ==> WordChar(c)) && forall c :: c in cut.gap ==> !WordChar(c)
    ensures Hyphenated(s + cut.word + cut.gap) ==
      Hyphenated(s) + Lowered(cut.word) + if cut.gap == "" then "" else "-"
  {
    hide Hyphenated;
    HyphenatedWord(s, cut.word);
    HyphenatedGap(s + cut.word, cut.gap);
    var w := cut.word;
    assert w[|w| - 1] in w && Lowered(w)[|w| - 1] != '-';
  }

  lemma {:induction false} HyphenatedCuts(lead: string, cuts: seq<Cut>)
    requires WellCut(lead, cuts)
    ensures Hyphenated(Glued(lead, cuts)) ==
      Joined(cuts) + (if cuts == [] || cuts[|cuts| - 1].gap == "" then "" else "-")
  {
    if cuts == [] {
      HyphenatedGap("", lead);
      assert "" + lead == lead;
    } else {
      hide Hyphenated, Lowered, WordChar;
      var front, last := cuts[..|cuts| - 1], cuts[|cuts| - 1];
      HyphenatedCuts(lead, front);
      HyphenatedCut(Glued(lead, front), last);
      assert front == [] ==> Joined(front) == "";
    }
  }

  /** A slug is the words of the name in lower case, joined by single hyphens. */
  lemma SlugIsTheWords(lead: string, cuts: seq<Cut>)
    requires WellCut(lead, cuts)
    ensures Parameterize(Glued(lead, cuts)) == Joined(cuts)
  {
    HyphenatedCuts(lead, cuts);
    if cuts != [] { JoinedEndsInWord(cuts); }
  }

  /** One more character makes the last word longer, or the gap after it, or begins a word. */
  function Extended(cuts: seq<Cut>, c: char): seq<Cut>
    requires cuts != [] || WordChar(c)
  {
    if cuts == [] then [Cut([c], "")]
    else
      var front, last := cuts[..|cuts| - 1], cuts[|cuts| - 1];
      if !WordChar(c) then front + [Cut(last.word, last.gap + [c])]
      else if last.gap == "" then front + [Cut(last.word + [c], "")]
      else cuts + [Cut([c], "")]
  }

  lemma ExtendedIsWellCut(lead: string, cuts: seq<Cut>, c: char)
    requires WellCut(lead, cuts) && (cuts != [] || WordChar(c))
    ensures WellCut(lead, Extended(cuts, c))
  {
    hide WordChar;
  }

  lemma ExtendedIsGlued(lead: string, cuts: seq<Cut>, c: char)
    requires cuts != [] || WordChar(c)
    ensures Glued(lead, Extended(cuts, c)) == Glued(lead, cuts) + [c]
  {
    var more := Extended(cuts, c);
    if cuts == [] {
      assert more[..0] == [];
    } else {
      assert more[..|more| - 1] == if |more| > |cuts| then cuts else cuts[..|cuts| - 1];
    }
  }

  /** Every text can be cut up so. */
  lemma {:induction false} EveryTextIsCut(s: string) returns (lead: string, cuts: seq<Cut>)
    ensures WellCut(lead, cuts) && Glued(lead, cuts) == s
  {
    if s == "" {
      lead, cuts := "", [];
    } else {
      var c := s[|s| - 1];
      assert s == s[..|s| - 1] + [c];
      lead, cuts := EveryTextIsCut(s[..|s| - 1]);
      if cuts == [] && !WordChar(c) {
        lead := lead + [c];
      } else {
        hide Glued, WellCut, Extended;
        ExtendedIsWellCut(lead, cuts, c);
        ExtendedIsGlued(lead, cuts, c);
        cuts := Extended(cuts, c);
      }
    }
  }

  lemma {:induction false} JoinedBeginsWithFirst(lead: string, cuts: seq<Cut>)
    requires WellCut(lead, cuts)
    ensures if cuts == [] then Joined(cuts) == "" else Joined(cuts) != "" && Joined(cuts)[0] == Small(cuts[0].word[0])
  {
    if |cuts| > 1 { JoinedBeginsWithFirst(lead, cuts[..|cuts| - 1]); }
  }

  lemma KindsAreTheirOwnSlug(kind: string)
    requires Label(kind).Some?
    ensures kind != "" && Parameterize(kind) == kind
  {
    KindsAreLetters(kind);
    hide Label;
    HyphenatedKeepsSlugText(kind);
  }

  /**
   The base of a slug is the words of the name when the first begins with a letter; otherwise the
   kind stands in front, and alone when the name has no word at all.
   */
  lemma BaseIsTheWords(lead: string, cuts: seq<Cut>, kind: string)
    requires WellCut(lead, cuts) && Label(kind).Some?
    ensures SlugBase(Glued(lead, cuts), kind) ==
      if cuts == [] then kind
      else if 'A' <= cuts[0].word[0] <= 'Z' || 'a' <= cuts[0].word[0] <= 'z' then Joined(cuts)
      else kind + "-" + Joined(cuts)
  {
    hide Joined, Glued, Hyphenated, Parameterize, Label;
    SlugIsTheWords(lead, cuts);
    KindsAreTheirOwnSlug(kind);
    JoinedBeginsWithFirst(lead, cuts);
    assert cuts != [] ==> cuts[0].word[0] in cuts[0].word;
  }

  /** In particular a name of letters alone is its own base, in lower case. */
  lemma LettersAreTheirOwnBase(name: string, kind: string)
    requires name != "" && Label(kind).Some?
    requires forall c :: c in name ==> 'A' <= c <= 'Z' || 'a' <= c <= 'z'
    ensures SlugBase(name, kind) == Lowered(name)
  {
    var cuts := [Cut(name, "")];
    assert Glued("", []) == "" && Joined([]) == "" && cuts[..0] == [];
    assert Glued("", cuts) == name && Joined(cuts) == Lowered(name);
    assert name[0] in name;
    hide Lowered, Label;
    BaseIsTheWords("", cuts, kind);
  }

  lemma DefaultOutputIsWebsite()
    ensures SlugBase("Website", "website") == "website"
  {
    LettersAreTheirOwnBase("Website", "website");
  }

  // ---- Names ----

  /** Lower case, letter by letter. */
  lemma DowncaseIsLowered(s: string)
    ensures Downcase(s) == Lowered(s)
  {
  }

  predicate Whitespace(c: char) { c in {' ', '\t', '\n', '\U{0B}', '\U{0C}', '\r', '\0'} }

  lemma StrippableIsWhitespace()
    ensures forall c :: Strippable(c) <==> Whitespace(c)
  {
  }

  lemma {:induction false} StripLeftTakesOff(s: string) returns (before: string)
    ensures s == before + StripLeft(s) && forall c :: c in before ==> Whitespace(c)
    ensures StripLeft(s) != "" ==> !Whitespace(StripLeft(s)[0])
  {
    StrippableIsWhitespace();
    hide Strippable, Whitespace;
    if s != "" && Strippable(s[0]) {
      before := StripLeftTakesOff(s[1..]);
      before := [s[0]] + before;
    } else {
      before := "";
    }
  }

  lemma {:induction false} StripRightTakesOff(s: string) returns (after: string)
    ensures s == StripRight(s) + after && forall c :: c in after ==> Whitespace(c)
    ensures var t := StripRight(s); t != "" ==> !Whitespace(t[|t| - 1])
  {
    StrippableIsWhitespace();
    hide Strippable, Whitespace;
    if s != "" && Strippable(s[|s| - 1]) {
      var rest := StripRightTakesOff(s[..|s| - 1]);
      after := rest + [s[|s| - 1]];
      assert s == s[..|s| - 1] + [s[|s| - 1]];
    } else {
      after := "";
    }
  }

  /** `strip` takes whitespace off both ends, as much as there is, and nothing else. */
  lemma StripTakesOff(s: string) returns (before: string, after: string)
    ensures s == before + Strip(s) + after && forall c :: c in before + after ==> Whitespace(c)
    ensures Strip(s) != "" ==> !Whitespace(Strip(s)[0]) && !Whitespace(Strip(s)[|Strip(s)| - 1])
  {
    before := StripLeftTakesOff(s);
    after := StripRightTakesOff(StripLeft(s));
    assert Strip(s) != "" ==> Strip(s)[0] == StripLeft(s)[0];
  }

  function ValueOf(digits: string): int {
    if digits == "" then 0 else 10 * ValueOf(digits[..|digits| - 1]) + (digits[|digits| - 1] as int - '0' as int)
  }

  /** A suffix is the number in decimal, without leading zeros. */
  lemma {:induction false} DecimalReadsBack(n: nat)
    ensures ValueOf(Decimal(n)) == n
    ensures Decimal(n)[0] == '0' ==> n == 0
    ensures forall c :: c in Decimal(n) ==> '0' <= c <= '9'
  {
    if n >= 10 {
      DecimalReadsBack(n / 10);
      assert Decimal(n)[..|Decimal(n)| - 1] == Decimal(n / 10);
    } else {
      assert Decimal(n)[..0] == "";
    }
  }

  /** A slug is its base, or the base with the least number from 2 on that gives a free one. */
  lemma FirstFreeSlug(base: string, taken: set<string>) returns (k: nat)
    ensures var slug := FirstFree(base, "-", taken);
      && slug !in taken
      && (base !in taken ==> slug == base)
      && (base in taken ==> k >= 2 && slug == base + "-" + Decimal(k))
      && (base in taken ==> forall j :: 2 <= j < k ==> base + "-" + Decimal(j) in taken)
  {
    k := FreeFrom(base, "-", taken, 1);
    assert base == Suffixed(base, "-", 1);
    forall j | 2 <= j < k ensures base + "-" + Decimal(j) in taken {
      assert Suffixed(base, "-", j) in taken;
    }
  }

  /** The same for a name made up for an output without one, which is compared in lower case. */
  lemma FirstFreeNameSays(base: string, taken: set<string>) returns (k: nat)
    ensures var name := FirstFreeName(base, taken);
      && Lowered(name) !in taken
      && (Lowered(base) !in taken ==> name == base)
      && (Lowered(base) in taken ==> k >= 2 && name == base + " " + Decimal(k))
      && (Lowered(base) in taken ==> forall j :: 2 <= j < k ==> Lowered(base + " " + Decimal(j)) in taken)
  {
    k := FreeFrom(Downcase(base), " ", taken, 1);
    forall j | 1 <= j <= k ensures Lowered(Suffixed(base, " ", j)) == Suffixed(Downcase(base), " ", j) {
      DowncaseOfSuffixed(base, j);
      DowncaseIsLowered(Suffixed(base, " ", j));
    }
    assert base == Suffixed(base, " ", 1);
    hide Downcase, Lowered;
    forall j | 2 <= j < k ensures Lowered(base + " " + Decimal(j)) in taken {
      assert Lowered(Suffixed(base, " ", j)) in taken;
    }
  }

  /** `REF_REGEX`: a letter or an underscore, then letters, digits, underscores and hyphens. */
  lemma LegalExactlyWhen(s: string)
    ensures Legal(s) <==>
      s != "" && WordChar(s[0]) && !('0' <= s[0] <= '9') && forall c :: c in s ==> WordChar(c) || c == '-'
  {
    if forall c :: c in s ==> WordChar(c) || c == '-' {
      forall i | 0 <= i < |s| ensures WordChar(s[i]) || s[i] == '-' { assert s[i] in s; }
    }
  }

  // ---- Adding an output ----

  /** What becomes of an output that is added: refused, or there under the name and slug it was given. */
  lemma AddingGives(l: Listing, name: string, kind: string)
    requires Sound(l)
    ensures var clash := exists i :: i in l.rows && Lowered(l.rows[i].name) == Lowered(Strip(name));
      var offered := if l.slideshow then {"revealjs", "beamer"}
                     else {"website", "scorm", "pdf", "epub", "kindle", "braille", "latex"};
      if kind in offered && (Strip(name) == "" || !clash) then
        var o := Added(l, name, kind).rows;
        && Label(kind).Some? && l.nextId in o && o - {l.nextId} == l.rows && o[l.nextId].kind == kind
        && (Strip(name) != "" ==> o[l.nextId].name == Strip(name))
        && (Strip(name) == "" ==> o[l.nextId].name == FirstFreeName(Label(kind).value, Names(l.rows)))
        && o[l.nextId].slug == FirstFree(SlugBase(o[l.nextId].name, kind), "-", Slugs(l.rows))
      else Added(l, name, kind) == l
  {
    hide SlugBase, FirstFree, FirstFreeName, Slugs, Names, Strip, Addable, Legal, Lowered, Label;
    AddableExactlyWhen(l, name, kind);
    if Addable(l, name, kind) {
      AddableIsLabelled(l, name, kind);
      var o := Added(l, name, kind).rows;
      assert o - {l.nextId} == l.rows;
    }
  }

  lemma AddableIsLabelled(l: Listing, name: string, kind: string)
    requires Addable(l, name, kind)
    ensures Label(kind).Some?
  {
  }

  lemma AddableExactlyWhen(l: Listing, name: string, kind: string)
    ensures var clash := exists i :: i in l.rows && Lowered(l.rows[i].name) == Lowered(Strip(name));
      var offered := if l.slideshow then {"revealjs", "beamer"}
                     else {"website", "scorm", "pdf", "epub", "kindle", "braille", "latex"};
      Addable(l, name, kind) <==> kind in offered && (Strip(name) == "" || !clash)
  {
    OfferedExactly(kind, l.slideshow);
    hide Label, Buildable, Strip, Downcase, Lowered;
    DowncaseIsLowered(Strip(name));
    forall i | i in l.rows ensures Downcase(l.rows[i].name) == Lowered(l.rows[i].name) {
      DowncaseIsLowered(l.rows[i].name);
    }
    assert Downcase(Strip(name)) in Names(l.rows) <==>
           exists i :: i in l.rows && Lowered(l.rows[i].name) == Lowered(Strip(name));
  }

  /** Renaming, unless to nothing or to the name of another output up to case, changes the name and nothing else. */
  lemma RenamingGives(l: Listing, id: OutputId, name: string)
    ensures var clash := exists i :: i in l.rows && i != id && Lowered(l.rows[i].name) == Lowered(Strip(name));
      if id in l.rows && Strip(name) != "" && !clash
      then Renamed(l, id, name) == l.(rows := l.rows[id := l.rows[id].(name := Strip(name))])
      else Renamed(l, id, name) == l
  {
    hide Strip, Downcase, Lowered;
    DowncaseIsLowered(Strip(name));
    forall i | i in l.rows ensures Downcase(l.rows[i].name) == Lowered(l.rows[i].name) {
      DowncaseIsLowered(l.rows[i].name);
    }
  }

  lemma OfferedExactly(kind: string, slideshow: bool)
    ensures Buildable(kind, slideshow) <==>
      kind in if slideshow then {"revealjs", "beamer"}
              else {"website", "scorm", "pdf", "epub", "kindle", "braille", "latex"}
  {
  }

  /** Two kinds are never called the same, so outputs of different kinds added without a name do not clash. */
  lemma LabelsDiffer(kind: string, other: string)
    requires Label(kind).Some? && Label(other).Some? && kind != other
    ensures Lowered(Label(kind).value) != Lowered(Label(other).value)
  {
    var a, b := Label(kind).value, Label(other).value;
    assert |a| == |b| ==> a != "" && Small(a[0]) != Small(b[0]);
    hide Label;
    assert |a| == |b| ==> Lowered(a)[0] == Small(a[0]) && Lowered(b)[0] == Small(b[0]);
  }
}
