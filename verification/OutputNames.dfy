/**
 How a project's outputs get their names and slugs. The name is the author's and may be changed;
 the slug goes into URLs and downloaded copies, so it is derived once, by searching for the first
 free suffix, and then left alone.

 Text is ASCII: a character outside it counts as punctuation.
 */
module OutputNames {
  import opened Options

  // ---- Characters ----

  predicate LowerCase(c: char) { 'a' <= c <= 'z' }
  predicate UpperCase(c: char) { 'A' <= c <= 'Z' }
  predicate Digit(c: char) { '0' <= c <= '9' }
  /** What `strip` takes off. */
  predicate Strippable(c: char) { c == ' ' || '\t' <= c <= '\r' || c == '\0' }

  function DowncaseChar(c: char): char { if UpperCase(c) then c + 32 as char else c }

  function Downcase(s: string): (r: string)
    ensures |r| == |s|
  {
    seq(|s|, i requires 0 <= i < |s| => DowncaseChar(s[i]))
  }

  function StripLeft(s: string): string
  {
    if s != "" && Strippable(s[0]) then StripLeft(s[1..]) else s
  }

  function StripRight(s: string): string
  {
    if s != "" && Strippable(s[|s| - 1]) then StripRight(s[..|s| - 1]) else s
  }

  function Strip(s: string): string { StripRight(StripLeft(s)) }

  /** `REF_REGEX`: what PreTeXt accepts as a target name. */
  predicate Legal(s: string) {
    && s != ""
    && (LowerCase(s[0]) || UpperCase(s[0]) || s[0] == '_')
    && forall i :: 0 <= i < |s| ==> LowerCase(s[i]) || UpperCase(s[i]) || Digit(s[i]) || s[i] == '-' || s[i] == '_'
  }

  // ---- `parameterize` ----

  function SlugChar(c: char): char {
    if UpperCase(c) then DowncaseChar(c) else if LowerCase(c) || Digit(c) || c == '_' then c else '-'
  }

  /** Lower case, one hyphen for each run of anything else, none at the start. */
  function Hyphenated(s: string): (r: string)
  {
    if s == "" then ""
    else
      var front, c := Hyphenated(s[..|s| - 1]), SlugChar(s[|s| - 1]);
      if c == '-' && (front == "" || front[|front| - 1] == '-') then front else front + [c]
  }

  function Parameterize(s: string): string {
    var h := Hyphenated(s);
    if h != "" && h[|h| - 1] == '-' then h[..|h| - 1] else h
  }

  predicate SlugText(s: string) {
    && (forall i :: 0 <= i < |s| ==> LowerCase(s[i]) || Digit(s[i]) || s[i] == '-' || s[i] == '_')
    && (forall i :: 0 < i < |s| ==> !(s[i - 1] == '-' && s[i] == '-'))
    && (s != "" ==> s[0] != '-')
  }

  lemma {:induction false} HyphenatedIsSlugText(s: string)
    ensures SlugText(Hyphenated(s))
  {
    if s != "" { HyphenatedIsSlugText(s[..|s| - 1]); }
  }

  lemma ParameterizeIsSlugText(s: string)
    ensures SlugText(Parameterize(s))
    ensures Parameterize(s) != "" ==> Parameterize(s)[|Parameterize(s)| - 1] != '-'
  {
    HyphenatedIsSlugText(s);
  }

  /** Text that is a slug already stays as it is. */
  lemma {:induction false} HyphenatedKeepsSlugText(s: string)
    requires SlugText(s)
    ensures Hyphenated(s) == s
  {
    if s != "" {
      var front := s[..|s| - 1];
      HyphenatedKeepsSlugText(front);
      assert s == front + [s[|s| - 1]];
    }
  }

  // ---- The suffix search ----

  function Decimal(n: nat): (r: string)
    ensures r != "" && forall i :: 0 <= i < |r| ==> Digit(r[i])
    ensures n >= 10 ==> |r| > 1
    ensures n < 10 ==> |r| == 1
  {
    if n < 10 then ['0' + n as char] else Decimal(n / 10) + ['0' + (n % 10) as char]
  }

  lemma {:induction false} DecimalIsInjective(m: nat, n: nat)
    requires Decimal(m) == Decimal(n)
    ensures m == n
  {
    if m >= 10 {
      var a, b := Decimal(m), Decimal(n);
      assert a[..|a| - 1] == Decimal(m / 10) && b[..|b| - 1] == Decimal(n / 10);
      DecimalIsInjective(m / 10, n / 10);
      assert a[|a| - 1] == b[|b| - 1];
    }
  }

  /** The `k`th candidate: the base itself, then `base-2`, `base-3` ... */
  function Suffixed(base: string, sep: string, k: nat): string {
    if k <= 1 then base else base + sep + Decimal(k)
  }

  lemma SuffixedIsInjective(base: string, sep: string, j: nat, k: nat)
    requires 1 <= j && 1 <= k && Suffixed(base, sep, j) == Suffixed(base, sep, k)
    ensures j == k
  {
    if j > 1 && k > 1 {
      assert Decimal(j) == Suffixed(base, sep, j)[|base + sep|..];
      assert Decimal(k) == Suffixed(base, sep, k)[|base + sep|..];
      DecimalIsInjective(j, k);
    }
  }

  ghost predicate TakenBelow(base: string, sep: string, taken: set<string>, k: nat) {
    forall j :: 1 <= j < k ==> Suffixed(base, sep, j) in taken
  }

  function Tried(base: string, sep: string, k: nat): set<string> {
    if k <= 1 then {} else Tried(base, sep, k - 1) + {Suffixed(base, sep, k - 1)}
  }

  lemma {:induction false} TriedAreDistinct(base: string, sep: string, taken: set<string>, k: nat)
    requires 1 <= k && TakenBelow(base, sep, taken, k)
    ensures Tried(base, sep, k) <= taken && |Tried(base, sep, k)| == k - 1
    ensures forall s :: s in Tried(base, sep, k) ==> exists j :: 1 <= j < k && s == Suffixed(base, sep, j)
  {
    if k > 1 {
      TriedAreDistinct(base, sep, taken, k - 1);
      var last := Suffixed(base, sep, k - 1);
      if last in Tried(base, sep, k - 1) {
        var j :| 1 <= j < k - 1 && last == Suffixed(base, sep, j);
        SuffixedIsInjective(base, sep, j, k - 1);
      }
    }
  }

  lemma {:induction false} SubsetIsSmaller(a: set<string>, b: set<string>)
    requires a <= b
    ensures |a| <= |b|
  {
    if a != {} {
      var x :| x in a;
      SubsetIsSmaller(a - {x}, b - {x});
    }
  }

  /** With n texts taken, one of the first n + 1 candidates is free. */
  lemma Pigeonhole(base: string, sep: string, taken: set<string>, k: nat)
    requires 1 <= k && TakenBelow(base, sep, taken, k)
    ensures k <= |taken| + 1
  {
    TriedAreDistinct(base, sep, taken, k);
    SubsetIsSmaller(Tried(base, sep, k), taken);
  }

  /** The least candidate number from `k` on that is free. */
  ghost function FreeFrom(base: string, sep: string, taken: set<string>, k: nat): (r: nat)
    requires 1 <= k && TakenBelow(base, sep, taken, k)
    ensures k <= r <= |taken| + 1
    ensures Suffixed(base, sep, r) !in taken && TakenBelow(base, sep, taken, r)
    decreases |taken| + 1 - k
  {
    Pigeonhole(base, sep, taken, k);
    if Suffixed(base, sep, k) !in taken then k
    else
      Pigeonhole(base, sep, taken, k + 1);
      FreeFrom(base, sep, taken, k + 1)
  }

  /** The least suffixed form of `base` that is not taken. */
  ghost function FirstFree(base: string, sep: string, taken: set<string>): string {
    Suffixed(base, sep, FreeFrom(base, sep, taken, 1))
  }

  /** The same over names, which are compared in lower case. */
  ghost function FirstFreeName(base: string, taken: set<string>): string {
    Suffixed(base, " ", FreeFrom(Downcase(base), " ", taken, 1))
  }

  lemma LeastIsFirstFree(base: string, sep: string, taken: set<string>, k: nat)
    requires 1 <= k && TakenBelow(base, sep, taken, k) && Suffixed(base, sep, k) !in taken
    ensures FreeFrom(base, sep, taken, 1) == k
  {
    var r := FreeFrom(base, sep, taken, 1);
    assert TakenBelow(base, sep, taken, r);
  }

  lemma DowncaseOfSuffixed(base: string, k: nat)
    ensures Downcase(Suffixed(base, " ", k)) == Suffixed(Downcase(base), " ", k)
  {
    assert Downcase(Suffixed(base, " ", k)) == Suffixed(Downcase(base), " ", k);
  }

  /** The loop of `assign_slug`. */
  method SearchSlug(base: string, taken: set<string>) returns (slug: string)
    ensures slug == FirstFree(base, "-", taken) && slug !in taken
  {
    slug := base;
    var suffix := 2;
    while slug in taken
      invariant suffix >= 2 && slug == Suffixed(base, "-", suffix - 1)
      invariant TakenBelow(base, "-", taken, suffix - 1)
      decreases |taken| + 2 - suffix
    {
      Pigeonhole(base, "-", taken, suffix);
      slug := base + "-" + Decimal(suffix);
      suffix := suffix + 1;
    }
    LeastIsFirstFree(base, "-", taken, suffix - 1);
  }

  /** The loop of `generate_default_name`; `taken` holds the names in lower case. */
  method SearchName(base: string, taken: set<string>) returns (name: string)
    ensures name == FirstFreeName(base, taken) && Downcase(name) !in taken
  {
    name := base;
    var suffix := 2;
    ghost var low := Downcase(base);
    DowncaseOfSuffixed(base, 1);
    while Downcase(name) in taken
      invariant suffix >= 2 && name == Suffixed(base, " ", suffix - 1)
      invariant Downcase(name) == Suffixed(low, " ", suffix - 1)
      invariant TakenBelow(low, " ", taken, suffix - 1)
      decreases |taken| + 2 - suffix
    {
      Pigeonhole(low, " ", taken, suffix);
      name := base + " " + Decimal(suffix);
      DowncaseOfSuffixed(base, suffix);
      suffix := suffix + 1;
    }
    LeastIsFirstFree(low, " ", taken, suffix - 1);
  }

  // ---- The catalogue ----

  /** What PreTeXt.Plus can build, and what it calls it. */
  function Label(kind: string): Option<string> {
    match kind
    case "website" => Some("Website")
    case "scorm" => Some("SCORM package (for an LMS)")
    case "pdf" => Some("PDF")
    case "epub" => Some("EPUB")
    case "kindle" => Some("Kindle")
    case "braille" => Some("Braille")
    case "revealjs" => Some("Slides (reveal.js)")
    case "beamer" => Some("Slides (Beamer PDF)")
    case "latex" => Some("LaTeX source")
    case _ => None
  }

  /** Slides are made only from a slideshow, and a slideshow makes nothing else. */
  predicate Buildable(kind: string, slideshow: bool) {
    Label(kind).Some? && (kind in {"revealjs", "beamer"} <==> slideshow)
  }
}
