/**
 The publication file: the options chosen at three levels are merged, each is written as an
 attribute at its element path on top of what every file starts from, and the paths are nested
 into one tree before it is written out.

 A Ruby hash keeps its keys in insertion order, so the hashes whose order reaches the file are
 sequences here. Attributes of one element are a map.
 */
module PublicationFile {
  import opened Options

  type Path = seq<string>
  type Attributes = map<string, string>

  // ---- Choosing: account, project, output ----

  datatype Choice = Choice(key: string, value: string)

  /** An entry of the catalogue: where the option is written, and whether only subscribers get it. */
  datatype Placement = Placement(element: Path, attribute: string, subscriberOnly: bool)

  type Catalog = map<string, Placement>

  function ChosenIn(choices: seq<Choice>, key: string): Option<string> {
    if choices == [] then None
    else if choices[|choices| - 1].key == key then Some(choices[|choices| - 1].value)
    else ChosenIn(choices[..|choices| - 1], key)
  }

  predicate DistinctKeys(choices: seq<Choice>) {
    forall i, j :: 0 <= i < j < |choices| ==> choices[i].key != choices[j].key
  }

  /** `hash[key] = value`: a key keeps its place, a new one goes last. */
  function Assigned(choices: seq<Choice>, c: Choice): (r: seq<Choice>)
    ensures |r| >= |choices|
    ensures forall i :: 0 <= i < |choices| ==> r[i].key == choices[i].key
    ensures |r| == |choices|
      || (|r| == |choices| + 1 && r[|choices|].key == c.key && forall x :: x in choices ==> x.key != c.key)
  {
    if choices == [] then [c]
    else if choices[0].key == c.key then [c] + choices[1..]
    else [choices[0]] + Assigned(choices[1..], c)
  }

  lemma {:induction false} AssignedChoice(choices: seq<Choice>, c: Choice, key: string)
    requires DistinctKeys(choices)
    ensures DistinctKeys(Assigned(choices, c))
    ensures ChosenIn(Assigned(choices, c), key) == if key == c.key then Some(c.value) else ChosenIn(choices, key)
  {
    if choices != [] {
      var first, rest := choices[0], choices[1..];
      assert choices == [first] + rest;
      ChosenAfterFirst(first, rest, key);
      if first.key == c.key {
        ChosenAfterFirst(c, rest, key);
        NotChosen(rest, c.key);
      } else {
        var later := Assigned(rest, c);
        assert Assigned(choices, c) == [first] + later;
        AssignedChoice(rest, c, key);
        ChosenAfterFirst(first, later, key);
        hide ChosenIn, Assigned;
      }
    }
  }

  lemma {:induction false} ChosenAfterFirst(c: Choice, rest: seq<Choice>, key: string)
    ensures ChosenIn([c] + rest, key) ==
      if ChosenIn(rest, key).Some? then ChosenIn(rest, key) else if c.key == key then Some(c.value) else None
  {
    if rest != [] {
      assert ([c] + rest)[..|rest|] == [c] + rest[..|rest| - 1];
      ChosenAfterFirst(c, rest[..|rest| - 1], key);
    }
  }

  lemma {:induction false} NotChosen(choices: seq<Choice>, key: string)
    requires forall i :: 0 <= i < |choices| ==> choices[i].key != key
    ensures ChosenIn(choices, key) == None
  {
    if choices != [] { NotChosen(choices[..|choices| - 1], key); }
  }

  /** `Hash#merge` */
  function Merged(base: seq<Choice>, over: seq<Choice>): seq<Choice> {
    if over == [] then base else Assigned(Merged(base, over[..|over| - 1]), over[|over| - 1])
  }

  lemma {:induction false} MergeOverrides(base: seq<Choice>, over: seq<Choice>, key: string)
    requires DistinctKeys(base)
    ensures DistinctKeys(Merged(base, over))
    ensures ChosenIn(Merged(base, over), key) ==
      if ChosenIn(over, key).Some? then ChosenIn(over, key) else ChosenIn(base, key)
  {
    if over != [] {
      var front := over[..|over| - 1];
      MergeOverrides(base, front, key);
      AssignedChoice(Merged(base, front), over[|over| - 1], key);
    }
  }

  predicate Withheld(catalog: Catalog, subscriber: bool, key: string) {
    !subscriber && key in catalog && catalog[key].subscriberOnly
  }

  function Allowed(catalog: Catalog, subscriber: bool, choices: seq<Choice>): seq<Choice> {
    if choices == [] then []
    else
      var c := choices[|choices| - 1];
      Allowed(catalog, subscriber, choices[..|choices| - 1])
      + if Withheld(catalog, subscriber, c.key) then [] else [c]
  }

  function MergedLevels(levels: seq<seq<Choice>>): seq<Choice> {
    if levels == [] then [] else Merged(MergedLevels(levels[..|levels| - 1]), levels[|levels| - 1])
  }

  /** `Settings#effective`, the levels in order from the account down. */
  function Effective(catalog: Catalog, subscriber: bool, levels: seq<seq<Choice>>): seq<Choice> {
    Allowed(catalog, subscriber, MergedLevels(levels))
  }

  /** What the lowest level that says anything about `key` says. */
  function LowestSaying(levels: seq<seq<Choice>>, key: string): Option<string> {
    if levels == [] then None
    else
      var here := ChosenIn(levels[|levels| - 1], key);
      if here.Some? then here else LowestSaying(levels[..|levels| - 1], key)
  }

  lemma {:induction false} MergedLevelsSay(levels: seq<seq<Choice>>, key: string)
    ensures DistinctKeys(MergedLevels(levels))
    ensures ChosenIn(MergedLevels(levels), key) == LowestSaying(levels, key)
  {
    if levels != [] {
      MergedLevelsSay(levels[..|levels| - 1], key);
      MergeOverrides(MergedLevels(levels[..|levels| - 1]), levels[|levels| - 1], key);
    }
  }

  lemma {:induction false} AllowedChoice(catalog: Catalog, subscriber: bool, choices: seq<Choice>, key: string)
    ensures ChosenIn(Allowed(catalog, subscriber, choices), key) ==
      if Withheld(catalog, subscriber, key) then None else ChosenIn(choices, key)
  {
    if choices != [] {
      var c, before := choices[|choices| - 1], Allowed(catalog, subscriber, choices[..|choices| - 1]);
      AllowedChoice(catalog, subscriber, choices[..|choices| - 1], key);
      assert (before + [c])[..|before|] == before && before + [] == before;
    }
  }

  /** A level says `value` of `key` when its last assignment to it does. */
  lemma {:induction false} ChosenExactlyWhen(choices: seq<Choice>, key: string, value: string)
    ensures ChosenIn(choices, key) == Some(value) <==>
      exists i :: 0 <= i < |choices| && choices[i] == Choice(key, value)
                  && forall j :: i < j < |choices| ==> choices[j].key != key
  {
    if choices != [] {
      var front, last := choices[..|choices| - 1], choices[|choices| - 1];
      ChosenExactlyWhen(front, key, value);
      assert forall i :: 0 <= i < |front| ==> choices[i] == front[i];
      if last.key == key { assert last == choices[|choices| - 1]; }
    }
  }

  /** Of the levels that say anything of a key the lowest is heeded. */
  lemma {:induction false} LowestLevelSays(levels: seq<seq<Choice>>, key: string, value: string)
    ensures LowestSaying(levels, key) == Some(value) <==>
      exists i :: 0 <= i < |levels| && ChosenIn(levels[i], key) == Some(value)
                  && forall j :: i < j < |levels| ==> ChosenIn(levels[j], key) == None
  {
    if levels != [] {
      var front, last := levels[..|levels| - 1], levels[|levels| - 1];
      LowestLevelSays(front, key, value);
      assert forall i :: 0 <= i < |front| ==> levels[i] == front[i];
      if ChosenIn(last, key).Some? { assert last == levels[|levels| - 1]; }
    }
  }

  lemma EffectiveChoice(catalog: Catalog, subscriber: bool, levels: seq<seq<Choice>>, key: string)
    ensures ChosenIn(Effective(catalog, subscriber, levels), key) ==
      if Withheld(catalog, subscriber, key) then None else LowestSaying(levels, key)
  {
    MergedLevelsSay(levels, key);
    AllowedChoice(catalog, subscriber, MergedLevels(levels), key);
  }

  // ---- Placing: element path to attributes ----

  /** The attributes of one element path. */
  datatype Placed = Placed(path: Path, attributes: Attributes)

  const EMPTY_MARKER := "(none)"

  /** `Option#written_value` */
  function WrittenValue(value: string): string { if value == EMPTY_MARKER then "" else value }

  /** One attribute to write. */
  datatype Writing = Writing(path: Path, attribute: string, value: string)

  const BASE: seq<Placed> := [
    Placed(["source", "directories"], map["external" := "external", "generated" := "generated"]),
    Placed(["html", "resources"], map["host" := "cdn"]),
    Placed(["html", "brandlogo"], map["source" := "pretext-plus/icon.svg", "url" := "https://pretext.plus"])]

  /** `(paths[path] ||= {})[attribute] = value` */
  function Wrote(paths: seq<Placed>, w: Writing): (r: seq<Placed>) {
    if paths == [] then [Placed(w.path, map[w.attribute := w.value])]
    else if paths[0].path == w.path
    then [Placed(w.path, paths[0].attributes[w.attribute := w.value])] + paths[1..]
    else [paths[0]] + Wrote(paths[1..], w)
  }

  function WroteAll(paths: seq<Placed>, ws: seq<Writing>): seq<Placed> {
    if ws == [] then paths else Wrote(WroteAll(paths, ws[..|ws| - 1]), ws[|ws| - 1])
  }

  predicate HasPath(paths: seq<Placed>, path: Path) { exists i :: 0 <= i < |paths| && paths[i].path == path }

  predicate DistinctPaths(paths: seq<Placed>) {
    forall i, j :: 0 <= i < j < |paths| ==> paths[i].path != paths[j].path
  }

  /** All that is to stand at `path`, later entries over earlier ones. */
  function AttributesAt(paths: seq<Placed>, path: Path): Attributes {
    if paths == [] then map[]
    else
      var front, last := AttributesAt(paths[..|paths| - 1], path), paths[|paths| - 1];
      if last.path == path then front + last.attributes else front
  }

  /** What the choices write, the options the catalogue does not know left out. */
  function Writings(catalog: Catalog, choices: seq<Choice>): seq<Writing> {
    if choices == [] then []
    else
      var c := choices[|choices| - 1];
      Writings(catalog, choices[..|choices| - 1])
      + if c.key in catalog
        then [Writing(catalog[c.key].element, catalog[c.key].attribute, WrittenValue(c.value))]
        else []
  }

  /** `attributes_by_path`, on what every file starts from: `BASE` and the applied defaults. */
  function PathsFor(catalog: Catalog, defaults: seq<Writing>, choices: seq<Choice>): seq<Placed> {
    WroteAll(WroteAll(BASE, defaults), Writings(catalog, choices))
  }

  method AttributesByPath(catalog: Catalog, defaults: seq<Writing>, choices: seq<Choice>) returns (paths: seq<Placed>)
    ensures paths == PathsFor(catalog, defaults, choices)
  {
    paths := BASE;
    for i := 0 to |defaults|
      invariant paths == WroteAll(BASE, defaults[..i])
    {
      assert defaults[..i + 1][..i] == defaults[..i];
      paths := Wrote(paths, defaults[i]);
    }
    assert defaults[..|defaults|] == defaults;
    ghost var start := paths;
    for i := 0 to |choices|
      invariant paths == WroteAll(start, Writings(catalog, choices[..i]))
    {
      assert choices[..i + 1][..i] == choices[..i];
      var c := choices[i];
      ghost var before := Writings(catalog, choices[..i]);
      assert before + [] == before;
      if c.key in catalog {
        var option := catalog[c.key];
        var w := Writing(option.element, option.attribute, WrittenValue(c.value));
        assert (before + [w])[..|before|] == before;
        paths := Wrote(paths, w);
      }
    }
    assert choices[..|choices|] == choices;
  }

  /** What stands at a path and attribute after writing: the last value written there, if any was. */
  function LastWritten(ws: seq<Writing>, path: Path, attribute: string): Option<string> {
    if ws == [] then None
    else
      var w := ws[|ws| - 1];
      if w.path == path && w.attribute == attribute then Some(w.value)
      else LastWritten(ws[..|ws| - 1], path, attribute)
  }

  function ValueIn(attributes: Attributes, attribute: string): Option<string> {
    if attribute in attributes then Some(attributes[attribute]) else None
  }

  lemma {:induction false} AttributesAfterFirst(p: Placed, rest: seq<Placed>, path: Path)
    requires !HasPath(rest, p.path)
    ensures AttributesAt([p] + rest, path) == if p.path == path then p.attributes else AttributesAt(rest, path)
  {
    if rest == [] {
      assert AttributesAt([p], path) == if p.path == path then map[] + p.attributes else map[];
    } else {
      assert ([p] + rest)[..|rest|] == [p] + rest[..|rest| - 1];
      assert rest[|rest| - 1].path != p.path;
      AttributesAfterFirst(p, rest[..|rest| - 1], path);
    }
  }

  lemma {:induction false} NothingAt(paths: seq<Placed>, path: Path)
    requires !HasPath(paths, path)
    ensures AttributesAt(paths, path) == map[]
  {
    if paths != [] {
      assert paths[|paths| - 1].path != path;
      NothingAt(paths[..|paths| - 1], path);
    }
  }

  lemma {:induction false} WroteFacts(paths: seq<Placed>, w: Writing, path: Path)
    requires DistinctPaths(paths)
    ensures DistinctPaths(Wrote(paths, w))
    ensures HasPath(Wrote(paths, w), path) <==> HasPath(paths, path) || path == w.path
    ensures AttributesAt(Wrote(paths, w), path) ==
      if path == w.path then AttributesAt(paths, path)[w.attribute := w.value] else AttributesAt(paths, path)
  {
    var r := Wrote(paths, w);
    if paths == [] {
      assert r[0].path == w.path;
      AttributesAfterFirst(r[0], [], path);
      assert r == [r[0]] + [];
    } else {
      var first, rest := paths[0], paths[1..];
      assert paths == [first] + rest;
      assert !HasPath(rest, first.path);
      AttributesAfterFirst(first, rest, path);
      if first.path == w.path {
        AttributesAfterFirst(r[0], rest, path);
        assert forall i :: 0 < i < |paths| ==> r[i] == paths[i];
        assert r[0].path == w.path;
        HasPathSplits(r[0], rest, path);
      } else {
        WroteFacts(rest, w, path);
        WroteFacts(rest, w, first.path);
        HasPathSplits(first, Wrote(rest, w), path);
        AttributesAfterFirst(first, Wrote(rest, w), path);
      }
      HasPathSplits(first, rest, path);
    }
  }

  lemma HasPathSplits(first: Placed, rest: seq<Placed>, path: Path)
    ensures HasPath([first] + rest, path) <==> first.path == path || HasPath(rest, path)
    ensures DistinctPaths([first] + rest) <==> DistinctPaths(rest) && !HasPath(rest, first.path)
  {
    var all := [first] + rest;
    assert all[0] == first && forall i :: 0 <= i < |rest| ==> all[i + 1] == rest[i];
  }

  lemma {:induction false} WroteAllFacts(paths: seq<Placed>, ws: seq<Writing>, path: Path, attribute: string)
    requires DistinctPaths(paths)
    ensures DistinctPaths(WroteAll(paths, ws))
    ensures HasPath(WroteAll(paths, ws), path)
      <==> HasPath(paths, path) || exists i :: 0 <= i < |ws| && ws[i].path == path
    ensures ValueIn(AttributesAt(WroteAll(paths, ws), path), attribute) ==
      if LastWritten(ws, path, attribute).Some? then LastWritten(ws, path, attribute)
      else ValueIn(AttributesAt(paths, path), attribute)
  {
    if ws != [] {
      var front, w := ws[..|ws| - 1], ws[|ws| - 1];
      WroteAllFacts(paths, front, path, attribute);
      WroteFacts(WroteAll(paths, front), w, path);
      assert forall i :: 0 <= i < |front| ==> ws[i] == front[i];
    }
  }
}
