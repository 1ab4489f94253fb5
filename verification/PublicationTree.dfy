/**
 Nesting the element paths of a publication file into one tree and writing the tree out as XML
 elements. PreTeXt reads only the first of two like-named siblings, so what matters is that every
 path comes out as exactly one element, with everything placed there on it.
 */
module PublicationTree {
  import opened Options
  import opened PublicationFile

  /** A nested hash: the attributes set on this element, and its children in insertion order. */
  datatype Node = Node(attributes: Attributes, children: seq<Child>)
  datatype Child = Child(name: string, node: Node)

  const EMPTY := Node(map[], [])

  /** The children with the one called `name` changed by planting `rest` under it, or added. */
  function Planted(children: seq<Child>, name: string, rest: Path, attributes: Attributes): (r: seq<Child>)
    decreases |rest|, 1, children
  {
    if children == [] then [Child(name, Planting(EMPTY, rest, attributes))]
    else if children[0].name == name then [Child(name, Planting(children[0].node, rest, attributes))] + children[1..]
    else [children[0]] + Planted(children[1..], name, rest, attributes)
  }

  /** Walking down `path`, adding what is missing, and merging the attributes in at the end. */
  function Planting(node: Node, path: Path, attributes: Attributes): Node
    decreases |path|, 0
  {
    if path == [] then node.(attributes := node.attributes + attributes)
    else node.(children := Planted(node.children, path[0], path[1..], attributes))
  }

  function TreeOf(paths: seq<Placed>): Node {
    if paths == [] then EMPTY
    else
      var last := paths[|paths| - 1];
      Planting(TreeOf(paths[..|paths| - 1]), last.path, last.attributes)
  }

  /** `tree` */
  method Tree(paths: seq<Placed>) returns (root: Node)
    ensures root == TreeOf(paths)
  {
    root := EMPTY;
    for i := 0 to |paths|
      invariant root == TreeOf(paths[..i])
    {
      assert paths[..i + 1][..i] == paths[..i];
      root := Planting(root, paths[i].path, paths[i].attributes);
    }
    assert paths[..|paths|] == paths;
  }

  // ---- The document ----

  datatype Element = Element(name: string, attributes: Attributes, content: seq<Element>)

  /** `build_tree`: an element for each child; attributes of the root itself are not written. */
  function Emitted(children: seq<Child>): (content: seq<Element>)
    ensures |content| == |children|
    ensures forall i :: 0 <= i < |children| ==> content[i].name == children[i].name
  {
    if children == [] then []
    else
      [Element(children[0].name, children[0].node.attributes, Emitted(children[0].node.children))]
      + Emitted(children[1..])
  }

  /** The attributes of every element a reader following `path` comes to. */
  function Found(content: seq<Element>, path: Path): seq<Attributes>
    requires path != []
    decreases |path|, content
  {
    if content == [] then []
    else
      (if content[0].name != path[0] then []
       else if |path| == 1 then [content[0].attributes]
       else Found(content[0].content, path[1..]))
      + Found(content[1..], path)
  }

  /** `path`, or a longer path through it, is in use. */
  predicate Used(paths: seq<Placed>, path: Path) {
    exists i :: 0 <= i < |paths| && path <= paths[i].path
  }

  // ---- One planting ----

  /** No two siblings share a name, at any depth. */
  predicate Neat(children: seq<Child>) {
    && (forall i, j :: 0 <= i < j < |children| ==> children[i].name != children[j].name)
    && (forall i :: 0 <= i < |children| ==> Neat(children[i].node.children))
  }

  predicate Named(children: seq<Child>, name: string) {
    exists i :: 0 <= i < |children| && children[i].name == name
  }

  /** What a reader of `path` finds once `attributes` have been planted at `full`. */
  function FoundAfter(before: seq<Attributes>, full: Path, attributes: Attributes, path: Path): seq<Attributes> {
    if path == full then [(if before == [] then map[] else before[0]) + attributes]
    else if path <= full && before == [] then [map[]]
    else before
  }

  lemma {:induction false} NotNamedNotFound(children: seq<Child>, path: Path)
    requires path != [] && !Named(children, path[0])
    ensures Found(Emitted(children), path) == []
  {
    if children != [] {
      assert forall i :: 0 <= i < |children| - 1 ==> children[1..][i] == children[i + 1];
      NotNamedNotFound(children[1..], path);
    }
  }

  lemma NeatSplits(first: Child, rest: seq<Child>)
    ensures Neat([first] + rest) <==> Neat(first.node.children) && Neat(rest) && !Named(rest, first.name)
  {
    var all := [first] + rest;
    assert all[0] == first && forall i :: 0 <= i < |rest| ==> all[i + 1] == rest[i];
    if Neat(first.node.children) && Neat(rest) && !Named(rest, first.name) {
      assert forall i :: 0 < i < |all| ==> all[i] == rest[i - 1];
    }
  }

  lemma FoundSplits(first: Child, rest: seq<Child>, path: Path)
    requires path != []
    ensures Found(Emitted([first] + rest), path) ==
      FoundIn(first, path) + Found(Emitted(rest), path)
  {
    assert ([first] + rest)[1..] == rest;
    var all := Emitted([first] + rest);
    assert all[0] == Element(first.name, first.node.attributes, Emitted(first.node.children));
    assert all[1..] == Emitted(rest);
  }

  function FoundIn(c: Child, path: Path): seq<Attributes>
    requires path != []
  {
    if c.name != path[0] then []
    else if |path| == 1 then [c.node.attributes]
    else Found(Emitted(c.node.children), path[1..])
  }

  lemma {:induction false} PlantedNames(children: seq<Child>, name: string, rest: Path, attributes: Attributes,
    other: string)
    ensures Named(Planted(children, name, rest, attributes), other) <==> Named(children, other) || other == name
  {
    var r := Planted(children, name, rest, attributes);
    if children == [] {
      assert r[0].name == name;
    } else {
      assert children == [children[0]] + children[1..];
      assert r == [r[0]] + r[1..];
      NamedSplits(children[0], children[1..], other);
      NamedSplits(r[0], r[1..], other);
      if children[0].name != name { PlantedNames(children[1..], name, rest, attributes, other); }
    }
  }

  lemma NamedSplits(first: Child, rest: seq<Child>, name: string)
    ensures Named([first] + rest, name) <==> first.name == name || Named(rest, name)
  {
    var all := [first] + rest;
    assert all[0] == first && forall i :: 0 <= i < |rest| ==> all[i + 1] == rest[i];
  }

  /** Planting under one child changes what is found below that child, and nothing else. */
  lemma PlantingInChild(c: Child, rest: Path, attributes: Attributes, path: Path)
    requires Neat(c.node.children) && path != []
    ensures var c' := Child(c.name, Planting(c.node, rest, attributes));
      && Neat(c'.node.children)
      && FoundIn(c', path) ==
        if path[0] == c.name then FoundAfter(FoundIn(c, path), [c.name] + rest, attributes, path) else []
    decreases |rest|, 0
  {
    var full := [c.name] + rest;
    assert path[0] == c.name ==> path == [c.name] + path[1..];
    assert path[0] == c.name ==> (path == full <==> path[1..] == rest);
    assert path[0] == c.name ==> (path <= full <==> path[1..] <= rest);
    if rest != [] {
      assert rest == [rest[0]] + rest[1..];
      PlantedFound(c.node.children, rest[0], rest[1..], attributes, if |path| > 1 then path[1..] else rest);
    }
  }

  lemma PlantedHere(first: Child, others: seq<Child>, rest: Path, attributes: Attributes, path: Path)
    requires Neat([first] + others) && path != []
    ensures var c := Child(first.name, Planting(first.node, rest, attributes));
      && Neat([c] + others)
      && Found(Emitted([c] + others), path)
         == FoundAfter(Found(Emitted([first] + others), path), [first.name] + rest, attributes, path)
    decreases |rest|, 1
  {
    hide Planting, Emitted, FoundIn, Neat, Found;
    var c := Child(first.name, Planting(first.node, rest, attributes));
    NeatSplits(first, others);
    PlantingInChild(first, rest, attributes, path);
    FoundSplits(first, others, path);
    NeatSplits(c, others);
    FoundSplits(c, others, path);
    if path[0] == first.name { NotNamedNotFound(others, path); } else { NotThisChild(first, path); }
    assert path <= [first.name] + rest ==> path[0] == first.name;
  }

  lemma NotThisChild(c: Child, path: Path)
    requires path != [] && path[0] != c.name
    ensures FoundIn(c, path) == []
  {
  }

  lemma PlantedLater(first: Child, others: seq<Child>, later: seq<Child>, full: Path, attributes: Attributes,
    path: Path)
    requires Neat([first] + others) && path != [] && full != [] && first.name != full[0]
    requires Neat(later) && !Named(later, first.name)
    requires Found(Emitted(later), path) == FoundAfter(Found(Emitted(others), path), full, attributes, path)
    ensures Neat([first] + later)
    ensures Found(Emitted([first] + later), path) ==
      FoundAfter(Found(Emitted([first] + others), path), full, attributes, path)
  {
    assert path[0] != first.name ==> FoundIn(first, path) == [];
    assert path <= full ==> path[0] == full[0];
    hide Planting, Emitted, FoundIn, Neat;
    NeatSplits(first, others);
    FoundSplits(first, others, path);
    NeatSplits(first, later);
    FoundSplits(first, later, path);
    if path[0] == first.name { NotNamedNotFound(others, path); }
  }

  lemma {:induction false} PlantedFound(children: seq<Child>, name: string, rest: Path, attributes: Attributes,
    path: Path)
    requires Neat(children) && path != []
    ensures var r := Planted(children, name, rest, attributes);
      && Neat(r)
      && Found(Emitted(r), path) == FoundAfter(Found(Emitted(children), path), [name] + rest, attributes, path)
    decreases |rest|, 2, children
  {
    var r := Planted(children, name, rest, attributes);
    if children == [] {
      var first := Child(name, EMPTY);
      assert path <= [name] + rest ==> path[0] == name;
      assert r == [Child(name, Planting(EMPTY, rest, attributes))] + [];
      PlantingInChild(first, rest, attributes, path);
      hide Planted, Planting, FoundIn;
      NeatSplits(r[0], []);
      FoundSplits(r[0], [], path);
    } else {
      var first, others := children[0], children[1..];
      assert children == [first] + others;
      NeatSplits(first, others);
      if first.name == name {
        assert r == [Child(name, Planting(first.node, rest, attributes))] + others;
        hide Planted, Planting, FoundIn, Emitted, Neat;
        PlantedHere(first, others, rest, attributes, path);
      } else {
        var later := Planted(others, name, rest, attributes);
        assert r == [first] + later;
        hide Planted, Planting, FoundIn, Emitted, Neat;
        PlantedFound(others, name, rest, attributes, path);
        PlantedNames(others, name, rest, attributes, first.name);
        PlantedLater(first, others, later, [name] + rest, attributes, path);
      }
    }
  }

  // ---- The whole tree ----

  /** Every used path comes out as exactly one element, with what was placed there; no other does. */
  lemma {:induction false} TreeIsFaithful(paths: seq<Placed>, path: Path)
    requires path != []
    ensures Neat(TreeOf(paths).children)
    ensures Found(Emitted(TreeOf(paths).children), path) ==
      if Used(paths, path) then [AttributesAt(paths, path)] else []
  {
    if paths == [] {
      assert Found(Emitted(EMPTY.children), path) == [];
    } else {
      var front, last := paths[..|paths| - 1], paths[|paths| - 1];
      assert TreeOf(paths) == Planting(TreeOf(front), last.path, last.attributes) && paths == front + [last];
      hide TreeOf, Used, AttributesAt, Planting, Found, Emitted, Neat;
      TreeIsFaithful(front, path);
      PlantingFound(TreeOf(front), last, path);
      PlacedAt(front, last, path);
    }
  }

  /** What was placed at a path before and after one more planting. */
  lemma PlacedAt(front: seq<Placed>, last: Placed, path: Path)
    ensures var found, paths := if Used(front, path) then [AttributesAt(front, path)] else [], front + [last];
      FoundAfter(found, last.path, last.attributes, path) ==
        if Used(paths, path) then [AttributesAt(paths, path)] else []
  {
    assert (front + [last])[..|front|] == front;
    UsedSplits(front, last, path);
    if !Used(front, path) {
      assert forall i :: 0 <= i < |front| ==> front[i].path != path;
      NothingAt(front, path);
    }
    hide Used;
  }

  lemma PlantingFound(before: Node, last: Placed, path: Path)
    requires path != [] && Neat(before.children)
    ensures var after := Planting(before, last.path, last.attributes).children;
      && Neat(after)
      && Found(Emitted(after), path) ==
        FoundAfter(Found(Emitted(before.children), path), last.path, last.attributes, path)
  {
    hide Emitted, Found, Neat;
    if last.path != [] {
      PlantedFound(before.children, last.path[0], last.path[1..], last.attributes, path);
      assert [last.path[0]] + last.path[1..] == last.path;
    }
  }

  lemma UsedSplits(front: seq<Placed>, last: Placed, path: Path)
    ensures Used(front + [last], path) <==> Used(front, path) || path <= last.path
  {
    var all := front + [last];
    assert all[|front|] == last && forall i :: 0 <= i < |front| ==> all[i] == front[i];
  }

  /** The order the paths were collected in makes no difference to what is found. */
  lemma OrderDoesNotMatter(a: seq<Placed>, b: seq<Placed>, path: Path)
    requires path != [] && DistinctPaths(a) && DistinctPaths(b) && multiset(a) == multiset(b)
    ensures Found(Emitted(TreeOf(a).children), path) == Found(Emitted(TreeOf(b).children), path)
  {
    TreeIsFaithful(a, path);
    TreeIsFaithful(b, path);
    assert forall p :: p in a <==> p in multiset(a);
    assert forall p :: p in b <==> p in multiset(b);
    hide Found, TreeOf, Emitted;
    UsedByMembers(a, path);
    UsedByMembers(b, path);
    SameAttributes(a, b, path);
  }

  lemma SameAttributes(a: seq<Placed>, b: seq<Placed>, path: Path)
    requires DistinctPaths(a) && DistinctPaths(b) && forall p :: p in a <==> p in b
    ensures AttributesAt(a, path) == AttributesAt(b, path)
  {
    if HasPath(a, path) {
      var i :| 0 <= i < |a| && a[i].path == path;
      OnlyEntryAt(a, a[i]);
      OnlyEntryAt(b, a[i]);
    } else {
      NothingAt(a, path);
      forall i | 0 <= i < |b| ensures b[i].path != path { assert b[i] in a; }
      NothingAt(b, path);
    }
  }

  lemma UsedByMembers(paths: seq<Placed>, path: Path)
    ensures Used(paths, path) <==> exists p :: p in paths && path <= p.path
  {
    if Used(paths, path) {
      var i :| 0 <= i < |paths| && path <= paths[i].path;
      assert paths[i] in paths;
    }
  }

  lemma {:induction false} OnlyEntryAt(paths: seq<Placed>, p: Placed)
    requires DistinctPaths(paths) && p in paths
    ensures AttributesAt(paths, p.path) == p.attributes
  {
    var front, last := paths[..|paths| - 1], paths[|paths| - 1];
    if last == p {
      assert forall i :: 0 <= i < |front| ==> front[i].path != p.path;
      NothingAt(front, p.path);
    } else {
      OnlyEntryAt(front, p);
      var i :| 0 <= i < |paths| && paths[i] == p;
      assert i < |front| && last.path != p.path;
    }
  }

  // ---- The file ----

  function FileFor(catalog: Catalog, defaults: seq<Writing>, choices: seq<Choice>): seq<Element> {
    Emitted(TreeOf(PathsFor(catalog, defaults, choices)).children)
  }

  /** What PreTeXt reads: the attribute on the first element at the path. */
  function Read(content: seq<Element>, path: Path, attribute: string): Option<string>
    requires path != []
  {
    if Found(content, path) == [] then None else ValueIn(Found(content, path)[0], attribute)
  }

  lemma BasePathsAreDistinct()
    ensures DistinctPaths(BASE)
  {
    assert BASE[0].path[0] == "source" && BASE[1].path[0] == "html";
    assert "source"[0] != "html"[0];
    assert "resources"[0] != "brandlogo"[0];
  }

  /**
   What the file says at any path and attribute: the last choice written there, else the applied
   default, else what every file starts from, else nothing; and never on two elements.
   */
  lemma FileSays(catalog: Catalog, defaults: seq<Writing>, choices: seq<Choice>, path: Path, attribute: string)
    requires path != []
    ensures |Found(FileFor(catalog, defaults, choices), path)| <= 1
    ensures Read(FileFor(catalog, defaults, choices), path, attribute) ==
      Expected(catalog, defaults, choices, path, attribute)
  {
    var start := WroteAll(BASE, defaults);
    var paths := PathsFor(catalog, defaults, choices);
    BasePathsAreDistinct();
    WroteAllFacts(BASE, defaults, path, attribute);
    WroteAllFacts(start, Writings(catalog, choices), path, attribute);
    TreeIsFaithful(paths, path);
    if !Used(paths, path) {
      assert forall i :: 0 <= i < |paths| ==> paths[i].path != path;
      NothingAt(paths, path);
    }
  }

  /** What every file starts from: where the assets lie, the resources' host, and the logo. */
  lemma BaseSays(path: Path, attribute: string)
    ensures ValueIn(AttributesAt(BASE, path), attribute) ==
      if path == ["source", "directories"] then
        if attribute == "external" || attribute == "generated" then Some(attribute) else None
      else if path == ["html", "resources"] then if attribute == "host" then Some("cdn") else None
      else if path == ["html", "brandlogo"] then
        if attribute == "source" then Some("pretext-plus/icon.svg")
        else if attribute == "url" then Some("https://pretext.plus") else None
      else None
  {
    BasePathsAreDistinct();
    assert BASE[0] in BASE && BASE[1] in BASE && BASE[2] in BASE;
    if i: nat :| i < |BASE| && BASE[i].path == path {
      OnlyEntryAt(BASE, BASE[i]);
    } else {
      NothingAt(BASE, path);
    }
  }

  /** Nobody else writes where `key` does. */
  predicate OwnPlace(catalog: Catalog, key: string)
    requires key in catalog
  {
    forall k :: k in catalog && k != key ==>
      catalog[k].element != catalog[key].element || catalog[k].attribute != catalog[key].attribute
  }

  function Spelled(v: Option<string>): Option<string> {
    if v.Some? then Some(WrittenValue(v.value)) else None
  }

  lemma {:induction false} ChoiceIsWritten(catalog: Catalog, choices: seq<Choice>, key: string)
    requires key in catalog && OwnPlace(catalog, key)
    ensures LastWritten(Writings(catalog, choices), catalog[key].element, catalog[key].attribute)
            == Spelled(ChosenIn(choices, key))
  {
    if choices != [] {
      var before := Writings(catalog, choices[..|choices| - 1]);
      ChoiceIsWritten(catalog, choices[..|choices| - 1], key);
      assert before + [] == before;
      assert forall w :: (before + [w])[..|before|] == before;
    }
  }

  /**
   From the three levels to the file: an option an author may use is read as the lowest level
   that sets it says -- the marker as an empty value -- and otherwise as if it did not exist.
   */
  lemma OptionsReachTheFile(catalog: Catalog, defaults: seq<Writing>, subscriber: bool, levels: seq<seq<Choice>>,
    key: string)
    requires key in catalog && OwnPlace(catalog, key) && catalog[key].element != []
    ensures var p := catalog[key];
      var said := if p.subscriberOnly && !subscriber then None else LowestSaying(levels, key);
      Read(FileFor(catalog, defaults, Effective(catalog, subscriber, levels)), p.element, p.attribute) ==
        if said.Some? then Some(if said.value == "(none)" then "" else said.value)
        else Read(FileFor(catalog, defaults, []), p.element, p.attribute)
  {
    var p := catalog[key];
    var choices := Effective(catalog, subscriber, levels);
    EffectiveChoice(catalog, subscriber, levels, key);
    ChoiceIsWritten(catalog, choices, key);
    FileSays(catalog, defaults, choices, p.element, p.attribute);
    FileSays(catalog, defaults, [], p.element, p.attribute);
  }

  /** What an author may expect a file to say at a path: the last choice, the default, or `BASE`. */
  function Expected(catalog: Catalog, defaults: seq<Writing>, choices: seq<Choice>, path: Path,
    attribute: string): Option<string> {
    var chosen, standing := LastWritten(Writings(catalog, choices), path, attribute),
      LastWritten(defaults, path, attribute);
    if chosen.Some? then chosen else if standing.Some? then standing else ValueIn(AttributesAt(BASE, path), attribute)
  }

  /** `to_xml`, as far as the elements below the root: every attribute reads as it should, and on one element. */
  method BuildFile(catalog: Catalog, defaults: seq<Writing>, choices: seq<Choice>) returns (content: seq<Element>)
    ensures forall path: Path :: path != [] ==> |Found(content, path)| <= 1
    ensures forall path: Path, attribute ::
      path != [] ==> Read(content, path, attribute) == Expected(catalog, defaults, choices, path, attribute)
  {
    var paths := AttributesByPath(catalog, defaults, choices);
    var root := Tree(paths);
    content := Emitted(root.children);
    forall path: Path | path != [] ensures |Found(content, path)| <= 1 {
      FileSays(catalog, defaults, choices, path, "");
    }
    forall path: Path, attribute | path != []
      ensures Read(content, path, attribute) == Expected(catalog, defaults, choices, path, attribute)
    {
      FileSays(catalog, defaults, choices, path, attribute);
    }
  }
}
