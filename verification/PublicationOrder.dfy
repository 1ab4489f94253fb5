/**
 The order in which a publication file's elements come out: a Ruby hash keeps its keys as they
 were first inserted, and so do the paths collected and the tree made of them.
 */
module PublicationOrder {
  import opened PublicationFile
  import opened PublicationTree

  function NamesOf(children: seq<Child>): (names: seq<string>)
    ensures |names| == |children|
  {
    seq(|children|, i requires 0 <= i < |children| => children[i].name)
  }

  function PathsOf(paths: seq<Placed>): (all: seq<Path>)
    ensures |all| == |paths|
  {
    seq(|paths|, i requires 0 <= i < |paths| => paths[i].path)
  }

  /** Each thing once, in the order of first mention. */
  function InOrder<T(==)>(all: seq<T>): seq<T> {
    if all == [] then []
    else
      var front, last := InOrder(all[..|all| - 1]), all[|all| - 1];
      if last in front then front else front + [last]
  }

  lemma InOrderOneMore<T>(all: seq<T>, x: T)
    ensures InOrder(all + [x]) == if x in InOrder(all) then InOrder(all) else InOrder(all) + [x]
  {
    assert (all + [x])[..|all|] == all;
  }

  lemma NamesOfMore(first: Child, others: seq<Child>)
    ensures NamesOf([first] + others) == [first.name] + NamesOf(others)
    ensures NamesOf([]) == []
  {
    assert NamesOf([first] + others) == [first.name] + NamesOf(others);
  }

  /** A planting adds its element last among the siblings, at any depth, or leaves them where they are. */
  lemma {:induction false} PlantedKeepsOrder(children: seq<Child>, name: string, rest: Path, attributes: Attributes)
    ensures NamesOf(Planted(children, name, rest, attributes)) ==
      if name in NamesOf(children) then NamesOf(children) else NamesOf(children) + [name]
  {
    hide Planting, NamesOf;
    if children == [] {
      var r := Planted(children, name, rest, attributes);
      NamesOfMore(r[0], []);
      assert r == [r[0]] + [];
    } else {
      var first, others := children[0], children[1..];
      assert children == [first] + others;
      NamesOfMore(first, others);
      if first.name == name {
        NamesOfMore(Child(name, Planting(first.node, rest, attributes)), others);
      } else {
        PlantedKeepsOrder(others, name, rest, attributes);
        NamesOfMore(first, Planted(others, name, rest, attributes));
      }
    }
  }

  /** A writing adds its path last, or leaves the paths where they are. */
  lemma {:induction false} WroteKeepsOrder(paths: seq<Placed>, w: Writing)
    ensures PathsOf(Wrote(paths, w)) ==
      if w.path in PathsOf(paths) then PathsOf(paths) else PathsOf(paths) + [w.path]
  {
    var all := PathsOf(paths);
    if paths != [] {
      assert all == [paths[0].path] + PathsOf(paths[1..]);
      if paths[0].path == w.path {
        assert w.path in all;
      } else {
        WroteKeepsOrder(paths[1..], w);
        var later := Wrote(paths[1..], w);
        assert PathsOf([paths[0]] + later) == [paths[0].path] + PathsOf(later);
      }
    }
  }

  /** The outermost elements come in the order in which the paths first need them. */
  lemma {:induction false} ElementsComeInOrder(paths: seq<Placed>)
    requires forall i :: 0 <= i < |paths| ==> paths[i].path != []
    ensures NamesOf(TreeOf(paths).children) == InOrder(seq(|paths|, i requires 0 <= i < |paths| => paths[i].path[0]))
  {
    var heads := seq(|paths|, i requires 0 <= i < |paths| => paths[i].path[0]);
    if paths != [] {
      var front, last := paths[..|paths| - 1], paths[|paths| - 1];
      var before := seq(|front|, i requires 0 <= i < |front| => front[i].path[0]);
      ElementsComeInOrder(front);
      assert heads == before + [last.path[0]];
      hide InOrder, Planted;
      InOrderOneMore(before, last.path[0]);
      PlantedKeepsOrder(TreeOf(front).children, last.path[0], last.path[1..], last.attributes);
    }
  }

  /** The paths come in the order in which they are first written to. */
  lemma {:induction false} PathsComeInOrder(paths: seq<Placed>, ws: seq<Writing>)
    requires InOrder(PathsOf(paths)) == PathsOf(paths)
    ensures PathsOf(WroteAll(paths, ws)) ==
      InOrder(PathsOf(paths) + seq(|ws|, i requires 0 <= i < |ws| => ws[i].path))
  {
    var written := seq(|ws|, i requires 0 <= i < |ws| => ws[i].path);
    var all := PathsOf(paths) + written;
    if ws == [] {
      assert all == PathsOf(paths);
    } else {
      var front, w := ws[..|ws| - 1], ws[|ws| - 1];
      var before := PathsOf(paths) + seq(|front|, i requires 0 <= i < |front| => front[i].path);
      PathsComeInOrder(paths, front);
      assert all == before + [w.path];
      hide InOrder, Wrote;
      WroteKeepsOrder(WroteAll(paths, front), w);
      InOrderOneMore(before, w.path);
    }
  }
}
