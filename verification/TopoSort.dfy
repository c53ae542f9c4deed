/** The publishing order of scripts/publishable-workspaces.ts: a depth-first topological sort. */
module TopoSort {
  import opened Wrappers

  type Name = string

  /** A workspace package and the workspace packages it depends on, in the order visited. */
  datatype Package = Package(name: Name, deps: seq<Name>)

  type Selection = map<Name, Package>

  // ---------------------------------------------------------------- the graph

  function Names(packages: seq<Package>): set<Name> {
    set p | p in packages :: p.name
  }

  ghost predicate Distinct(packages: seq<Package>) {
    forall i, j | 0 <= i < j < |packages| :: packages[i].name != packages[j].name
  }

  /** `new Map(packages.map((pkg) => [pkg.name, pkg]))`. */
  function Selected(packages: seq<Package>): Selection {
    if packages == [] then map[]
    else
      var last := packages[|packages| - 1];
      Selected(packages[..|packages| - 1])[last.name := last]
  }

  /** `a` depends on `b`, both selected. */
  ghost predicate Edge(selected: Selection, a: Name, b: Name) {
    a in selected && b in selected && b in selected[a].deps
  }

  ghost predicate Walk(selected: Selection, path: seq<Name>) {
    forall i | 0 <= i < |path| - 1 :: Edge(selected, path[i], path[i + 1])
  }

  /** The dependency graph, restricted to the selection, has a cycle. */
  ghost predicate Cyclic(selected: Selection) {
    exists path :: |path| >= 2 && Walk(selected, path) && path[0] == path[|path| - 1]
  }

  ghost predicate DepsBefore(selected: Selection, ordered: seq<Package>, i: nat)
    requires i < |ordered|
  {
    forall d | d in ordered[i].deps && d in selected :: d in Names(ordered[..i])
  }

  /** Selected packages, each at most once, every selected dependency before its dependent. */
  ghost predicate InOrder(selected: Selection, ordered: seq<Package>) {
    && (forall p | p in ordered :: p.name in selected && selected[p.name] == p)
    && Distinct(ordered)
    && (forall i | 0 <= i < |ordered| :: DepsBefore(selected, ordered, i))
  }

  // ---------------------------------------------------------------- lemmas

  lemma {:induction false} SelectedMeans(packages: seq<Package>)
    requires Distinct(packages)
    ensures Selected(packages).Keys == Names(packages)
    ensures forall p | p in packages :: Selected(packages)[p.name] == p
  {
    if packages != [] {
      var front, last := packages[..|packages| - 1], packages[|packages| - 1];
      assert packages == front + [last];
      SelectedMeans(front);
    }
  }

  lemma {:induction false} OnceEach(packages: seq<Package>, p: Package)
    requires Distinct(packages)
    ensures multiset(packages)[p] == if p in packages then 1 else 0
  {
    if packages != [] {
      var front, last := packages[..|packages| - 1], packages[|packages| - 1];
      assert packages == front + [last];
      OnceEach(front, p);
    }
  }

  lemma Append(selected: Selection, ordered: seq<Package>, p: Package)
    requires InOrder(selected, ordered) && p.name in selected && selected[p.name] == p
    requires p.name !in Names(ordered)
    requires forall d | d in p.deps && d in selected :: d in Names(ordered)
    ensures InOrder(selected, ordered + [p]) && Names(ordered + [p]) == Names(ordered) + {p.name}
  {
    var longer := ordered + [p];
    forall i | 0 <= i < |longer| ensures DepsBefore(selected, longer, i) {
      if i < |ordered| {
        assert DepsBefore(selected, ordered, i) && longer[..i] == ordered[..i];
      } else {
        assert longer[..i] == ordered;
      }
    }
    forall i | 0 <= i < |ordered| ensures longer[i].name != p.name { assert ordered[i] in ordered; }
  }

  /** Closing a walk on itself is a cycle. */
  lemma CycleFound(selected: Selection, path: seq<Name>, name: Name)
    requires name in path && Walk(selected, path) && Edge(selected, path[|path| - 1], name)
    ensures Cyclic(selected)
  {
    var k :| 0 <= k < |path| && path[k] == name;
    var cycle := path[k..] + [name];
    forall i | 0 <= i < |cycle| - 1 ensures Edge(selected, cycle[i], cycle[i + 1]) {
      assert cycle[i] == path[k + i];
      if i < |cycle| - 2 { assert cycle[i + 1] == path[k + i + 1]; }
    }
    assert Walk(selected, cycle) && cycle[0] == path[k] && cycle[|cycle| - 1] == name;
  }

  /** Along a walk, positions in the order go down. */
  lemma {:induction false} WalksGoDown(selected: Selection, ordered: seq<Package>, path: seq<Name>, i: nat) returns (j: nat)
    requires InOrder(selected, ordered) && |path| >= 2 && Walk(selected, path)
    requires i < |ordered| && ordered[i].name == path[0]
    ensures j < i && ordered[j].name == path[|path| - 1]
    decreases |path|
  {
    assert ordered[i] in ordered && Edge(selected, path[0], path[1]);
    assert DepsBefore(selected, ordered, i);
    assert path[1] in Names(ordered[..i]);
    var p :| p in ordered[..i] && p.name == path[1];
    j :| 0 <= j < i && ordered[j] == p;
    if |path| > 2 {
      var rest := path[1..];
      forall k | 0 <= k < |rest| - 1 ensures Edge(selected, rest[k], rest[k + 1]) {
        assert Edge(selected, path[k + 1], path[k + 2]);
      }
      j := WalksGoDown(selected, ordered, rest, j);
    }
  }

  /** A complete order rules a cycle out. */
  lemma OrderedIsAcyclic(selected: Selection, ordered: seq<Package>)
    requires InOrder(selected, ordered) && Names(ordered) == selected.Keys
    ensures !Cyclic(selected)
  {
    if Cyclic(selected) {
      var path :| |path| >= 2 && Walk(selected, path) && path[0] == path[|path| - 1];
      assert Edge(selected, path[0], path[1]);
      assert path[0] in Names(ordered);
      var p :| p in ordered && p.name == path[0];
      var i :| 0 <= i < |ordered| && ordered[i] == p;
      var j := WalksGoDown(selected, ordered, path, i);
      assert false;
    }
  }

  // ---------------------------------------------------------------- the visits

  class Sorter {
    const selected: Selection
    var visiting: set<Name>
    var visited: set<Name>
    var ordered: seq<Package>
    ghost var path: seq<Name>           // the chain of visits in progress

    ghost predicate Valid()
      reads this
    {
      && (forall n | n in selected :: selected[n].name == n)
      && Walk(selected, path) && (forall n :: n in path <==> n in visiting)
      && visiting <= selected.Keys && visited !! visiting
      && visited == Names(ordered) && InOrder(selected, ordered)
    }

    constructor (packages: seq<Package>)
      requires Distinct(packages)
      ensures Valid() && selected == Selected(packages) && path == [] && ordered == []
    {
      selected := Selected(packages);
      visiting, visited, ordered, path := {}, {}, [], [];
      SelectedMeans(packages);
    }

    /** `visit`: false where it throws. */
    method Visit(pkg: Package) returns (ok: bool)
      requires Valid() && pkg.name in selected && selected[pkg.name] == pkg
      requires path != [] ==> Edge(selected, path[|path| - 1], pkg.name)
      modifies this
      decreases selected.Keys - visiting
      ensures ok ==> Valid() && path == old(path) && pkg.name in visited && old(ordered) <= ordered
      ensures !ok ==> Cyclic(selected)
    {
      if pkg.name in visited { return true; }
      if pkg.name in visiting {
        CycleFound(selected, path, pkg.name);
        return false;
      }
      visiting := visiting + {pkg.name};
      path := path + [pkg.name];
      ghost var inside := path;
      for i := 0 to |pkg.deps|
        invariant Valid() && path == inside && visiting == old(visiting) + {pkg.name} && old(ordered) <= ordered
        invariant forall k | 0 <= k < i && pkg.deps[k] in selected :: pkg.deps[k] in visited
      {
        var depName := pkg.deps[i];
        if depName in selected {
          ghost var before := ordered;
          ok := Visit(selected[depName]);
          if !ok { return; }
          assert Names(before) <= Names(ordered);
        }
      }
      Append(selected, ordered, pkg);
      visiting := visiting - {pkg.name};
      path := old(path);
      visited := visited + {pkg.name};
      ordered := ordered + [pkg];
      ok := true;
    }
  }

  /** topologicallySortedPackages: none when it throws, which is exactly when the dependency graph
      restricted to the selection has a cycle.  Otherwise every package appears exactly once,
      after all its selected dependencies. */
  method TopologicallySortedPackages(packages: seq<Package>) returns (sorted: Option<seq<Package>>)
    requires Distinct(packages)
    ensures sorted.None? <==> Cyclic(Selected(packages))
    ensures sorted.Some? ==> multiset(sorted.value) == multiset(packages)
    ensures sorted.Some? ==> forall i | 0 <= i < |sorted.value| :: DepsBefore(Selected(packages), sorted.value, i)
  {
    var sorter := new Sorter(packages);
    SelectedMeans(packages);
    for i := 0 to |packages|
      invariant sorter.Valid() && sorter.selected == Selected(packages) && sorter.path == []
      invariant Names(packages[..i]) <= sorter.visited
    {
      ghost var before := sorter.ordered;
      var ok := sorter.Visit(packages[i]);
      if !ok { return None; }
      assert Names(before) <= Names(sorter.ordered);
      assert packages[..i + 1] == packages[..i] + [packages[i]];
    }
    assert packages[..|packages|] == packages;
    OrderedIsAcyclic(sorter.selected, sorter.ordered);
    SameOnes(packages, sorter.ordered);
    sorted := Some(sorter.ordered);
  }

  lemma SameOnes(packages: seq<Package>, ordered: seq<Package>)
    requires Distinct(packages) && InOrder(Selected(packages), ordered) && Names(packages) <= Names(ordered)
    ensures multiset(ordered) == multiset(packages)
  {
    SelectedMeans(packages);
    forall p ensures multiset(ordered)[p] == multiset(packages)[p] {
      OnceEach(packages, p);
      OnceEach(ordered, p);
      if p in packages {
        assert p.name in Names(ordered);
        var q :| q in ordered && q.name == p.name;
      }
      if p in ordered {
        assert p.name in Names(packages);
        var q :| q in packages && q.name == p.name;
      }
    }
  }
}
