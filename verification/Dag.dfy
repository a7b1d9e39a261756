/** The dependency graph: the cycle guard on new edges, and the order of derivation. */
module Dag {
  import opened Wrappers

  type Node = nat

  /** The path below a target that an edge feeds: its root, or a pin or one member. */
  type Local = seq<nat>

  /** An edge from a source node to a path below a target node. */
  datatype Arc = Arc(source: Node, target: Node, local: Local)

  predicate Feeds(arcs: seq<Arc>, a: Node, b: Node) {
    exists i :: 0 <= i < |arcs| && arcs[i].source == a && arcs[i].target == b
  }

  ghost predicate IsPath(arcs: seq<Arc>, p: seq<Node>) {
    p != [] && forall i :: 0 <= i < |p| - 1 ==> Feeds(arcs, p[i], p[i + 1])
  }

  ghost predicate Joins(arcs: seq<Arc>, p: seq<Node>, a: Node, b: Node) {
    IsPath(arcs, p) && p[0] == a && p[|p| - 1] == b
  }

  ghost predicate Reaches(arcs: seq<Arc>, a: Node, b: Node) {
    exists p :: Joins(arcs, p, a, b)
  }

  ghost predicate Acyclic(arcs: seq<Arc>) {
    forall p :: IsPath(arcs, p) && |p| >= 2 ==> p[0] != p[|p| - 1]
  }

  ghost predicate Within(nodes: set<Node>, arcs: seq<Arc>) {
    forall i :: 0 <= i < |arcs| ==> arcs[i].source in nodes && arcs[i].target in nodes
  }

  lemma ReachesItself(arcs: seq<Arc>, a: Node)
    ensures Reaches(arcs, a, a)
  {
    assert Joins(arcs, [a], a, a);
  }

  lemma ReachesStep(arcs: seq<Arc>, a: Node, b: Node, c: Node)
    requires Reaches(arcs, a, b) && Feeds(arcs, b, c)
    ensures Reaches(arcs, a, c)
  {
    var p :| Joins(arcs, p, a, b);
    var q := p + [c];
    assert forall i :: 0 <= i < |p| ==> q[i] == p[i];
    assert Joins(arcs, q, a, c);
  }

  /** A set that arcs do not leave holds everything reachable from its members. */
  lemma {:induction false} ClosedHolds(arcs: seq<Arc>, s: set<Node>, p: seq<Node>)
    requires IsPath(arcs, p) && p[0] in s
    requires forall i :: 0 <= i < |arcs| && arcs[i].source in s ==> arcs[i].target in s
    ensures p[|p| - 1] in s
    decreases |p|
  {
    if |p| > 1 {
      var init := p[..|p| - 1];
      assert forall i :: 0 <= i < |init| - 1 ==> Feeds(arcs, init[i], init[i + 1]) by {
        forall i | 0 <= i < |init| - 1 ensures Feeds(arcs, init[i], init[i + 1]) {
          assert Feeds(arcs, p[i], p[i + 1]);
        }
      }
      ClosedHolds(arcs, s, init);
      assert Feeds(arcs, p[|p| - 2], p[|p| - 1]);
    }
  }

  /** Whether an edge from `source` to `target` would close a cycle. */
  method WouldCycle(nodes: set<Node>, arcs: seq<Arc>, source: Node, target: Node) returns (cycle: bool)
    requires Within(nodes, arcs) && target in nodes
    ensures cycle <==> Reaches(arcs, target, source)
  {
    var seen: set<Node> := {};
    var stack := [target];
    ReachesItself(arcs, target);
    while stack != []
      invariant seen <= nodes && source !in seen
      invariant forall n :: n in stack ==> n in nodes && Reaches(arcs, target, n)
      invariant target in seen || target in stack
      invariant forall i :: 0 <= i < |arcs| && arcs[i].source in seen ==>
        arcs[i].target in seen || arcs[i].target in stack
      decreases |nodes - seen|, |stack|
    {
      var current := stack[|stack| - 1];
      ghost var before := stack;
      stack := stack[..|stack| - 1];
      assert before == stack + [current];
      if current == source {
        return true;
      }
      if current in seen {
        continue;
      }
      assert nodes - (seen + {current}) < nodes - seen;
      SmallerSet(nodes - (seen + {current}), nodes - seen);
      seen := seen + {current};
      for i := 0 to |arcs|
        invariant forall n :: n in stack ==> n in nodes && Reaches(arcs, target, n)
        invariant forall n :: n in before && n != current ==> n in stack
        invariant forall j :: 0 <= j < i && arcs[j].source == current ==> arcs[j].target in stack
      {
        if arcs[i].source == current {
          assert Feeds(arcs, current, arcs[i].target);
          ReachesStep(arcs, target, current, arcs[i].target);
          stack := stack + [arcs[i].target];
        }
      }
    }
    if Reaches(arcs, target, source) {
      var p :| Joins(arcs, p, target, source);
      ClosedHolds(arcs, seen, p);
    }
    return false;
  }

  lemma SmallerSet(a: set<Node>, b: set<Node>)
    requires a < b
    ensures |a| < |b|
  {
    var x :| x in b && x !in a;
    SubsetSize(a, b - {x});
  }

  // ----- edits keep the graph acyclic -----

  lemma NoArcsAcyclic(arcs: seq<Arc>)
    requires arcs == []
    ensures Acyclic(arcs)
  {
    forall p: seq<Node> | |p| >= 2 ensures !IsPath(arcs, p) {
      assert !Feeds(arcs, p[0], p[0 + 1]);
    }
  }

  lemma FewerArcsStayAcyclic(kept: seq<Arc>, arcs: seq<Arc>)
    requires Acyclic(arcs) && forall a :: a in kept ==> a in arcs
    ensures Acyclic(kept)
  {
    forall p | IsPath(kept, p) && |p| >= 2 ensures p[0] != p[|p| - 1] {
      PathAmongMore(kept, arcs, p);
    }
  }

  lemma PathAmongMore(kept: seq<Arc>, arcs: seq<Arc>, p: seq<Node>)
    requires IsPath(kept, p) && forall a :: a in kept ==> a in arcs
    ensures IsPath(arcs, p)
  {
    forall i | 0 <= i < |p| - 1 ensures Feeds(arcs, p[i], p[i + 1]) {
      assert Feeds(kept, p[i], p[i + 1]);
      var k :| 0 <= k < |kept| && kept[k].source == p[i] && kept[k].target == p[i + 1];
      assert kept[k] in arcs;
    }
  }

  /** With the new arc `s -> t` at hand, a path from `t` to `s` needs no new arc after its last use. */
  lemma {:induction false} WithoutNewArc(arcs: seq<Arc>, extra: Arc, p: seq<Node>)
    requires Joins(arcs + [extra], p, extra.target, extra.source)
    ensures Reaches(arcs, extra.target, extra.source)
    decreases |p|
  {
    if k :| 0 <= k < |p| - 1 && !Feeds(arcs, p[k], p[k + 1]) {
      NewArcOnly(arcs, extra, p, k);
      var tail := p[k + 1..];
      assert IsPath(arcs + [extra], tail) by {
        forall i | 0 <= i < |tail| - 1 ensures Feeds(arcs + [extra], tail[i], tail[i + 1]) {
          assert Feeds(arcs + [extra], p[k + 1 + i], p[k + 1 + i + 1]);
        }
      }
      WithoutNewArc(arcs, extra, tail);
    } else {
      assert Joins(arcs, p, extra.target, extra.source);
    }
  }

  lemma NewArcOnly(arcs: seq<Arc>, extra: Arc, p: seq<Node>, k: nat)
    requires IsPath(arcs + [extra], p) && k < |p| - 1 && !Feeds(arcs, p[k], p[k + 1])
    ensures p[k] == extra.source && p[k + 1] == extra.target
  {
    assert Feeds(arcs + [extra], p[k], p[k + 1]);
    var i :| 0 <= i < |arcs + [extra]| && (arcs + [extra])[i].source == p[k] && (arcs + [extra])[i].target == p[k + 1];
    if i < |arcs| {
      assert arcs[i].source == p[k];
    }
  }

  /** Turning a closed path around so that it starts after position `k`. */
  lemma Rotate(arcs: seq<Arc>, p: seq<Node>, k: nat)
    requires IsPath(arcs, p) && p[0] == p[|p| - 1] && k < |p| - 1
    ensures Joins(arcs, p[k + 1..] + p[1..k + 1], p[k + 1], p[k])
  {
    var tail, head := p[k + 1..], p[1..k + 1];
    var q := tail + head;
    forall i | 0 <= i < |q| - 1 ensures Feeds(arcs, q[i], q[i + 1]) {
      if i < |tail| - 1 {
        assert Feeds(arcs, p[k + 1 + i], p[k + 1 + i + 1]);
      } else if i == |tail| - 1 {
        assert q[i] == p[0] && q[i + 1] == p[1];
        assert Feeds(arcs, p[0], p[0 + 1]);
      } else {
        var j := 1 + i - |tail|;
        assert q[i] == p[j] && q[i + 1] == p[j + 1];
        assert Feeds(arcs, p[j], p[j + 1]);
      }
    }
    if k == 0 {
      assert q[|q| - 1] == p[|p| - 1];
    } else {
      assert q[|q| - 1] == p[k];
    }
  }

  lemma AddArcStaysAcyclic(arcs: seq<Arc>, extra: Arc)
    requires Acyclic(arcs) && extra.source != extra.target && !Reaches(arcs, extra.target, extra.source)
    ensures Acyclic(arcs + [extra])
  {
    var all := arcs + [extra];
    forall p | IsPath(all, p) && |p| >= 2 ensures p[0] != p[|p| - 1] {
      if p[0] == p[|p| - 1] {
        if k :| 0 <= k < |p| - 1 && !Feeds(arcs, p[k], p[k + 1]) {
          NewArcOnly(arcs, extra, p, k);
          Rotate(all, p, k);
          WithoutNewArc(arcs, extra, p[k + 1..] + p[1..k + 1]);
        } else {
          assert IsPath(arcs, p);
        }
      }
    }
  }

  datatype EdgeError = RootAgainstSubpath | Sensed | SelfDependency | DependencyCycle | Occupied

  predicate Extends(local: Local, other: Local) { |local| <= |other| && other[..|local|] == local }

  /** What an edge may feed: a cell's root or one member of it, or one pin of a transformer. */
  predicate Fits(cells: set<Node>, target: Node, local: Local) {
    |local| <= 1 && (target !in cells ==> |local| == 1)
  }

  /** No two edges into one node feed paths of which one lies within the other: each path has one
      producer, and a root edge stands alone. */
  ghost predicate Apart(arcs: seq<Arc>) {
    forall i, j :: 0 <= i < |arcs| && 0 <= j < |arcs| && i != j && arcs[i].target == arcs[j].target ==>
      !Extends(arcs[i].local, arcs[j].local)
  }

  /** A root edge and a sub-path edge would meet at a cell. */
  predicate Mixes(cells: set<Node>, arcs: seq<Arc>, target: Node, local: Local) {
    target in cells && exists i :: 0 <= i < |arcs| && arcs[i].target == target && (arcs[i].local == [] <==> local != [])
  }

  predicate Feeding(arcs: seq<Arc>, target: Node, local: Local) {
    exists i :: 0 <= i < |arcs| && arcs[i].target == target && arcs[i].local == local
  }

  class Graph {
    var nodes: set<Node>
    var cells: set<Node>
    var sensing: set<Node>
    var arcs: seq<Arc>

    ghost predicate Valid() reads this {
      && Within(nodes, arcs) && Acyclic(arcs) && Apart(arcs)
      && forall i :: 0 <= i < |arcs| ==> Fits(cells, arcs[i].target, arcs[i].local)
    }

    constructor (nodes: set<Node>, cells: set<Node>, sensing: set<Node>)
      ensures Valid() && this.nodes == nodes && this.cells == cells && this.sensing == sensing && arcs == []
    {
      this.nodes, this.cells, this.sensing, arcs := nodes, cells, sensing, [];
      new;
      NoArcsAcyclic(arcs);
    }

    /** Connects `source` to a path below `target`, replacing what fed that path and all below it.
        It refuses, without a change, for the first of these that holds: a root edge would meet a
        sub-path edge at a cell, the target is sensed, the edge would close a cycle, or, unless
        the target is to be detached, something feeds the path already. */
    method AddEdge(source: Node, target: Node, local: Local, detach: bool) returns (r: Result<(), EdgeError>)
      requires Valid() && source in nodes && target in nodes && Fits(cells, target, local)
      modifies this`arcs
      ensures Valid()
      ensures var was := old(arcs);
              match r
              case Err(RootAgainstSubpath) => Mixes(cells, was, target, local)
              case Err(Sensed) => target in sensing && !Mixes(cells, was, target, local)
              case Err(SelfDependency) => source == target && target !in sensing && !Mixes(cells, was, target, local)
              case Err(DependencyCycle) =>
                Reaches(was, target, source) && source != target && target !in sensing
                  && !Mixes(cells, was, target, local)
              case Err(Occupied) =>
                && !detach && Feeding(was, target, local)
                && !Reaches(was, target, source) && target !in sensing && !Mixes(cells, was, target, local)
              case Ok(_) =>
                && !Mixes(cells, was, target, local) && target !in sensing && !Reaches(was, target, source)
                && (detach || !Feeding(was, target, local))
      ensures r.Err? ==> arcs == old(arcs)
      ensures r.Ok? ==> arcs == Without(old(arcs), target, local, true) + [Arc(source, target, local)]
    {
      var mixes := Mixes(cells, arcs, target, local);
      if mixes {
        return Err(RootAgainstSubpath);
      }
      if target in sensing {
        return Err(Sensed);
      }
      ReachesItself(arcs, source);
      if source == target {
        return Err(SelfDependency);
      }
      var cycle := WouldCycle(nodes, arcs, source, target);
      if cycle {
        return Err(DependencyCycle);
      }
      var taken := CheckAuthority(target, local, detach);
      if taken {
        return Err(Occupied);
      }
      var extra := Arc(source, target, local);
      AddEdgeKeepsAcyclic(arcs, extra);
      AddEdgeKeepsApart(cells, arcs, extra);
      AddEdgeKeepsFitting(nodes, cells, arcs, extra);
      RemoveEdgesTargeting(target, local, true);
      arcs := arcs + [extra];
      return Ok(());
    }

    /** Whether an edge that feeds the path, or a path it lies in, forbids feeding it too. */
    method CheckAuthority(target: Node, local: Local, detach: bool) returns (taken: bool)
      requires Valid() && Fits(cells, target, local) && !Mixes(cells, arcs, target, local)
      ensures taken <==> !detach && Feeding(arcs, target, local)
    {
      if !detach {
        return Feeding(arcs, target, local);
      }
      for i := 0 to |arcs| {
        if arcs[i].target == target && |arcs[i].local| < |local| && Extends(arcs[i].local, local) {
          assert arcs[i].local == [] && Mixes(cells, arcs, target, local);
          return true;
        }
      }
      return false;
    }

    /** Removes what feeds the path and, if asked, all below it. */
    method RemoveEdgesTargeting(target: Node, local: Local, descendants: bool)
      modifies this`arcs
      ensures arcs == Without(old(arcs), target, local, descendants)
      ensures old(Valid()) ==> Valid()
    {
      ghost var was := arcs;
      var kept := KeepWithout(target, local, descendants);
      arcs := kept;
      hide Acyclic, Apart, Within, Fits, Without;
      if old(Valid()) {
        KeptStaysValid(nodes, cells, was, target, local, descendants);
      }
    }

    method KeepWithout(target: Node, local: Local, descendants: bool) returns (kept: seq<Arc>)
      ensures kept == Without(arcs, target, local, descendants)
    {
      kept := [];
      hide Hits, Without;
      NothingWithout(target, local, descendants);
      for i := 0 to |arcs|
        invariant kept + Without(arcs[i..], target, local, descendants) == Without(arcs, target, local, descendants)
      {
        WithoutFrom(arcs, i, target, local, descendants, kept);
        if !Hits(arcs[i], target, local, descendants) {
          kept := kept + [arcs[i]];
        }
      }
      assert arcs[|arcs|..] == [];
    }

    /** Deleting a subtree deletes its nodes and every edge at them. */
    method DeleteSubtree(gone: set<Node>)
      requires Valid()
      modifies this
      ensures Valid() && nodes == old(nodes) - gone && cells == old(cells) && sensing == old(sensing)
      ensures arcs == Outside(old(arcs), gone)
    {
      var kept := KeepOutside(gone);
      hide Acyclic, Apart, Within, Fits, Outside;
      OutsideStaysValid(nodes, cells, arcs, gone);
      nodes, arcs := nodes - gone, kept;
    }

    method KeepOutside(gone: set<Node>) returns (kept: seq<Arc>)
      ensures kept == Outside(arcs, gone)
    {
      kept := [];
      hide Outside;
      NothingOutside(gone);
      for i := 0 to |arcs|
        invariant kept + Outside(arcs[i..], gone) == Outside(arcs, gone)
      {
        OutsideFrom(arcs, i, gone, kept);
        if arcs[i].source !in gone && arcs[i].target !in gone {
          kept := kept + [arcs[i]];
        }
      }
      assert arcs[|arcs|..] == [];
    }
  }

  lemma NothingWithout(target: Node, local: Local, descendants: bool)
    ensures Without([], target, local, descendants) == []
  {
  }

  lemma NothingOutside(gone: set<Node>)
    ensures Outside([], gone) == []
  {
  }

  lemma WithoutFrom(arcs: seq<Arc>, i: nat, target: Node, local: Local, descendants: bool, kept: seq<Arc>)
    requires i < |arcs|
    ensures kept + Without(arcs[i..], target, local, descendants) ==
            (if Hits(arcs[i], target, local, descendants) then kept else kept + [arcs[i]])
              + Without(arcs[i + 1..], target, local, descendants)
  {
    assert arcs[i..][0] == arcs[i] && arcs[i..][1..] == arcs[i + 1..];
    hide Hits;
  }

  lemma OutsideFrom(arcs: seq<Arc>, i: nat, gone: set<Node>, kept: seq<Arc>)
    requires i < |arcs|
    ensures kept + Outside(arcs[i..], gone) ==
            (if arcs[i].source in gone || arcs[i].target in gone then kept else kept + [arcs[i]])
              + Outside(arcs[i + 1..], gone)
  {
    assert arcs[i..][0] == arcs[i] && arcs[i..][1..] == arcs[i + 1..];
  }

  predicate Hits(arc: Arc, target: Node, local: Local, descendants: bool) {
    arc.target == target && (if descendants then Extends(local, arc.local) else arc.local == local)
  }

  function Without(arcs: seq<Arc>, target: Node, local: Local, descendants: bool): seq<Arc> {
    if arcs == [] then []
    else
      (if Hits(arcs[0], target, local, descendants) then [] else [arcs[0]])
        + Without(arcs[1..], target, local, descendants)
  }

  function Outside(arcs: seq<Arc>, gone: set<Node>): seq<Arc> {
    if arcs == [] then []
    else (if arcs[0].source in gone || arcs[0].target in gone then [] else [arcs[0]]) + Outside(arcs[1..], gone)
  }

  lemma {:induction false} WithoutMembers(arcs: seq<Arc>, target: Node, local: Local, descendants: bool, a: Arc)
    ensures a in Without(arcs, target, local, descendants) <==> a in arcs && !Hits(a, target, local, descendants)
  {
    if arcs != [] {
      WithoutMembers(arcs[1..], target, local, descendants, a);
      assert arcs == [arcs[0]] + arcs[1..];
    }
  }

  lemma {:induction false} OutsideMembers(arcs: seq<Arc>, gone: set<Node>, a: Arc)
    ensures a in Outside(arcs, gone) <==> a in arcs && a.source !in gone && a.target !in gone
  {
    if arcs != [] {
      OutsideMembers(arcs[1..], gone, a);
      assert arcs == [arcs[0]] + arcs[1..];
    }
  }

  lemma ApartTail(arcs: seq<Arc>)
    requires arcs != [] && Apart(arcs)
    ensures Apart(arcs[1..])
    ensures forall a :: a in arcs[1..] && a.target == arcs[0].target ==>
      !Extends(arcs[0].local, a.local) && !Extends(a.local, arcs[0].local)
  {
    var rest := arcs[1..];
    assert forall i :: 0 <= i < |rest| ==> rest[i] == arcs[i + 1];
  }

  lemma ApartHead(arc: Arc, rest: seq<Arc>)
    requires Apart(rest)
    requires forall a :: a in rest && a.target == arc.target ==>
      !Extends(arc.local, a.local) && !Extends(a.local, arc.local)
    ensures Apart([arc] + rest)
  {
    var all := [arc] + rest;
    assert forall i :: 0 < i < |all| ==> all[i] == rest[i - 1] && all[i] in rest;
  }

  lemma {:induction false} WithoutStaysApart(arcs: seq<Arc>, target: Node, local: Local, descendants: bool)
    requires Apart(arcs)
    ensures Apart(Without(arcs, target, local, descendants))
  {
    if arcs != [] {
      var rest := Without(arcs[1..], target, local, descendants);
      ApartTail(arcs);
      WithoutStaysApart(arcs[1..], target, local, descendants);
      forall a | a in rest ensures a in arcs[1..] {
        WithoutMembers(arcs[1..], target, local, descendants, a);
      }
      ApartHead(arcs[0], rest);
      assert [] + rest == rest;
    }
  }

  lemma {:induction false} OutsideStaysApart(arcs: seq<Arc>, gone: set<Node>)
    requires Apart(arcs)
    ensures Apart(Outside(arcs, gone))
  {
    if arcs != [] {
      var rest := Outside(arcs[1..], gone);
      ApartTail(arcs);
      OutsideStaysApart(arcs[1..], gone);
      forall a | a in rest ensures a in arcs[1..] {
        OutsideMembers(arcs[1..], gone, a);
      }
      ApartHead(arcs[0], rest);
      assert [] + rest == rest;
    }
  }

  lemma KeptStaysValid(nodes: set<Node>, cells: set<Node>, arcs: seq<Arc>, target: Node, local: Local,
      descendants: bool)
    requires Within(nodes, arcs) && Acyclic(arcs) && Apart(arcs)
    requires forall i :: 0 <= i < |arcs| ==> Fits(cells, arcs[i].target, arcs[i].local)
    ensures var kept := Without(arcs, target, local, descendants);
            && Within(nodes, kept) && Acyclic(kept) && Apart(kept)
            && forall i :: 0 <= i < |kept| ==> Fits(cells, kept[i].target, kept[i].local)
  {
    var kept := Without(arcs, target, local, descendants);
    forall a | a in kept ensures a in arcs {
      WithoutMembers(arcs, target, local, descendants, a);
    }
    assert forall i :: 0 <= i < |kept| ==> kept[i] in arcs;
    FewerArcsStayAcyclic(kept, arcs);
    WithoutStaysApart(arcs, target, local, descendants);
  }

  lemma OutsideStaysValid(nodes: set<Node>, cells: set<Node>, arcs: seq<Arc>, gone: set<Node>)
    requires Within(nodes, arcs) && Acyclic(arcs) && Apart(arcs)
    requires forall i :: 0 <= i < |arcs| ==> Fits(cells, arcs[i].target, arcs[i].local)
    ensures var kept := Outside(arcs, gone);
            && Within(nodes - gone, kept) && Acyclic(kept) && Apart(kept)
            && forall i :: 0 <= i < |kept| ==> Fits(cells, kept[i].target, kept[i].local)
  {
    var kept := Outside(arcs, gone);
    forall a | a in kept ensures a in arcs && a.source !in gone && a.target !in gone {
      OutsideMembers(arcs, gone, a);
    }
    assert forall i :: 0 <= i < |kept| ==> kept[i] in arcs && kept[i] in kept;
    FewerArcsStayAcyclic(kept, arcs);
    OutsideStaysApart(arcs, gone);
  }

  lemma NotAround(cells: set<Node>, arcs: seq<Arc>, extra: Arc, i: nat)
    requires i < |arcs| && arcs[i].target == extra.target && !Extends(extra.local, arcs[i].local)
    requires Fits(cells, extra.target, extra.local) && Fits(cells, arcs[i].target, arcs[i].local)
    requires !Mixes(cells, arcs, extra.target, extra.local)
    ensures !Extends(arcs[i].local, extra.local)
  {
    var local := arcs[i].local;
    assert |local| == 1 ==> local[..1] == local;
    assert |extra.local| == 1 ==> extra.local[..1] == extra.local;
  }

  /** What remains at the target lies neither within the new edge's path nor around it. */
  lemma AddEdgeKeepsApart(cells: set<Node>, arcs: seq<Arc>, extra: Arc)
    requires Apart(arcs) && Fits(cells, extra.target, extra.local) && !Mixes(cells, arcs, extra.target, extra.local)
    requires forall i :: 0 <= i < |arcs| ==> Fits(cells, arcs[i].target, arcs[i].local)
    ensures Apart(Without(arcs, extra.target, extra.local, true) + [extra])
  {
    var kept := Without(arcs, extra.target, extra.local, true);
    WithoutStaysApart(arcs, extra.target, extra.local, true);
    hide Extends, Fits;
    forall a | a in kept && a.target == extra.target
      ensures !Extends(extra.local, a.local) && !Extends(a.local, extra.local) {
      WithoutMembers(arcs, extra.target, extra.local, true, a);
      var i :| 0 <= i < |arcs| && arcs[i] == a;
      NotAround(cells, arcs, extra, i);
    }
    hide *;
    ApartLast(kept, extra);
  }

  lemma ApartLast(init: seq<Arc>, arc: Arc)
    requires Apart(init)
    requires forall a :: a in init && a.target == arc.target ==>
      !Extends(arc.local, a.local) && !Extends(a.local, arc.local)
    ensures Apart(init + [arc])
  {
    var all := init + [arc];
    assert forall i :: 0 <= i < |init| ==> all[i] == init[i] && all[i] in init;
    hide Extends;
  }

  lemma AddEdgeKeepsFitting(nodes: set<Node>, cells: set<Node>, arcs: seq<Arc>, extra: Arc)
    requires Within(nodes, arcs) && extra.source in nodes && extra.target in nodes
    requires Fits(cells, extra.target, extra.local)
    requires forall i :: 0 <= i < |arcs| ==> Fits(cells, arcs[i].target, arcs[i].local)
    ensures var all := Without(arcs, extra.target, extra.local, true) + [extra];
            Within(nodes, all) && forall i :: 0 <= i < |all| ==> Fits(cells, all[i].target, all[i].local)
  {
    var kept := Without(arcs, extra.target, extra.local, true);
    forall a | a in kept ensures a in arcs {
      WithoutMembers(arcs, extra.target, extra.local, true, a);
    }
    assert forall i :: 0 <= i < |kept| ==> kept[i] in arcs;
  }

  /** The guard is checked before the old edges of the path go, so it also covers what remains. */
  lemma AddEdgeKeepsAcyclic(arcs: seq<Arc>, extra: Arc)
    requires Acyclic(arcs) && extra.source != extra.target && !Reaches(arcs, extra.target, extra.source)
    ensures Acyclic(Without(arcs, extra.target, extra.local, true) + [extra])
  {
    var kept := Without(arcs, extra.target, extra.local, true);
    forall a | a in kept ensures a in arcs {
      WithoutMembers(arcs, extra.target, extra.local, true, a);
    }
    FewerArcsStayAcyclic(kept, arcs);
    if Reaches(kept, extra.target, extra.source) {
      var p :| Joins(kept, p, extra.target, extra.source);
      PathAmongMore(kept, arcs, p);
      assert Joins(arcs, p, extra.target, extra.source);
    }
    AddArcStaysAcyclic(kept, extra);
  }

  // ----- the order of derivation -----

  ghost predicate NoRepeats(order: seq<Node>) {
    forall i, j :: 0 <= i < j < |order| ==> order[i] != order[j]
  }

  /** Every node comes after all of its sources. */
  ghost predicate SourcesFirst(arcs: seq<Arc>, order: seq<Node>) {
    forall i, k :: 0 <= i < |order| && 0 <= k < |arcs| && arcs[k].target == order[i] ==> arcs[k].source in order[..i]
  }

  /** The state of the depth-first walk: `order` is finished, the rest of `visited` is on the stack. */
  class Walk {
    const arcs: seq<Arc>
    var visited: set<Node>
    var order: seq<Node>

    ghost predicate Valid() reads this {
      && Acyclic(arcs) && NoRepeats(order) && SourcesFirst(arcs, order)
      && forall n :: n in order ==> n in visited
    }

    ghost function Open(): set<Node> reads this {
      set n | n in visited && n !in order
    }

    constructor (arcs: seq<Arc>)
      requires Acyclic(arcs)
      ensures Valid() && visited == {} && order == [] && this.arcs == arcs
    {
      this.arcs := arcs;
      visited, order := {}, [];
    }

    method Visit(path: Node, nodes: set<Node>)
      requires Valid() && Within(nodes, arcs) && path in nodes && visited <= nodes
      requires forall n :: n in Open() ==> Reaches(arcs, path, n) && n != path
      modifies this
      ensures Valid() && visited <= nodes
      ensures path in order && old(order) <= order && Open() == old(Open()) && old(visited) <= visited
      decreases nodes - visited
    {
      if path in visited {
        return;
      }
      visited := visited + {path};
      ReachesItself(arcs, path);
      for k := 0 to |arcs|
        invariant Valid() && visited <= nodes && old(visited) + {path} <= visited && path !in order
        invariant old(order) <= order && Open() == old(Open()) + {path}
        invariant forall j :: 0 <= j < k && arcs[j].target == path ==> arcs[j].source in order
      {
        if arcs[k].target == path {
          ghost var before := order;
          var source := arcs[k].source;
          assert Feeds(arcs, source, path);
          forall n | n in Open() ensures Reaches(arcs, source, n) && n != source {
            SourceBefore(arcs, source, path, n);
          }
          Visit(source, nodes);
          assert path in Open();
          assert forall n :: n in before ==> n in order;
        }
      }
      AppendOrdered(arcs, order, path);
      ghost var before := order;
      order := order + [path];
      assert forall n :: n in order <==> n in before || n == path;
    }
  }

  lemma AppendOrdered(arcs: seq<Arc>, order: seq<Node>, n: Node)
    requires NoRepeats(order) && SourcesFirst(arcs, order) && n !in order
    requires forall k :: 0 <= k < |arcs| && arcs[k].target == n ==> arcs[k].source in order
    ensures NoRepeats(order + [n]) && SourcesFirst(arcs, order + [n])
  {
    var all := order + [n];
    forall i, k | 0 <= i < |all| && 0 <= k < |arcs| && arcs[k].target == all[i]
      ensures arcs[k].source in all[..i]
    {
      assert all[..i] == order[..i];
      assert order[..|order|] == order;
    }
  }

  /** What `path` reaches, its source reaches too, by a path of at least one arc. */
  lemma SourceBefore(arcs: seq<Arc>, source: Node, path: Node, n: Node)
    requires Acyclic(arcs) && Feeds(arcs, source, path) && Reaches(arcs, path, n)
    ensures Reaches(arcs, source, n) && n != source
  {
    var p :| Joins(arcs, p, path, n);
    var q := [source] + p;
    assert IsPath(arcs, q) by {
      forall i | 0 <= i < |q| - 1 ensures Feeds(arcs, q[i], q[i + 1]) {
        if i > 0 {
          assert Feeds(arcs, p[i - 1], p[i - 1 + 1]);
        }
      }
    }
    assert Joins(arcs, q, source, n);
  }

  /** The order in which a graph's nodes are derived: each once, after all of its sources. */
  method DeriveOrder(nodes: set<Node>, sorted: seq<Node>, arcs: seq<Arc>) returns (order: seq<Node>)
    requires Acyclic(arcs) && Within(nodes, arcs) && forall n :: n in sorted <==> n in nodes
    ensures NoRepeats(order) && SourcesFirst(arcs, order)
    ensures forall n :: n in nodes <==> n in order
  {
    var walk := new Walk(arcs);
    for i := 0 to |sorted|
      invariant walk.Valid() && walk.arcs == arcs && walk.visited <= nodes && walk.Open() == {}
      invariant forall j :: 0 <= j < i ==> sorted[j] in walk.order
    {
      ghost var before := walk.order;
      walk.Visit(sorted[i], nodes);
      assert forall n :: n in before ==> n in walk.order;
    }
    order := walk.order;
  }

  // ----- the check on a loaded graph -----

  lemma {:induction false} OrderAscends(arcs: seq<Arc>, order: seq<Node>, p: seq<Node>, i: nat, j: nat)
    requires NoRepeats(order) && SourcesFirst(arcs, order) && IsPath(arcs, p)
    requires i < |order| && j < |order| && p[0] == order[i] && p[|p| - 1] == order[j]
    ensures |p| >= 2 ==> i < j
    decreases |p|
  {
    if |p| >= 2 {
      var n := |p| - 2;
      assert Feeds(arcs, p[n], p[n + 1]);
      var k :| 0 <= k < |arcs| && arcs[k].source == p[n] && arcs[k].target == p[n + 1];
      assert arcs[k].source in order[..j];
      var h :| 0 <= h < j && order[h] == p[n];
      var init := p[..n + 1];
      assert IsPath(arcs, init) by {
        forall m | 0 <= m < |init| - 1 ensures Feeds(arcs, init[m], init[m + 1]) {
          assert Feeds(arcs, p[m], p[m + 1]);
        }
      }
      OrderAscends(arcs, order, init, i, h);
    }
  }

  /** Nodes that can be ordered with sources first have no cycle among them. */
  lemma OrderedIsAcyclic(arcs: seq<Arc>, order: seq<Node>)
    requires NoRepeats(order) && SourcesFirst(arcs, order)
    requires forall k :: 0 <= k < |arcs| ==> arcs[k].source in order && arcs[k].target in order
    ensures Acyclic(arcs)
  {
    forall p | IsPath(arcs, p) && |p| >= 2 ensures p[0] != p[|p| - 1] {
      var last := |p| - 2;
      assert Feeds(arcs, p[0], p[0 + 1]) && Feeds(arcs, p[last], p[last + 1]);
      var i :| 0 <= i < |order| && order[i] == p[0];
      var j :| 0 <= j < |order| && order[j] == p[|p| - 1];
      OrderAscends(arcs, order, p, i, j);
    }
  }

  class Check {
    const arcs: seq<Arc>
    var visiting: set<Node>
    var done: set<Node>
    ghost var order: seq<Node>

    ghost predicate Valid() reads this {
      NoRepeats(order) && SourcesFirst(arcs, order) && visiting !! done && forall n :: n in order <==> n in done
    }

    constructor (arcs: seq<Arc>)
      ensures Valid() && visiting == {} && done == {} && this.arcs == arcs
    {
      this.arcs := arcs;
      visiting, done, order := {}, {}, [];
    }

    /** Walks the sources of `path`; false when the walk meets itself. */
    method Visit(path: Node, nodes: set<Node>) returns (ok: bool)
      requires Valid() && Within(nodes, arcs) && path in nodes && visiting <= nodes
      requires forall n :: n in visiting ==> exists m :: Feeds(arcs, path, m) && Reaches(arcs, m, n)
      modifies this
      ensures ok ==> Valid() && visiting == old(visiting) && old(done) <= done && path in done
      ensures !ok ==> !Acyclic(arcs)
      decreases nodes - visiting
    {
      if path in visiting {
        ghost var m :| Feeds(arcs, path, m) && Reaches(arcs, m, path);
        if Acyclic(arcs) {
          SourceBefore(arcs, path, m, path);
        }
        return false;
      }
      if path in done {
        return true;
      }
      visiting := visiting + {path};
      for k := 0 to |arcs|
        invariant Valid() && visiting == old(visiting) + {path} && old(done) <= done
        invariant forall j :: 0 <= j < k && arcs[j].target == path ==> arcs[j].source in done
      {
        if arcs[k].target == path {
          assert Feeds(arcs, arcs[k].source, path);
          ReachesItself(arcs, path);
          forall n | n in visiting ensures exists m :: Feeds(arcs, arcs[k].source, m) && Reaches(arcs, m, n) {
            if n != path {
              var m :| Feeds(arcs, path, m) && Reaches(arcs, m, n);
              ReachesVia(arcs, path, m, n);
            }
          }
          ok := Visit(arcs[k].source, nodes);
          if !ok {
            return;
          }
        }
      }
      visiting, done := visiting - {path}, done + {path};
      AppendOrdered(arcs, order, path);
      order := order + [path];
      return true;
    }
  }

  lemma ReachesVia(arcs: seq<Arc>, a: Node, b: Node, c: Node)
    requires Feeds(arcs, a, b) && Reaches(arcs, b, c)
    ensures Reaches(arcs, a, c)
  {
    var p :| Joins(arcs, p, b, c);
    var q := [a] + p;
    forall i | 0 <= i < |q| - 1 ensures Feeds(arcs, q[i], q[i + 1]) {
      if i > 0 {
        assert Feeds(arcs, p[i - 1], p[i - 1 + 1]);
      }
    }
    assert Joins(arcs, q, a, c);
  }

  /** A loaded graph is accepted exactly when it has no dependency cycle. */
  method PreparedGraphIsAcyclic(nodes: set<Node>, sorted: seq<Node>, arcs: seq<Arc>) returns (ok: bool)
    requires Within(nodes, arcs) && forall n :: n in sorted <==> n in nodes
    ensures ok <==> Acyclic(arcs)
  {
    var check := new Check(arcs);
    for i := 0 to |sorted|
      invariant check.Valid() && check.arcs == arcs && check.visiting == {}
      invariant forall j :: 0 <= j < i ==> sorted[j] in check.done
    {
      ok := check.Visit(sorted[i], nodes);
      if !ok {
        return;
      }
    }
    OrderedIsAcyclic(arcs, check.order);
    return true;
  }
}
